/** The eight `Translate*` functions (eddnlistener/eddnlistener.go:1603-1681): a journal
 *  symbol such as `$economy_Agri;` is normalised to a key, looked up in its table, and
 *  a miss hands back the input as it came. */
module Translate {
  import opened Text
  import opened Tables

  /** The normalised key: lower-cased, every `$` and `;` removed and, for materials and
   *  commodities (`dropSpaces`), every space removed as well. */
  function Key(s: string, dropSpaces: bool): string
  {
    var k := Remove(Remove(LowerAll(s), '$'), ';');
    if dropSpaces then Remove(k, ' ') else k
  }

  /** A string that normalisation leaves as it is. */
  predicate IsKey(k: string, dropSpaces: bool)
  {
    IsLowerCase(k) && '$' !in k && ';' !in k && (dropSpaces ==> ' ' !in k)
  }

  /** The translation shared by all eight functions. */
  function Lookup(table: map<string, string>, s: string, dropSpaces: bool): string
  {
    if s == "" then "None"
    else if Key(s, dropSpaces) in table then table[Key(s, dropSpaces)]
    else s
  }

  function TranslateSecurity(s: string): string { Lookup(Securities, s, false) }
  function TranslateAllegiance(s: string): string { Lookup(Allegiances, s, false) }
  function TranslateEconomy(s: string): string { Lookup(Economies, s, false) }
  function TranslateGovernment(s: string): string { Lookup(Governments, s, false) }
  function TranslateState(s: string): string { Lookup(States, s, false) }
  function TranslateVolcanism(s: string): string { Lookup(Volcanisms, s, false) }
  function TranslateMaterial(s: string): string { Lookup(Materials, s, true) }
  function TranslateCommodity(s: string): string { Lookup(Commodities, s, true) }

  /** Every key is normalised: lower case, no `$`, no `;` and, when spaces are dropped,
   *  no space. */
  lemma KeyIsKey(s: string, dropSpaces: bool)
    ensures IsKey(Key(s, dropSpaces), dropSpaces)
  {
    LowerAllProperties(s);
    var k1 := Remove(LowerAll(s), '$');
    var k2 := Remove(k1, ';');
    RemoveKeepsLowerCase(LowerAll(s), '$');
    RemoveKeepsLowerCase(k1, ';');
    RemoveKeepsAbsent(k1, ';', '$');
    if dropSpaces {
      RemoveKeepsLowerCase(k2, ' ');
      RemoveKeepsAbsent(k2, ' ', '$');
      RemoveKeepsAbsent(k2, ' ', ';');
    }
  }

  /** A normalised string is its own key. */
  lemma KeyOfKey(k: string, dropSpaces: bool)
    requires IsKey(k, dropSpaces)
    ensures Key(k, dropSpaces) == k
  {
    LowerAllProperties(k);
    RemoveAbsent(k, '$');
    RemoveAbsent(k, ';');
    if dropSpaces {
      RemoveAbsent(k, ' ');
    }
  }

  /** Normalising twice is normalising once. */
  lemma KeyIdempotent(s: string, dropSpaces: bool)
    ensures Key(Key(s, dropSpaces), dropSpaces) == Key(s, dropSpaces)
  {
    KeyIsKey(s, dropSpaces);
    KeyOfKey(Key(s, dropSpaces), dropSpaces);
  }

  /** The journal writes symbols as `$key;`; their key is the bare `key`. */
  lemma {:induction false} KeyOfSymbol(k: string, dropSpaces: bool)
    requires IsKey(k, dropSpaces)
    ensures Key("$" + k + ";", dropSpaces) == k
  {
    var s := "$" + k + ";";
    assert IsLowerCase(s) by {
      assert forall i :: 0 < i < |s| - 1 ==> s[i] == k[i - 1];
    }
    LowerAllProperties(s);
    StripSymbolMarks(k);
    if dropSpaces {
      RemoveAbsent(k, ' ');
    }
  }

  /** Removing `$` and then `;` from `$k;` leaves `k` when `k` has neither. */
  lemma StripSymbolMarks(k: string)
    requires '$' !in k && ';' !in k
    ensures Remove(Remove("$" + k + ";", '$'), ';') == k
  {
    RemoveAppend("$" + k, ";", '$');
    RemoveAppend("$", k, '$');
    RemoveAbsent(k, '$');
    RemoveAbsent(";", '$');
    assert Remove("$", '$') == [];
    assert Remove("$" + k + ";", '$') == k + ";";
    RemoveAppend(k, ";", ';');
    RemoveAbsent(k, ';');
    assert Remove(";", ';') == [];
  }

  /** The three outcomes of a translation: `""` becomes `"None"`, a string whose key is
   *  in the table becomes the table's name, and any other string is handed back as it
   *  came (not its key). */
  lemma LookupCases(table: map<string, string>, s: string, dropSpaces: bool)
    ensures s == "" ==> Lookup(table, s, dropSpaces) == "None"
    ensures s != "" && Key(s, dropSpaces) in table ==>
      Lookup(table, s, dropSpaces) == table[Key(s, dropSpaces)]
    ensures s != "" && Key(s, dropSpaces) !in table ==> Lookup(table, s, dropSpaces) == s
  {
  }

  /** Translation only sees the key: two non-empty spellings with the same key (case,
   *  `$`, `;` and, where dropped, spaces aside) translate alike when the key is known. */
  lemma LookupSeesOnlyKey(table: map<string, string>, s: string, t: string, dropSpaces: bool)
    requires s != "" && t != ""
    requires Key(s, dropSpaces) == Key(t, dropSpaces) && Key(s, dropSpaces) in table
    ensures Lookup(table, s, dropSpaces) == Lookup(table, t, dropSpaces)
  {
  }

  /** Every result is `"None"`, the input itself, or one of the table's names. */
  lemma LookupRange(table: map<string, string>, s: string, dropSpaces: bool)
    ensures var r := Lookup(table, s, dropSpaces);
      r == "None" || r == s || r in table.Values
  {
  }

  /** Every entry of a table whose keys are normalised is reached both by its bare key
   *  and by the `$key;` symbol. */
  lemma LookupReachesEveryEntry(table: map<string, string>, k: string, dropSpaces: bool)
    requires k in table && k != "" && IsKey(k, dropSpaces)
    ensures Lookup(table, k, dropSpaces) == table[k]
    ensures Lookup(table, "$" + k + ";", dropSpaces) == table[k]
  {
    KeyOfKey(k, dropSpaces);
    KeyOfSymbol(k, dropSpaces);
  }

  /** A string whose lower-cased form `k` is already a key is looked up under `k`. */
  lemma LookupLowered(table: map<string, string>, s: string, k: string)
    requires s != "" && LowerAll(s) == k && IsKey(k, false)
    ensures Lookup(table, s, false) == if k in table then table[k] else s
  {
    RemoveAbsent(k, '$');
    RemoveAbsent(k, ';');
  }

  /** Lower-casing the example input. */
  lemma LowerExamples()
    ensures LowerAll("Faction_Independent") == "faction_independent"
  {
  }

  /** Any spelling of `faction_independent` translates to `Independent`. */
  lemma IndependentAnyCase(s: string)
    requires s != "" && LowerAll(s) == "faction_independent"
    ensures TranslateAllegiance(s) == "Independent"
  {
    LookupLowered(Allegiances, s, "faction_independent");
  }

  /** `$economy_agri;` translates to `Agriculture`. */
  lemma AgricultureExample()
    ensures TranslateEconomy("$economy_agri;") == "Agriculture"
  {
    assert "$economy_agri;" == "$" + "economy_agri" + ";";
    LookupReachesEveryEntry(Economies, "economy_agri", false);
  }

  /** The Docked handler's default allegiance, `Faction_Independent`, translates to
   *  `Independent` (mixed case is folded). */
  lemma IndependentExample()
    ensures TranslateAllegiance("Faction_Independent") == "Independent"
  {
    LowerExamples();
    IndependentAnyCase("Faction_Independent");
  }

  /** Commodity symbols are renamed: `drones` is sold as `Limpets`. */
  lemma LimpetsExample()
    ensures TranslateCommodity("drones") == "Limpets"
  {
    DronesEntry();
    LookupReachesEveryEntry(Commodities, "drones", true);
  }

  /** `drones` is a normalised key of the commodities table, named `Limpets`. */
  lemma DronesEntry()
    ensures IsKey("drones", true)
    ensures "drones" in Commodities && Commodities["drones"] == "Limpets"
  {
  }
}
