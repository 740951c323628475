/** The stations importer (importstations.go:67-273): commodity names and faction names
 *  are read into maps, market listings are grouped into a JSON array text per station,
 *  and every station of the stations dump has its foreign ids removed, its faction and
 *  economy rewritten and its listings spliced in before it becomes a row of the stations
 *  table. Reading the files, tokenising the CSV, decoding the JSON and the transaction
 *  calls are not modelled: the importer receives the decoded records. */
module ImportStations {
  import opened Wrappers
  import opened Json
  import opened Text
  import opened Batches

  type Row = seq<string>

  // ----- Maps filled entry by entry -----

  /** A map filled pair by pair, as `m[k] = v` in a loop: a later pair overwrites an
   *  earlier one with the same key. */
  function Assign<K, V>(pairs: seq<(K, V)>): map<K, V>
    decreases |pairs|
  {
    if pairs == [] then map[]
    else Assign(pairs[..|pairs| - 1])[pairs[|pairs| - 1].0 := pairs[|pairs| - 1].1]
  }

  lemma AssignNext<K, V>(pairs: seq<(K, V)>, p: (K, V))
    ensures Assign(pairs + [p]) == Assign(pairs)[p.0 := p.1]
  {
    assert (pairs + [p])[..|pairs|] == pairs;
  }

  /** Exactly the keys of the pairs are in the map. */
  lemma {:induction false} AssignKeys<K, V>(pairs: seq<(K, V)>, k: K)
    ensures k in Assign(pairs) <==> exists i :: 0 <= i < |pairs| && pairs[i].0 == k
  {
    if pairs != [] {
      var n := |pairs| - 1;
      var prefix := pairs[..n];
      AssignKeys(prefix, k);
      assert forall i :: 0 <= i < n ==> prefix[i] == pairs[i];
      if k in Assign(pairs) && k != pairs[n].0 {
        var i :| 0 <= i < n && prefix[i].0 == k;
        assert pairs[i].0 == k;
      }
      if exists i :: 0 <= i < |pairs| && pairs[i].0 == k {
        var i :| 0 <= i < |pairs| && pairs[i].0 == k;
        if i < n {
          assert prefix[i].0 == k;
        }
      }
    }
  }

  /** The value under a key is the one of the last pair with that key. */
  lemma {:induction false} AssignLastWins<K, V>(pairs: seq<(K, V)>, i: nat)
    requires i < |pairs|
    requires forall j :: i < j < |pairs| ==> pairs[j].0 != pairs[i].0
    ensures pairs[i].0 in Assign(pairs) && Assign(pairs)[pairs[i].0] == pairs[i].1
  {
    var n := |pairs| - 1;
    if i < n {
      var init := pairs[..n];
      assert forall j :: i < j < n ==> init[j] == pairs[j];
      AssignLastWins(init, i);
      assert init[i] == pairs[i];
    }
  }

  // ----- Commodity names -----

  /** Go's conversion of a `float64` to an `int`: toward zero. */
  function Trunc(r: real): int
  {
    if r >= 0.0 then r.Floor else -((-r).Floor)
  }

  /** One commodity definition: its id must be a number and its name a string, or the
   *  type assertion panics. */
  function CommodityPair(d: Doc): Result<Option<(int, string)>>
  {
    var id := Get(d, "id");
    var name := Get(d, "name");
    if !id.Num? then Err("commodity id is not a number")
    else if !name.Str? then Err("commodity name is not a string")
    else Ok(Some((Trunc(id.n), name.s)))
  }

  /** The commodity names by id, or the panic of the first bad definition. */
  function CommodityNamesSpec(defs: seq<Doc>): Result<map<int, string>>
  {
    var b := Collect(defs, CommodityPair);
    if b.aborted.Some? then Err(b.aborted.value) else Ok(Assign(b.rows))
  }

  /** The loop over the decoded definitions. */
  method CommodityNames(defs: seq<Doc>) returns (r: Result<map<int, string>>)
    ensures r == CommodityNamesSpec(defs)
  {
    var commodities: map<int, string> := map[];
    ghost var pairs: seq<(int, string)> := [];
    var i := 0;
    while i < |defs|
      invariant 0 <= i <= |defs|
      invariant Collect(defs[..i], CommodityPair) == Batch(pairs, None)
      invariant commodities == Assign(pairs)
    {
      var element := defs[i];
      var id := Get(element, "id");
      var name := Get(element, "name");
      if !id.Num? || !name.Str? {
        CollectStops(defs, CommodityPair, i, pairs);
        return Err(CommodityPair(element).msg);
      }
      CollectNext(defs, CommodityPair, i);
      commodities := commodities[Trunc(id.n) := name.s];
      AssignNext(pairs, (Trunc(id.n), name.s));
      pairs := pairs + [(Trunc(id.n), name.s)];
      i := i + 1;
    }
    assert defs[..i] == defs;
    return Ok(commodities);
  }

  // ----- Market listings -----

  /** The first of columns 1 to 6 (station id, commodity id, supply, buy price, sell
   *  price, demand) that is missing or empty, in the order the loop looks at them. */
  function ListingGap(line: Row, c: nat): (r: Option<nat>)
    requires 1 <= c <= 7 && (c == 1 || c <= |line|)
    ensures r.None? ==> |line| >= 7 && forall k :: c <= k < 7 ==> line[k] != ""
    ensures r.Some? ==> c <= r.value < 7 && (r.value >= |line| || line[r.value] == "")
    decreases 7 - c
  {
    if c == 7 then None
    else if c >= |line| || line[c] == "" then Some(c)
    else ListingGap(line, c + 1)
  }

  /** The members of one listing's entry: the commodity id as `Itoa` writes it back and
   *  its name (empty when unknown), then supply and buy price when the supply is
   *  positive, then demand and sell price when the demand is positive. Malformed numbers
   *  read as 0, as `strconv.Atoi` returns with its error ignored. */
  function EntryMembers(line: Row, names: map<int, string>): seq<Member>
    requires |line| >= 7
  {
    var cid := AtoiOrZero(line[2]);
    var supply := AtoiOrZero(line[3]);
    var demand := AtoiOrZero(line[6]);
    [Member("id", Itoa(cid)), Member("name", Quote(if cid in names then names[cid] else ""))]
    + (if supply > 0 then [Member("supply", Itoa(supply)), Member("buy_price", line[4])] else [])
    + (if demand > 0 then [Member("demand", Itoa(demand)), Member("sell_price", line[5])] else [])
  }

  function EntryText(line: Row, names: map<int, string>): string
    requires |line| >= 7
  {
    RenderObject(EntryMembers(line, names))
  }

  /** One listing record: refused by the CSV reader when its field count differs from the
   *  header's; skipped at the first empty field among columns 1 to 6, a panic if the
   *  record lacks that column; else the station id as written and the entry. */
  function ListingRow(header: Row, names: map<int, string>, line: Row): Result<Option<(string, string)>>
  {
    if |line| != |header| then Err("wrong number of fields")
    else match ListingGap(line, 1)
      case Some(c) => if c < |line| then Ok(None) else Err("index out of range")
      case None => Ok(Some((line[1], EntryText(line, names))))
  }

  function ListingRows(header: Row, names: map<int, string>): Row -> Result<Option<(string, string)>>
  {
    line => ListingRow(header, names, line)
  }

  /** The entries of each station, in file order. */
  function Group(pairs: seq<(string, string)>): map<string, seq<string>>
    decreases |pairs|
  {
    if pairs == [] then map[]
    else
      var g := Group(pairs[..|pairs| - 1]);
      var (s, e) := pairs[|pairs| - 1];
      g[s := (if s in g then g[s] else []) + [e]]
  }

  /** The entries of one station, in file order. */
  function EntriesOf(pairs: seq<(string, string)>, s: string): seq<string>
    decreases |pairs|
  {
    if pairs == [] then []
    else EntriesOf(pairs[..|pairs| - 1], s) + (if pairs[|pairs| - 1].0 == s then [pairs[|pairs| - 1].1] else [])
  }

  /** Grouping gives each station with listings exactly its own entries, in order. */
  lemma {:induction false} GroupIsPerStation(pairs: seq<(string, string)>)
    ensures forall s :: s in Group(pairs) <==> EntriesOf(pairs, s) != []
    ensures forall s :: s in Group(pairs) ==> Group(pairs)[s] == EntriesOf(pairs, s)
  {
    if pairs != [] {
      GroupIsPerStation(pairs[..|pairs| - 1]);
    }
  }

  /** The entries per station, or the error that ends the import. */
  function ListingsSpec(header: Row, rows: seq<Row>, names: map<int, string>): Result<map<string, seq<string>>>
  {
    var b := Collect(rows, ListingRows(header, names));
    if b.aborted.Some? then Err(b.aborted.value) else Ok(Group(b.rows))
  }

  /** Entries separated by commas. */
  function JoinEntries(es: seq<string>): string
    decreases |es|
  {
    if es == [] then ""
    else if |es| == 1 then es[0]
    else JoinEntries(es[..|es| - 1]) + "," + es[|es| - 1]
  }

  /** A station's buffer: `[` and its entries, the closing bracket still to come. */
  function OpenArray(es: seq<string>): string
  {
    "[" + JoinEntries(es)
  }

  /** Each buffer holds the open array of its station's entries. */
  ghost predicate Buffered(m: map<string, string>, g: map<string, seq<string>>)
  {
    && m.Keys == g.Keys
    && forall s :: s in m ==> g[s] != [] && m[s] == OpenArray(g[s])
  }

  /** A station's first entry opens its array, a later one follows a comma. */
  lemma BufferGrows(m: map<string, string>, g: map<string, seq<string>>, s: string, e: string)
    requires Buffered(m, g)
    ensures Buffered(m[s := (if s in m then m[s] + "," else "[") + e], g[s := (if s in g then g[s] else []) + [e]])
  {
    if s in g {
      var es := g[s];
      assert (es + [e])[..|es|] == es;
      assert JoinEntries(es + [e]) == JoinEntries(es) + "," + e;
    } else {
      assert JoinEntries([e]) == e;
    }
  }

  /** `"key":` and a number, after a comma. */
  method WriteNumber(buffer: string, key: string, value: string) returns (b: string)
    ensures b == buffer + ("," + MemberText(Member(key, value)))
  {
    b := buffer + ",\"" + key + "\":";
    b := b + value;
  }

  /** Two members written together when a condition holds. */
  method WritePair(entry: string, ghost ms: seq<Member>, cond: bool, a: Member, b: Member)
    returns (e: string)
    requires ms != [] && entry == "{" + JoinMembers(ms)
    ensures e == "{" + JoinMembers(ms + (if cond then [a, b] else []))
  {
    e := entry;
    if cond {
      e := WriteNumber(e, a.key, a.text);
      e := WriteNumber(e, b.key, b.text);
      PairJoined(ms, a, b);
    } else {
      assert ms + [] == ms;
    }
  }

  lemma PairJoined(ms: seq<Member>, a: Member, b: Member)
    requires ms != []
    ensures "{" + JoinMembers(ms + [a, b]) == "{" + JoinMembers(ms) + ("," + MemberText(a)) + ("," + MemberText(b))
  {
    var j, pa, pb := JoinMembers(ms), "," + MemberText(a), "," + MemberText(b);
    JoinAppend(ms, a);
    assert JoinMembers(ms + [a]) == j + pa;
    JoinAppend(ms + [a], b);
    assert ms + [a] + [b] == ms + [a, b];
    assert JoinMembers(ms + [a, b]) == (j + pa) + pb;
  }

  lemma IdText(t: string)
    ensures "{\"id\":" + t == "{" + MemberText(Member("id", t))
  {
  }

  lemma NameText(e: string, n: string)
    ensures e + "," + "\"name\":\"" + n + "\"" == e + ("," + MemberText(Member("name", Quote(n))))
  {
  }

  /** An entry's opening brace, commodity id and name. */
  method WriteEntryHead(commodityid: int, name: string) returns (entry: string)
    ensures entry == "{" + JoinMembers([Member("id", Itoa(commodityid)), Member("name", Quote(name))])
  {
    entry := "{\"id\":" + Itoa(commodityid);
    IdText(Itoa(commodityid));
    ghost var idPart := entry;
    entry := entry + ",";
    entry := entry + "\"name\":\"" + name + "\"";
    NameText(idPart, name);
    JoinAppend([Member("id", Itoa(commodityid))], Member("name", Quote(name)));
    assert [Member("id", Itoa(commodityid))] + [Member("name", Quote(name))] ==
      [Member("id", Itoa(commodityid)), Member("name", Quote(name))];
  }

  /** The text a listing entry adds to its station's buffer. */
  method WriteEntry(buffer: string, line: Row, names: map<int, string>) returns (b: string)
    requires |line| >= 7
    ensures b == buffer + EntryText(line, names)
  {
    var commodityid := AtoiOrZero(line[2]);
    var supply := AtoiOrZero(line[3]);
    var demand := AtoiOrZero(line[6]);
    var name := if commodityid in names then names[commodityid] else "";
    var entry := WriteEntryHead(commodityid, name);
    ghost var head := [Member("id", Itoa(commodityid)), Member("name", Quote(name))];
    ghost var sold := if supply > 0 then [Member("supply", Itoa(supply)), Member("buy_price", line[4])] else [];
    ghost var bought := if demand > 0 then [Member("demand", Itoa(demand)), Member("sell_price", line[5])] else [];
    entry := WritePair(entry, head, supply > 0, Member("supply", Itoa(supply)), Member("buy_price", line[4]));
    entry := WritePair(entry, head + sold, demand > 0, Member("demand", Itoa(demand)), Member("sell_price", line[5]));
    assert head + sold + bought == EntryMembers(line, names);
    entry := entry + "}";
    b := buffer + entry;
  }

  /** The listing loop: the buffers per station id as written in the file. */
  method BuildListings(header: Row, rows: seq<Row>, names: map<int, string>) returns (r: Result<map<string, string>>)
    ensures r.Err? <==> ListingsSpec(header, rows, names).Err?
    ensures r.Err? ==> r.msg == ListingsSpec(header, rows, names).msg
    ensures r.Ok? ==> Buffered(r.value, ListingsSpec(header, rows, names).value)
  {
    var m: map<string, string> := map[];
    ghost var pairs: seq<(string, string)> := [];
    var i := 0;
    while i < |rows|
      invariant 0 <= i <= |rows|
      invariant Collect(rows[..i], ListingRows(header, names)) == Batch(pairs, None)
      invariant Buffered(m, Group(pairs))
    {
      CollectNext(rows, ListingRows(header, names), i);
      var line := rows[i];
      var gap := ListingGap(line, 1);
      if |line| != |header| || (gap.Some? && gap.value >= |line|) {
        AbortedStaysAborted(rows, ListingRows(header, names), i + 1);
        return Err(ListingRow(header, names, line).msg);
      }
      if gap.None? {
        var stationid := line[1];
        var buffer: string;
        if stationid in m {
          buffer := m[stationid] + ",";
        } else {
          buffer := "[";
        }
        var entry := EntryText(line, names);
        buffer := WriteEntry(buffer, line, names);
        BufferGrows(m, Group(pairs), stationid, entry);
        m := m[stationid := buffer];
        assert (pairs + [(stationid, entry)])[..|pairs|] == pairs;
        pairs := pairs + [(stationid, entry)];
      }
      i := i + 1;
    }
    assert rows[..i] == rows;
    return Ok(m);
  }

  /** What one entry says: the commodity id, which reads back as the listed id, and its
   *  name; the supply and buy price exactly when the supply is positive; the demand and
   *  sell price exactly when the demand is positive; the supply and demand read back as
   *  listed and the prices as written. */
  lemma EntryFields(line: Row, names: map<int, string>)
    requires |line| >= 7
    ensures var ms := EntryMembers(line, names);
      var cid := AtoiOrZero(line[2]);
      && ms[0].key == "id" && Atoi(ms[0].text) == Some(cid)
      && ms[1] == Member("name", Quote(if cid in names then names[cid] else ""))
    ensures var ms := EntryMembers(line, names);
      && (Keyed(ms, "supply") <==> AtoiOrZero(line[3]) > 0)
      && (Keyed(ms, "buy_price") <==> AtoiOrZero(line[3]) > 0)
      && (Keyed(ms, "demand") <==> AtoiOrZero(line[6]) > 0)
      && (Keyed(ms, "sell_price") <==> AtoiOrZero(line[6]) > 0)
    ensures var ms := EntryMembers(line, names);
      AtoiOrZero(line[3]) > 0 ==>
        ms[2].key == "supply" && Atoi(ms[2].text) == Some(AtoiOrZero(line[3]))
        && ms[3] == Member("buy_price", line[4])
    ensures var ms := EntryMembers(line, names);
      AtoiOrZero(line[6]) > 0 ==>
        ms[|ms| - 2].key == "demand" && Atoi(ms[|ms| - 2].text) == Some(AtoiOrZero(line[6]))
        && ms[|ms| - 1] == Member("sell_price", line[5])
  {
    var cid := AtoiOrZero(line[2]);
    var supply := AtoiOrZero(line[3]);
    var demand := AtoiOrZero(line[6]);
    AtoiOfItoa(cid);
    AtoiOfItoa(supply);
    AtoiOfItoa(demand);
    EntryKeys(line, names, "supply");
    EntryKeys(line, names, "buy_price");
    EntryKeys(line, names, "demand");
    EntryKeys(line, names, "sell_price");
  }

  lemma EntryKeys(line: Row, names: map<int, string>, key: string)
    requires |line| >= 7 && key in {"supply", "buy_price", "demand", "sell_price"}
    ensures Keyed(EntryMembers(line, names), key) <==>
      if key in {"supply", "buy_price"} then AtoiOrZero(line[3]) > 0 else AtoiOrZero(line[6]) > 0
  {
    var cid := AtoiOrZero(line[2]);
    var supply := AtoiOrZero(line[3]);
    var demand := AtoiOrZero(line[6]);
    var sold := if supply > 0 then [Member("supply", Itoa(supply)), Member("buy_price", line[4])] else [];
    var bought := if demand > 0 then [Member("demand", Itoa(demand)), Member("sell_price", line[5])] else [];
    var head := [Member("id", Itoa(cid)), Member("name", Quote(if cid in names then names[cid] else ""))];
    assert EntryMembers(line, names) == head + sold + bought;
    KeyedConcat(head + sold, bought, key);
    KeyedConcat(head, sold, key);
    KeyedPair(head[0], head[1], key);
    if supply > 0 {
      KeyedPair(sold[0], sold[1], key);
    }
    if demand > 0 {
      KeyedPair(bought[0], bought[1], key);
    }
  }

  lemma KeyedPair(a: Member, b: Member, key: string)
    ensures Keyed([a, b], key) <==> a.key == key || b.key == key
  {
    if a.key == key {
      assert [a, b][0].key == key;
    } else if b.key == key {
      assert [a, b][1].key == key;
    }
  }

  /** Some member has the key. */
  predicate Keyed(ms: seq<Member>, key: string)
  {
    exists i :: 0 <= i < |ms| && ms[i].key == key
  }

  lemma KeyedConcat(a: seq<Member>, b: seq<Member>, key: string)
    ensures Keyed(a + b, key) <==> Keyed(a, key) || Keyed(b, key)
  {
    if Keyed(a + b, key) {
      var i :| 0 <= i < |a + b| && (a + b)[i].key == key;
      if i >= |a| {
        assert b[i - |a|].key == key;
      }
    }
    if Keyed(a, key) {
      var i :| 0 <= i < |a| && a[i].key == key;
      assert (a + b)[i].key == key;
    } else if Keyed(b, key) {
      var i :| 0 <= i < |b| && b[i].key == key;
      assert (a + b)[|a| + i].key == key;
    }
  }

  // ----- Factions -----

  /** One faction record: refused by the CSV reader when its field count differs from the
   *  header's; skipped when its id is empty; an id that is not a decimal integer panics
   *  (`assertNil`), even when the name is empty; skipped when its name is empty. */
  function FactionRow(header: Row, line: Row): Result<Option<(int, string)>>
  {
    if |line| != |header| then Err("wrong number of fields")
    else if |line| <= 0 then Err("index out of range")
    else if line[0] == "" then Ok(None)
    else match Atoi(line[0])
      case None => Err("invalid faction id")
      case Some(id) =>
        if |line| <= 1 then Err("index out of range")
        else if line[1] == "" then Ok(None)
        else Ok(Some((id, line[1])))
  }

  function FactionRows(header: Row): Row -> Result<Option<(int, string)>>
  {
    line => FactionRow(header, line)
  }

  /** The faction names by id, the last record with an id winning, or the error that ends
   *  the import. */
  function FactionsSpec(header: Row, rows: seq<Row>): Result<map<int, string>>
  {
    var b := Collect(rows, FactionRows(header));
    if b.aborted.Some? then Err(b.aborted.value) else Ok(Assign(b.rows))
  }

  /** The faction loop. */
  method BuildFactions(header: Row, rows: seq<Row>) returns (r: Result<map<int, string>>)
    ensures r == FactionsSpec(header, rows)
  {
    var factions: map<int, string> := map[];
    ghost var pairs: seq<(int, string)> := [];
    var i := 0;
    while i < |rows|
      invariant 0 <= i <= |rows|
      invariant Collect(rows[..i], FactionRows(header)) == Batch(pairs, None)
      invariant factions == Assign(pairs)
    {
      var line := rows[i];
      assert FactionRows(header)(line) == FactionRow(header, line);
      if |line| != |header| || |line| <= 0 {
        CollectStops(rows, FactionRows(header), i, pairs);
        return Err(FactionRow(header, line).msg);
      }
      if line[0] != "" {
        var factionid := Atoi(line[0]);
        if factionid.None? || |line| <= 1 {
          CollectStops(rows, FactionRows(header), i, pairs);
          return Err(FactionRow(header, line).msg);
        }
        if line[1] != "" {
          factions := factions[factionid.value := line[1]];
          assert (pairs + [(factionid.value, line[1])])[..|pairs|] == pairs;
          pairs := pairs + [(factionid.value, line[1])];
        }
      }
      CollectNext(rows, FactionRows(header), i);
      i := i + 1;
    }
    assert rows[..i] == rows;
    return Ok(factions);
  }

  // ----- Stations -----

  /** The foreign ids and the lists the importer cannot keep up to date. */
  const DroppedKeys: set<string> := {
    "government_id", "allegiance_id", "state_id", "type_id", "import_commodities",
    "export_commodities", "prohibited_commodities", "settlement_size_id",
    "settlement_security_id", "body_id"}

  /** The rewrite of a station: the dropped keys are removed; a controlling faction id
   *  that is not nil (absent or null) must be an integer number and is replaced by the
   *  faction's name (empty when unknown); the first of a non-empty list of economies,
   *  which must be a string, becomes the primary economy, and the economies are always
   *  removed. A failed assertion is a panic. */
  function RewriteSpec(station: Doc, factions: map<int, string>): Result<Doc>
  {
    var s := station - DroppedKeys;
    var cmf := Get(s, "controlling_minor_faction_id");
    if cmf != Null && Int(cmf).Err? then Err("controlling_minor_faction_id is not an integer")
    else
      var s1 := if cmf == Null then s
        else var id := Int(cmf).value;
          s["controlling_faction" := Str(if id in factions then factions[id] else "")] - {"controlling_minor_faction_id"};
      var ec := Get(s1, "economies");
      if ec != Null && !ec.List? then Err("economies is not a list")
      else if ec != Null && |ec.items| > 0 && !ec.items[0].Str? then Err("economy is not a string")
      else
        var s2 := if ec != Null && |ec.items| > 0 then s1["primary_economy" := ec.items[0]] else s1;
        Ok(s2 - {"economies"})
  }

  /** The rewrite, key by key on the decoded map. */
  method RewriteStation(station: Doc, factions: map<int, string>) returns (r: Result<Doc>)
    ensures r == RewriteSpec(station, factions)
  {
    var s := station;
    s := s - {"government_id"};
    s := s - {"allegiance_id"};
    s := s - {"state_id"};
    s := s - {"type_id"};
    s := s - {"import_commodities"};
    s := s - {"export_commodities"};
    s := s - {"prohibited_commodities"};
    s := s - {"settlement_size_id"};
    s := s - {"settlement_security_id"};
    s := s - {"body_id"};
    assert s == station - DroppedKeys;
    if Get(s, "controlling_minor_faction_id") != Null {
      var factionid := Int(Get(s, "controlling_minor_faction_id"));
      if factionid.Err? {
        return Err("controlling_minor_faction_id is not an integer");
      }
      var name := if factionid.value in factions then factions[factionid.value] else "";
      s := s["controlling_faction" := Str(name)];
      s := s - {"controlling_minor_faction_id"};
    }
    var economies := Get(s, "economies");
    if economies != Null {
      if !economies.List? {
        return Err("economies is not a list");
      }
      if |economies.items| > 0 {
        if !economies.items[0].Str? {
          return Err("economy is not a string");
        }
        s := s["primary_economy" := economies.items[0]];
      }
    }
    s := s - {"economies"};
    return Ok(s);
  }

  /** What the rewrite leaves: none of the dropped keys and no economies; the faction's
   *  name in place of a controlling faction id that was given; the first economy as the
   *  primary one when there were economies; every other member as it was. */
  lemma RewriteShape(station: Doc, factions: map<int, string>)
    requires RewriteSpec(station, factions).Ok?
    ensures var doc := RewriteSpec(station, factions).value;
      var cmf := Get(station, "controlling_minor_faction_id");
      var ec := Get(station, "economies");
      && (forall k :: k in DroppedKeys ==> k !in doc)
      && "economies" !in doc
      && (cmf != Null ==>
            && "controlling_minor_faction_id" !in doc
            && Int(cmf).Ok?
            && doc["controlling_faction"] ==
                 Str(if Int(cmf).value in factions then factions[Int(cmf).value] else ""))
      && (cmf == Null ==> Get(doc, "controlling_faction") == Get(station, "controlling_faction"))
      && (ec.List? && |ec.items| > 0 ==> ec.items[0].Str? && doc["primary_economy"] == ec.items[0])
      && (!(ec.List? && |ec.items| > 0) ==> Get(doc, "primary_economy") == Get(station, "primary_economy"))
      && (forall k :: k !in DroppedKeys && k !in RewrittenKeys ==>
            (k in doc <==> k in station) && (k in doc ==> doc[k] == station[k]))
  {
  }

  /** The members the rewrite may change besides the dropped ones. */
  const RewrittenKeys: set<string> :=
    {"controlling_minor_faction_id", "controlling_faction", "economies", "primary_economy"}

  /** A rewrite is refused exactly for a controlling faction id that is not an integer
   *  number, economies that are not a list, or a first economy that is not a string. */
  lemma RewriteFailsIff(station: Doc, factions: map<int, string>)
    ensures var cmf := Get(station, "controlling_minor_faction_id");
      var ec := Get(station, "economies");
      RewriteSpec(station, factions).Err? <==>
        || (cmf != Null && !(cmf.Num? && IsInteger(cmf.n)))
        || (ec != Null && !ec.List?)
        || (ec.List? && |ec.items| > 0 && !ec.items[0].Str?)
  {
  }

  /** A row of the stations table. */
  datatype StationRecord = StationRecord(id: int, systemId: int, name: string, data: string)

  /** The listings spliced into an encoded station: its closing brace becomes
   *  `,"commodities":` followed by the station's array and `]}`. */
  function WithListings(data: string, es: seq<string>): string
    requires |data| > 0
  {
    SpliceMember(data, "commodities", OpenArray(es) + "]")
  }

  /** One station line: the decoded object must have numbers as `system_id` and `id`
   *  (a number that is not an integer reads as 0, as `Int64` returns with its error
   *  ignored), the rewrite must succeed, the listings kept under the id as `Itoa` writes
   *  it are spliced into the encoding, and the name must be a string. `encode` stands for
   *  `json.Marshal`. */
  function StationRecordOf(decoded: Result<Doc>, factions: map<int, string>,
                           entries: map<string, seq<string>>, encode: Doc -> string)
    : Result<Option<StationRecord>>
  {
    match decoded
    case Err(e) => Err(e)
    case Ok(station) =>
      var sys := Get(station, "system_id");
      var sid := Get(station, "id");
      if !sys.Num? then Err("system_id is not a number")
      else if !sid.Num? then Err("id is not a number")
      else match RewriteSpec(station, factions)
        case Err(e) => Err(e)
        case Ok(doc) =>
          var id := IntOr(sid, 0);
          var data := encode(doc);
          var key := Itoa(id);
          if key in entries && |data| == 0 then Err("slice bounds out of range")
          else
            var text := if key in entries then WithListings(data, entries[key]) else data;
            var name := Get(doc, "name");
            if !name.Str? then Err("name is not a string")
            else Ok(Some(StationRecord(id, IntOr(sys, 0), name.s, text)))
  }

  function StationRows(factions: map<int, string>, entries: map<string, seq<string>>, encode: Doc -> string)
    : Result<Doc> -> Result<Option<StationRecord>>
  {
    decoded => StationRecordOf(decoded, factions, entries, encode)
  }

  /** The patch: the encoding loses its closing brace and gains the listings. */
  method SpliceListings(data: string, buffer: string) returns (d: string)
    requires |data| > 0
    ensures d == SpliceMember(data, "commodities", buffer + "]")
  {
    d := data[..|data| - 1];
    d := d + ",\"commodities\":";
    d := d + buffer;
    d := d + "]}";
  }

  /** The loop body for one station line. */
  method ImportStation(decoded: Result<Doc>, factions: map<int, string>, m: map<string, string>,
                       ghost entries: map<string, seq<string>>, encode: Doc -> string)
    returns (r: Result<Option<StationRecord>>)
    requires Buffered(m, entries)
    ensures r == StationRecordOf(decoded, factions, entries, encode)
  {
    if decoded.Err? {
      return Err(decoded.msg);
    }
    var station := decoded.value;
    if !Get(station, "system_id").Num? {
      return Err("system_id is not a number");
    }
    var systemid := IntOr(Get(station, "system_id"), 0);
    if !Get(station, "id").Num? {
      return Err("id is not a number");
    }
    var stationid := IntOr(Get(station, "id"), 0);
    var rewritten := RewriteStation(station, factions);
    if rewritten.Err? {
      return Err(rewritten.msg);
    }
    var data := encode(rewritten.value);
    var key := Itoa(stationid);
    if key in m {
      if |data| == 0 {
        return Err("slice bounds out of range");
      }
      data := SpliceListings(data, m[key]);
    }
    var name := Get(rewritten.value, "name");
    if !name.Str? {
      return Err("name is not a string");
    }
    return Ok(Some(StationRecord(stationid, systemid, name.s, data)));
  }

  /** The whole import. The commodity names, the listings and the factions are read
   *  first; an error in any of them ends the import before the transaction begins. Then
   *  every station line becomes a row, until one fails. */
  function ImportStationsSpec(defs: seq<Doc>, listingHeader: Row, listings: seq<Row>,
                              factionHeader: Row, factionRows: seq<Row>,
                              stations: seq<Result<Doc>>, encode: Doc -> string): Batch<StationRecord>
  {
    match CommodityNamesSpec(defs)
    case Err(e) => Batch([], Some(e))
    case Ok(names) =>
      match ListingsSpec(listingHeader, listings, names)
      case Err(e) => Batch([], Some(e))
      case Ok(entries) =>
        match FactionsSpec(factionHeader, factionRows)
        case Err(e) => Batch([], Some(e))
        case Ok(factions) => Collect(stations, StationRows(factions, entries, encode))
  }

  /** `ImportStations`. */
  method ImportStations(defs: seq<Doc>, listingHeader: Row, listings: seq<Row>,
                        factionHeader: Row, factionRows: seq<Row>,
                        stations: seq<Result<Doc>>, encode: Doc -> string)
    returns (b: Batch<StationRecord>)
    ensures b == ImportStationsSpec(defs, listingHeader, listings, factionHeader, factionRows, stations, encode)
  {
    var commodities := CommodityNames(defs);
    if commodities.Err? {
      return Batch([], Some(commodities.msg));
    }
    var m := BuildListings(listingHeader, listings, commodities.value);
    if m.Err? {
      return Batch([], Some(m.msg));
    }
    ghost var entries := ListingsSpec(listingHeader, listings, commodities.value).value;
    var factions := BuildFactions(factionHeader, factionRows);
    if factions.Err? {
      return Batch([], Some(factions.msg));
    }
    ghost var f := StationRows(factions.value, entries, encode);
    var inserted: seq<StationRecord> := [];
    var i := 0;
    while i < |stations|
      invariant 0 <= i <= |stations|
      invariant Collect(stations[..i], f) == Batch(inserted, None)
    {
      CollectNext(stations, f, i);
      var record := ImportStation(stations[i], factions.value, m.value, entries, encode);
      if record.Err? {
        AbortedStaysAborted(stations, f, i + 1);
        return Batch(inserted, Some(record.msg));
      }
      inserted := inserted + [record.value.value];
      i := i + 1;
    }
    assert stations[..i] == stations;
    return Batch(inserted, None);
  }

  /** A station whose encoding is an object with members gets its listings as one more
   *  member, a JSON array of its entries in file order; a station without listings is
   *  stored as encoded. */
  lemma StationDocument(station: Doc, factions: map<int, string>, entries: map<string, seq<string>>,
                        encode: Doc -> string, r: StationRecord, ms: seq<Member>)
    requires StationRecordOf(Ok(station), factions, entries, encode) == Ok(Some(r))
    requires encode(RewriteSpec(station, factions).value) == RenderObject(ms) && ms != []
    ensures Itoa(r.id) in entries ==>
      r.data == RenderObject(ms + [Member("commodities", "[" + JoinEntries(entries[Itoa(r.id)]) + "]")])
    ensures Itoa(r.id) !in entries ==> r.data == RenderObject(ms)
  {
    if Itoa(r.id) in entries {
      SpliceRendered(ms, Member("commodities", OpenArray(entries[Itoa(r.id)]) + "]"));
    }
  }
}
