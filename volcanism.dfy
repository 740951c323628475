/** The volcanism of a body scan (eddnlistener/eddnlistener.go:832-855): the journal's
 *  wording, such as `major rocky magma volcanism`, is taken apart into a kind
 *  (`Geysers` or `Magma`), an amount (`Major` or `Minor`) and a composition, the last
 *  through the volcanism table. */
module Volcanism {
  import opened Wrappers
  import opened Text
  import opened Translate
  import opened Tables

  /** The stored volcanism: `type`, `amount` (each only when recognised) and
   *  `composition`. */
  datatype VolcanismParts = VolcanismParts(kind: Option<string>, amount: Option<string>, composition: string)

  /** The `geysers` or `magma` ending, removed. */
  function SplitKind(v: string): (Option<string>, string)
  {
    if HasSuffix(v, " geysers") then (Some("Geysers"), ReplaceFirst(v, " geysers"))
    else if HasSuffix(v, " magma") then (Some("Magma"), ReplaceFirst(v, " magma"))
    else (None, v)
  }

  /** The `major` or `minor` beginning, removed. */
  function SplitAmount(v: string): (Option<string>, string)
  {
    if HasPrefix(v, "major") then (Some("Major"), ReplaceFirst(v, "major "))
    else if HasPrefix(v, "minor") then (Some("Minor"), ReplaceFirst(v, "minor "))
    else (None, v)
  }

  /** The three `strings.Replace(…, 1)` steps: ` volcanism` is cut, then the kind at the
   *  end, then the amount at the start. Each cut removes the first occurrence, wherever
   *  it is, although only an ending or a beginning was tested for. */
  function DecomposeVolcanism(s: string): VolcanismParts
  {
    var (kind, v) := SplitKind(ReplaceFirst(s, " volcanism"));
    var (amount, v') := SplitAmount(v);
    VolcanismParts(kind, amount, TranslateVolcanism(v'))
  }

  /** A single word that none of the marker words begins. */
  predicate PlainWord(k: string)
  {
    && k != [] && ' ' !in k
    && !HasPrefix(k, "volcanism") && !HasPrefix(k, "magma") && !HasPrefix(k, "geysers")
    && !HasPrefix(k, "major") && !HasPrefix(k, "minor")
  }

  datatype Amount = Major | Minor
  datatype Kind = Geysers | Magma

  function AmountText(a: Option<Amount>): string
  {
    match a
    case None => ""
    case Some(Major) => "major "
    case Some(Minor) => "minor "
  }

  function KindText(t: Option<Kind>): string
  {
    match t
    case None => ""
    case Some(Geysers) => " geysers"
    case Some(Magma) => " magma"
  }

  function AmountName(a: Option<Amount>): Option<string>
  {
    match a
    case None => None
    case Some(Major) => Some("Major")
    case Some(Minor) => Some("Minor")
  }

  function KindName(t: Option<Kind>): Option<string>
  {
    match t
    case None => None
    case Some(Geysers) => Some("Geysers")
    case Some(Magma) => Some("Magma")
  }

  /** The journal's wording of a volcanism. */
  function VolcanismText(a: Option<Amount>, k: string, t: Option<Kind>): string
  {
    AmountText(a) + k + KindText(t) + " volcanism"
  }

  lemma WordNotAt(k: string, rest: string, w: string)
    requires !HasPrefix(k, w) && ' ' !in w && rest != [] && rest[0] == ' '
    ensures !HasPrefix(k + rest, w)
  {
    if |k| >= |w| {
      assert (k + rest)[..|w|] == k[..|w|];
    } else if |k + rest| >= |w| {
      assert (k + rest)[..|w|][|k|] == ' ';
      assert w[|k|] in w;
    }
  }

  /** A pattern led by a space does not occur where the text has no space, nor where
   *  what follows the space does not start with the pattern's rest. */
  lemma NotSpaceLed(s: string, pat: string, j: int)
    requires |pat| > 0 && pat[0] == ' ' && 0 <= j < |s|
    requires s[j] != ' ' || !HasPrefix(s[j + 1..], pat[1..])
    ensures !OccursAt(s, pat, j)
  {
    if j + |pat| <= |s| {
      assert s[j..j + |pat|][0] == s[j];
      assert s[j + 1..][..|pat| - 1] == s[j..j + |pat|][1..];
    }
  }

  /** The `volcanism` cut cannot start before the word's end: the amount's space is
   *  followed by the word, and the kind's space by the kind. */
  lemma NotVolcanismAt(a: Option<Amount>, k: string, t: Option<Kind>, j: int)
    requires PlainWord(k) && 0 <= j < |AmountText(a) + k + KindText(t)|
    ensures !OccursAt(VolcanismText(a, k, t), " volcanism", j)
  {
    if j < |AmountText(a)| {
      NotVolcanismInAmount(a, k, t, j);
    } else if j < |AmountText(a)| + |k| {
      NotVolcanismInWord(a, k, t, j);
    } else {
      NotVolcanismInKind(a, k, t, j);
    }
  }

  lemma NotVolcanismInAmount(a: Option<Amount>, k: string, t: Option<Kind>, j: int)
    requires PlainWord(k) && 0 <= j < |AmountText(a)|
    ensures !OccursAt(VolcanismText(a, k, t), " volcanism", j)
  {
    assert " volcanism"[1..] == "volcanism";
    AmountSpace(a, k, KindText(t) + " volcanism", j);
    WordNotAt(k, KindText(t) + " volcanism", "volcanism");
    NotSpaceLed(VolcanismText(a, k, t), " volcanism", j);
  }

  lemma NotVolcanismInWord(a: Option<Amount>, k: string, t: Option<Kind>, j: int)
    requires PlainWord(k) && |AmountText(a)| <= j < |AmountText(a)| + |k|
    ensures !OccursAt(VolcanismText(a, k, t), " volcanism", j)
  {
    var s := VolcanismText(a, k, t);
    assert s[j] == k[j - |AmountText(a)|];
    NotSpaceLed(s, " volcanism", j);
  }

  lemma NotVolcanismInKind(a: Option<Amount>, k: string, t: Option<Kind>, j: int)
    requires PlainWord(k) && |AmountText(a)| + |k| <= j < |AmountText(a) + k + KindText(t)|
    ensures !OccursAt(VolcanismText(a, k, t), " volcanism", j)
  {
    var s := VolcanismText(a, k, t);
    assert " volcanism"[1..] == "volcanism";
    KindSpace(AmountText(a) + k, t, " volcanism", j);
    assert j + 1 < |s| ==> s[j + 1..][0] == s[j + 1];
    NotSpaceLed(s, " volcanism", j);
  }

  /** The only space of an amount is its last character, followed by the word. */
  lemma AmountSpace(a: Option<Amount>, k: string, rest: string, j: int)
    requires 0 <= j < |AmountText(a)|
    ensures (AmountText(a) + k + rest)[j] == ' ' ==> (AmountText(a) + k + rest)[j + 1..] == k + rest
  {
    assert (AmountText(a) + k + rest)[j] == AmountText(a)[j];
  }

  /** The only space of a kind is its first character, followed by the kind's letter. */
  lemma KindSpace(pre: string, t: Option<Kind>, rest: string, j: int)
    requires |pre| <= j < |pre| + |KindText(t)|
    ensures (pre + KindText(t) + rest)[j] == ' ' ==>
      j == |pre| && (pre + KindText(t) + rest)[j + 1] in {'g', 'm'}
  {
    assert (pre + KindText(t) + rest)[j] == KindText(t)[j - |pre|];
    if t.Some? {
      assert (pre + KindText(t) + rest)[|pre| + 1] == KindText(t)[1];
    }
  }

  lemma CutVolcanism(a: Option<Amount>, k: string, t: Option<Kind>)
    requires PlainWord(k)
    ensures ReplaceFirst(VolcanismText(a, k, t), " volcanism") == AmountText(a) + k + KindText(t)
  {
    var pre := AmountText(a) + k + KindText(t);
    forall j | 0 <= j < |pre|
      ensures !OccursAt(pre + " volcanism" + "", " volcanism", j)
    {
      assert pre + " volcanism" + "" == VolcanismText(a, k, t);
      NotVolcanismAt(a, k, t, j);
    }
    ReplaceFirstAt(pre, " volcanism", "");
    assert pre + " volcanism" + "" == VolcanismText(a, k, t);
  }

  /** A plain word after an amount ends with neither kind. */
  lemma NoKindEnding(a: Option<Amount>, k: string, w: string)
    requires PlainWord(k) && (w == "geysers" || w == "magma")
    ensures !HasSuffix(AmountText(a) + k, " " + w)
  {
    var v := AmountText(a) + k;
    if |v| >= |w| + 1 {
      var p := |v| - |w| - 1;
      assert v[p..][0] == v[p];
      if p < |AmountText(a)| {
        AmountSpace(a, k, "", p);
        assert v[p..][1..] == v[p + 1..];
        assert HasPrefix(w, w) by { assert w[..|w|] == w; }
      } else {
        assert v[p] == k[p - |AmountText(a)|];
      }
    }
  }

  /** Cutting a kind `" " + w` from `A + k + " " + w`: the amount's space is followed
   *  by the word, which does not start with `w`. */
  lemma CutKind(a: Option<Amount>, k: string, w: string)
    requires PlainWord(k) && (w == "geysers" || w == "magma")
    ensures ReplaceFirst(AmountText(a) + k + (" " + w), " " + w) == AmountText(a) + k
  {
    var pre := AmountText(a) + k;
    var pat := " " + w;
    assert pat[1..] == w;
    forall j | 0 <= j < |pre|
      ensures !OccursAt(pre + pat + "", pat, j)
    {
      var s := pre + pat + "";
      if j < |AmountText(a)| {
        AmountSpace(a, k, pat, j);
        assert s == AmountText(a) + k + pat;
        WordNotAt(k, pat, w);
      } else {
        assert s[j] == k[j - |AmountText(a)|];
      }
      NotSpaceLed(s, pat, j);
    }
    ReplaceFirstAt(pre, pat, "");
    assert pre + pat + "" == pre + pat;
  }

  lemma SplitKindOf(a: Option<Amount>, k: string, t: Option<Kind>)
    requires PlainWord(k)
    ensures SplitKind(AmountText(a) + k + KindText(t)) == (KindName(t), AmountText(a) + k)
  {
    match t
    case None =>
      assert AmountText(a) + k + KindText(t) == AmountText(a) + k;
      SplitKindNone(a, k);
    case Some(Geysers) => SplitKindGeysers(a, k);
    case Some(Magma) => SplitKindMagma(a, k);
  }

  lemma SplitKindNone(a: Option<Amount>, k: string)
    requires PlainWord(k)
    ensures SplitKind(AmountText(a) + k) == (None, AmountText(a) + k)
  {
    NoKindEnding(a, k, "geysers");
    NoKindEnding(a, k, "magma");
    assert " " + "geysers" == " geysers" && " " + "magma" == " magma";
  }

  lemma SplitKindGeysers(a: Option<Amount>, k: string)
    requires PlainWord(k)
    ensures SplitKind(AmountText(a) + k + " geysers") == (Some("Geysers"), AmountText(a) + k)
  {
    SplitGeysers(AmountText(a) + k);
    assert " " + "geysers" == " geysers";
    CutKind(a, k, "geysers");
  }

  lemma SplitKindMagma(a: Option<Amount>, k: string)
    requires PlainWord(k)
    ensures SplitKind(AmountText(a) + k + " magma") == (Some("Magma"), AmountText(a) + k)
  {
    SplitMagma(AmountText(a) + k);
    assert " " + "magma" == " magma";
    CutKind(a, k, "magma");
  }

  lemma SplitGeysers(v: string)
    ensures HasSuffix(v + " geysers", " geysers")
  {
    assert (v + " geysers")[|v|..] == " geysers";
  }

  lemma SplitMagma(v: string)
    ensures !HasSuffix(v + " magma", " geysers") && HasSuffix(v + " magma", " magma")
  {
    assert (v + " magma")[|v|..] == " magma";
    assert (v + " magma")[|v| + 5] == 'a';
  }

  lemma SplitAmountOf(a: Option<Amount>, k: string)
    requires PlainWord(k)
    ensures SplitAmount(AmountText(a) + k) == (AmountName(a), k)
  {
    match a
    case None =>
      assert AmountText(a) + k == k;
    case Some(Major) =>
      assert ("major " + k)[..5] == "major";
      assert HasPrefix("major " + k, "major");
      ReplaceFirstAt("", "major ", k);
      assert "" + "major " + k == "major " + k && "" + k == k;
    case Some(Minor) =>
      assert ("minor " + k)[1] == 'i';
      assert !HasPrefix("minor " + k, "major");
      assert HasPrefix("minor " + k, "minor");
      ReplaceFirstAt("", "minor ", k);
      assert "" + "minor " + k == "minor " + k && "" + k == k;
  }

  /** Decomposition inverts the journal's wording: the amount, the kind and the word
   *  come back apart, the word through the volcanism table. */
  lemma DecomposeVolcanismText(a: Option<Amount>, k: string, t: Option<Kind>)
    requires PlainWord(k)
    ensures DecomposeVolcanism(VolcanismText(a, k, t)) ==
      VolcanismParts(KindName(t), AmountName(a), TranslateVolcanism(k))
  {
    CutVolcanism(a, k, t);
    SplitKindOf(a, k, t);
    SplitAmountOf(a, k);
  }

  /** The stored volcanism object. */
  function VolcanismDoc(p: VolcanismParts): map<string, string>
  {
    var typed := if p.kind.Some? then map["type" := p.kind.value] else map[];
    var sized := if p.amount.Some? then typed["amount" := p.amount.value] else typed;
    sized["composition" := p.composition]
  }

  /** `major rocky magma volcanism` is a major magma volcanism of silicate. */
  lemma MajorRockyMagmaExample()
    ensures DecomposeVolcanism("major rocky magma volcanism") ==
      VolcanismParts(Some("Magma"), Some("Major"), "Silicate")
  {
    RockyWording();
    RockyIsPlain();
    RockyIsSilicate();
    DecomposeVolcanismText(Some(Major), "rocky", Some(Magma));
  }

  lemma RockyIsSilicate()
    ensures TranslateVolcanism("rocky") == "Silicate"
  {
    RockyEntry();
    LookupReachesEveryEntry(Volcanisms, "rocky", false);
  }

  /** `rocky` is a normalised key of the volcanism table, named `Silicate`. */
  lemma RockyEntry()
    ensures IsKey("rocky", false)
    ensures "rocky" in Volcanisms && Volcanisms["rocky"] == "Silicate"
  {
  }

  lemma RockyWording()
    ensures VolcanismText(Some(Major), "rocky", Some(Magma)) == "major rocky magma volcanism"
  {
  }

  lemma RockyIsPlain()
    ensures PlainWord("rocky")
  {
    assert "rocky"[0] == 'r';
  }
}
