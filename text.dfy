/** The string operations the listener and the importers use: ASCII lower-casing,
 *  `strings.Replace` (all occurrences of one character, or the first occurrence of a
 *  word), `strings.HasPrefix`/`HasSuffix`, `strconv.Itoa`/`Atoi`, and the hand-written
 *  JSON text the importers and the insert helpers produce. */
module Text {
  import opened Wrappers

  // ----- Characters -----

  /** `strings.ToLower` on one character; only ASCII letters are modelled. */
  function Lower(c: char): char
  {
    if 'A' <= c <= 'Z' then (c as int + 32) as char else c
  }

  function LowerAll(s: string): string
  {
    seq(|s|, i requires 0 <= i < |s| => Lower(s[i]))
  }

  predicate IsLowerCase(s: string)
  {
    forall i :: 0 <= i < |s| ==> !('A' <= s[i] <= 'Z')
  }

  /** Lower-casing leaves no capital letter and changes nothing that has none. */
  lemma LowerAllProperties(s: string)
    ensures IsLowerCase(LowerAll(s))
    ensures IsLowerCase(s) ==> LowerAll(s) == s
    ensures LowerAll(LowerAll(s)) == LowerAll(s)
  {
  }

  /** `strings.Replace(s, c, "", -1)` for a one-character pattern: every `c` is dropped
   *  and every other character is kept, in order. */
  function Remove(s: string, c: char): (r: string)
    ensures c !in r
    ensures multiset(r) == multiset(s)[c := 0]
    ensures |r| <= |s|
    decreases |s|
  {
    if s == [] then []
    else
      assert s == [s[0]] + s[1..];
      if s[0] == c then Remove(s[1..], c) else [s[0]] + Remove(s[1..], c)
  }

  /** Removing a character that does not occur changes nothing. */
  lemma {:induction false} RemoveAbsent(s: string, c: char)
    requires c !in s
    ensures Remove(s, c) == s
    decreases |s|
  {
    if s != [] {
      RemoveAbsent(s[1..], c);
    }
  }

  /** Removal distributes over concatenation. */
  lemma {:induction false} RemoveAppend(a: string, b: string, c: char)
    ensures Remove(a + b, c) == Remove(a, c) + Remove(b, c)
    decreases |a|
  {
    if a == [] {
      assert a + b == b;
    } else {
      assert (a + b)[0] == a[0];
      assert (a + b)[1..] == a[1..] + b;
      RemoveAppend(a[1..], b, c);
    }
  }

  /** Removal adds no character. */
  lemma RemoveKeepsAbsent(s: string, c: char, d: char)
    requires d !in s
    ensures d !in Remove(s, c)
  {
    assert multiset(Remove(s, c))[d] == 0;
  }

  /** Removal keeps the case of what it keeps. */
  lemma {:induction false} RemoveKeepsLowerCase(s: string, c: char)
    requires IsLowerCase(s)
    ensures IsLowerCase(Remove(s, c))
    decreases |s|
  {
    if s != [] {
      RemoveKeepsLowerCase(s[1..], c);
    }
  }

  // ----- Words -----

  predicate HasPrefix(s: string, prefix: string)
  {
    prefix <= s
  }

  predicate HasSuffix(s: string, suffix: string)
  {
    |suffix| <= |s| && s[|s| - |suffix|..] == suffix
  }

  predicate OccursAt(s: string, pat: string, i: int)
  {
    0 <= i && i + |pat| <= |s| && s[i..i + |pat|] == pat
  }

  /** `strings.Index`: the first position at which `pat` occurs. */
  function IndexOf(s: string, pat: string): (r: Option<nat>)
    ensures r.Some? ==> OccursAt(s, pat, r.value)
    ensures r.Some? ==> forall j :: 0 <= j < r.value ==> !OccursAt(s, pat, j)
    ensures r.None? ==> forall j :: !OccursAt(s, pat, j)
    decreases |s|
  {
    if |s| < |pat| then None
    else if s[..|pat|] == pat then Some(0)
    else match IndexOf(s[1..], pat)
      case None =>
        assert forall j :: OccursAt(s, pat, j) ==> j == 0 || OccursAt(s[1..], pat, j - 1);
        None
      case Some(i) =>
        assert forall j :: 1 <= j ==> OccursAt(s, pat, j) == OccursAt(s[1..], pat, j - 1);
        Some(i + 1)
  }

  /** `strings.Replace(s, pat, "", 1)`: the first occurrence of `pat` is cut out; `s` is
   *  returned unchanged when `pat` does not occur. */
  function ReplaceFirst(s: string, pat: string): string
  {
    match IndexOf(s, pat)
    case None => s
    case Some(i) => s[..i] + s[i + |pat|..]
  }

  /** Where the first occurrence of `pat` in `a + pat + b` is the one after `a`, cutting
   *  it out leaves `a + b`. */
  lemma ReplaceFirstAt(a: string, pat: string, b: string)
    requires forall j :: 0 <= j < |a| ==> !OccursAt(a + pat + b, pat, j)
    ensures ReplaceFirst(a + pat + b, pat) == a + b
  {
    var s := a + pat + b;
    assert OccursAt(s, pat, |a|) by {
      assert s[|a|..|a| + |pat|] == pat;
    }
    var r := IndexOf(s, pat);
    assert r == Some(|a|);
    assert s[..|a|] == a;
    assert s[|a| + |pat|..] == b;
  }

  /** A pattern that starts with a character absent from `a` cannot start inside `a`. */
  lemma NoEarlyOccurrence(a: string, pat: string, b: string)
    requires |pat| > 0 && pat[0] !in a
    ensures forall j :: 0 <= j < |a| ==> !OccursAt(a + pat + b, pat, j)
  {
    var s := a + pat + b;
    forall j | 0 <= j < |a|
      ensures !OccursAt(s, pat, j)
    {
      assert s[j] == a[j] != pat[0];
      assert j + |pat| <= |s| ==> s[j..j + |pat|][0] == s[j];
    }
  }

  // ----- Decimal integers -----

  predicate IsDigit(c: char)
  {
    '0' <= c <= '9'
  }

  predicate AllDigits(s: string)
  {
    forall i :: 0 <= i < |s| ==> IsDigit(s[i])
  }

  function DigitChar(d: int): char
    requires 0 <= d < 10
  {
    ('0' as int + d) as char
  }

  /** The value of a string of decimal digits. */
  function DigitsValue(s: string): nat
    requires AllDigits(s)
    decreases |s|
  {
    if s == [] then 0
    else DigitsValue(s[..|s| - 1]) * 10 + (s[|s| - 1] as int - '0' as int)
  }

  /** The shortest decimal digits of a natural number. */
  function NatToString(n: nat): (r: string)
    ensures |r| > 0 && AllDigits(r)
    ensures DigitsValue(r) == n
    ensures n != 0 ==> r[0] != '0'
    decreases n
  {
    if n < 10 then [DigitChar(n)]
    else
      var r := NatToString(n / 10) + [DigitChar(n % 10)];
      assert r[..|r| - 1] == NatToString(n / 10);
      r
  }

  /** `strconv.Itoa`. */
  function Itoa(i: int): string
  {
    if i < 0 then "-" + NatToString(-i) else NatToString(i)
  }

  /** `strconv.Atoi` on base-10 text: an optional sign and at least one digit. Values that
   *  overflow 64 bits are not modelled. */
  function Atoi(s: string): Option<int>
  {
    if |s| > 0 && (s[0] == '+' || s[0] == '-') then
      if |s| > 1 && AllDigits(s[1..]) then
        var v: int := DigitsValue(s[1..]);
        Some(if s[0] == '-' then -v else v)
      else None
    else if |s| > 0 && AllDigits(s) then Some(DigitsValue(s))
    else None
  }

  /** `strconv.Atoi` with its error ignored: malformed text reads as 0. */
  function AtoiOrZero(s: string): int
  {
    match Atoi(s)
    case None => 0
    case Some(v) => v
  }

  /** `Atoi` reads back what `Itoa` writes. */
  lemma AtoiOfItoa(i: int)
    ensures Atoi(Itoa(i)) == Some(i)
  {
    if i < 0 {
      assert Itoa(i)[1..] == NatToString(-i);
    }
  }

  /** `Itoa` is injective, so distinct ids have distinct texts. */
  lemma ItoaInjective(i: int, j: int)
    requires Itoa(i) == Itoa(j)
    ensures i == j
  {
    AtoiOfItoa(i);
    AtoiOfItoa(j);
  }

  // ----- Hand-written JSON text -----

  /** One object member as `"key":text`, `text` being JSON text already. */
  datatype Member = Member(key: string, text: string)

  /** A JSON string literal; the source writes names between quotes without escaping. */
  function Quote(s: string): string
  {
    "\"" + s + "\""
  }

  function MemberText(m: Member): string
  {
    Quote(m.key) + ":" + m.text
  }

  /** The members separated by commas. */
  function JoinMembers(ms: seq<Member>): string
    decreases |ms|
  {
    if ms == [] then ""
    else if |ms| == 1 then MemberText(ms[0])
    else JoinMembers(ms[..|ms| - 1]) + "," + MemberText(ms[|ms| - 1])
  }

  /** Appending a member to a non-empty list writes a comma and the member. */
  lemma JoinAppend(ms: seq<Member>, m: Member)
    requires ms != []
    ensures JoinMembers(ms + [m]) == JoinMembers(ms) + "," + MemberText(m)
  {
    assert (ms + [m])[..|ms|] == ms;
  }

  /** The members of a non-empty prefix are written first. */
  lemma {:induction false} JoinPrefix(ms: seq<Member>, n: nat)
    requires 1 <= n <= |ms|
    ensures JoinMembers(ms[..n]) <= JoinMembers(ms)
    decreases |ms|
  {
    if n < |ms| {
      var init := ms[..|ms| - 1];
      assert init[..n] == ms[..n];
      JoinPrefix(init, n);
    } else {
      assert ms[..n] == ms;
    }
  }

  /** The text of a JSON object with the given members, in order. */
  function RenderObject(ms: seq<Member>): string
  {
    "{" + JoinMembers(ms) + "}"
  }

  /** The splice of `InsertSystem`/`InsertBody` and of the station importer: the closing
   *  brace of an encoded object is replaced by `,"key":text}`. */
  function SpliceMember(doc: string, key: string, text: string): (r: string)
    requires |doc| > 0
    ensures |r| == |doc| + |key| + |text| + 4
    ensures r[..|doc| - 1] == doc[..|doc| - 1]
    ensures r[|doc| - 1..|r| - 1] == ",\"" + key + "\":" + text
    ensures r[|r| - 1] == '}'
  {
    doc[..|doc| - 1] + ",\"" + key + "\":" + text + "}"
  }

  lemma SplicePieces(pre: string, key: string, text: string)
    ensures pre + ",\"" + key + "\":" + text + "}" == pre + ("," + MemberText(Member(key, text))) + "}"
  {
  }

  /** Splicing a member into a rendered object with at least one member renders the
   *  object with that member appended. */
  lemma SpliceRendered(ms: seq<Member>, m: Member)
    requires ms != []
    ensures SpliceMember(RenderObject(ms), m.key, m.text) == RenderObject(ms + [m])
  {
    var doc := RenderObject(ms);
    var j := JoinMembers(ms);
    assert doc[..|doc| - 1] == "{" + j;
    assert (ms + [m])[..|ms|] == ms;
    assert JoinMembers(ms + [m]) == j + "," + MemberText(m);
    calc {
      SpliceMember(doc, m.key, m.text);
      ("{" + j) + ",\"" + m.key + "\":" + m.text + "}";
      { SplicePieces("{" + j, m.key, m.text); }
      ("{" + j) + ("," + MemberText(m)) + "}";
      "{" + (j + "," + MemberText(m)) + "}";
    }
  }
}
