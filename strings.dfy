/** The handful of Python `str` operations the answering pipeline and its tools rely on:
    `in` (substring test), `upper`/`lower`/`capitalize`, `strip`, `split`, `"sep".join` and `str(n)` for a
    natural number. Characters are Unicode code points; case mapping is ASCII only. */
module PyStr {
  import opened Wrappers

  // ---------------------------------------------------------------------------
  // Substring containment: Python's `t in s`

  /** `t` occurs in `s` starting at index `i`. */
  predicate OccursAt(s: string, t: string, i: int) {
    0 <= i && i + |t| <= |s| && s[i..i + |t|] == t
  }

  predicate Contains(s: string, t: string) {
    exists i | 0 <= i <= |s| :: OccursAt(s, t, i)
  }

  /** The first occurrence of `t` in `s` at or after index `i`. */
  function FindFrom(s: string, t: string, i: nat): (r: Option<nat>)
    requires i <= |s|
    ensures r.Some? ==> i <= r.value && OccursAt(s, t, r.value)
    ensures r.Some? ==> forall k :: i <= k < r.value ==> !OccursAt(s, t, k)
    ensures r.None? ==> forall k :: i <= k ==> !OccursAt(s, t, k)
    decreases |s| - i
  {
    if i + |t| > |s| then None
    else if s[i..i + |t|] == t then Some(i)
    else if i == |s| then None
    else FindFrom(s, t, i + 1)
  }

  /** The index of the first occurrence of `t` in `s` (Python's `str.find`, with None for -1). */
  function Find(s: string, t: string): (r: Option<nat>)
    ensures r.Some? ==> OccursAt(s, t, r.value)
    ensures r.Some? ==> forall k :: 0 <= k < r.value ==> !OccursAt(s, t, k)
    ensures r.None? <==> !Contains(s, t)
  {
    FindFrom(s, t, 0)
  }

  lemma ContainsAt(s: string, t: string, i: int)
    requires OccursAt(s, t, i)
    ensures Contains(s, t)
  {
  }

  /** Containment is transitive: a text holding `u` holds everything `u` holds. */
  lemma {:induction false} ContainsTransitive(s: string, u: string, t: string)
    requires Contains(s, u) && Contains(u, t)
    ensures Contains(s, t)
  {
    var i :| 0 <= i <= |s| && OccursAt(s, u, i);
    var j :| 0 <= j <= |u| && OccursAt(u, t, j);
    assert u == s[i..i + |u|];
    forall k | 0 <= k < |t|
      ensures t[k] == s[i + j + k]
    {
      assert t[k] == u[j + k];
    }
    assert t == s[i + j..i + j + |t|];
    assert OccursAt(s, t, i + j);
  }

  /** A text contains each of its contiguous parts. */
  lemma ContainsSlice(s: string, i: int, j: int)
    requires 0 <= i <= j <= |s|
    ensures Contains(s, s[i..j])
  {
    assert OccursAt(s, s[i..j], i);
  }

  lemma ContainsConcat(a: string, b: string, c: string)
    ensures Contains(a + b + c, b)
  {
    assert (a + b + c)[|a|..|a| + |b|] == b;
    assert OccursAt(a + b + c, b, |a|);
  }

  /** A text none of whose characters is `c` does not contain `c`. */
  lemma WithoutChar(s: string, c: char)
    requires forall k :: 0 <= k < |s| ==> s[k] != c
    ensures !Contains(s, [c])
  {
    forall i | 0 <= i < |s|
      ensures !OccursAt(s, [c], i)
    {
      assert s[i..i + 1] == [s[i]];
    }
  }

  /** A text holds both of the parts it is made of. */
  lemma ContainsParts(a: string, b: string)
    ensures Contains(a + b, a) && Contains(a + b, b)
  {
    assert (a + b)[..|a|] == a;
    assert OccursAt(a + b, a, 0);
    assert (a + b)[|a|..] == b;
    assert OccursAt(a + b, b, |a|);
  }

  /** A text starts with its first part. */
  lemma StartsWith(a: string, b: string)
    ensures a <= a + b
  {
    assert (a + b)[..|a|] == a;
  }

  // ---------------------------------------------------------------------------
  // Case mapping: Python's `str.upper()` and `str.lower()` on ASCII letters

  function UpperChar(c: char): char {
    if 'a' <= c <= 'z' then (c as int - 32) as char else c
  }

  function LowerChar(c: char): char {
    if 'A' <= c <= 'Z' then (c as int + 32) as char else c
  }

  function Upper(s: string): (r: string)
    ensures |r| == |s|
    ensures forall i :: 0 <= i < |s| ==> r[i] == UpperChar(s[i])
  {
    seq(|s|, i requires 0 <= i < |s| => UpperChar(s[i]))
  }

  function Lower(s: string): (r: string)
    ensures |r| == |s|
    ensures forall i :: 0 <= i < |s| ==> r[i] == LowerChar(s[i])
  {
    seq(|s|, i requires 0 <= i < |s| => LowerChar(s[i]))
  }

  /** Upper-casing twice is upper-casing once. */
  lemma UpperIdempotent(s: string)
    ensures Upper(Upper(s)) == Upper(s)
  {
  }

  /** Lower-casing twice is lower-casing once. */
  lemma LowerIdempotent(s: string)
    ensures Lower(Lower(s)) == Lower(s)
  {
  }

  /** A text made of characters that `upper` leaves alone is its own upper-case form. */
  lemma UpperOfUpper(s: string)
    requires forall i :: 0 <= i < |s| ==> UpperChar(s[i]) == s[i]
    ensures Upper(s) == s
  {
  }

  /** `str.capitalize()`: the first character upper-cased and the rest lower-cased. */
  function Capitalize(s: string): (r: string)
    ensures |r| == |s|
    ensures s != [] ==> r[0] == UpperChar(s[0])
    ensures forall i :: 1 <= i < |s| ==> r[i] == LowerChar(s[i])
  {
    if s == [] then [] else [UpperChar(s[0])] + Lower(s[1..])
  }

  /** Capitalising a capitalised text changes nothing. */
  lemma CapitalizeIdempotent(s: string)
    ensures Capitalize(Capitalize(s)) == Capitalize(s)
  {
  }

  // ---------------------------------------------------------------------------
  // Whitespace and `strip()`

  /** Python's `str.isspace()` for one code point. */
  predicate IsSpace(c: char) {
    || c == ' '
    || ('\t' <= c <= '\r')
    || ('\U{1C}' <= c <= '\U{1F}')
    || c == '\U{85}' || c == '\U{A0}' || c == '\U{1680}'
    || ('\U{2000}' <= c <= '\U{200A}')
    || c == '\U{2028}' || c == '\U{2029}' || c == '\U{202F}' || c == '\U{205F}' || c == '\U{3000}'
  }

  predicate AllSpace(s: string) {
    forall i :: 0 <= i < |s| ==> IsSpace(s[i])
  }

  function LStripFrom(s: string, i: nat): (k: nat)
    requires i <= |s|
    ensures i <= k <= |s|
    ensures AllSpace(s[i..k])
    ensures k == |s| || !IsSpace(s[k])
    decreases |s| - i
  {
    if i < |s| && IsSpace(s[i]) then LStripFrom(s, i + 1) else i
  }

  function RStripTo(s: string, j: nat, lo: nat): (k: nat)
    requires lo <= j <= |s|
    ensures lo <= k <= j
    ensures AllSpace(s[k..j])
    ensures k == lo || !IsSpace(s[k - 1])
    decreases j
  {
    if j > lo && IsSpace(s[j - 1]) then
      var k := RStripTo(s, j - 1, lo);
      assert s[k..j] == s[k..j - 1] + [s[j - 1]];
      k
    else j
  }

  /** `s.strip()`: the largest slice of `s` that neither starts nor ends with whitespace, once
      the whitespace on both sides is removed. */
  function Strip(s: string): (r: string)
    ensures r == [] || (!IsSpace(r[0]) && !IsSpace(r[|r| - 1]))
    ensures |r| <= |s|
  {
    var i := LStripFrom(s, 0);
    var j := RStripTo(s, |s|, i);
    s[i..j]
  }

  /** What `strip` removes is whitespace on both sides, and what it keeps is a slice. */
  lemma StripSlice(s: string)
    ensures exists i, j :: 0 <= i <= j <= |s| && Strip(s) == s[i..j] && AllSpace(s[..i]) && AllSpace(s[j..])
  {
    var i := LStripFrom(s, 0);
    var j := RStripTo(s, |s|, i);
    assert s[..i] == s[0..i];
    assert j < |s| ==> s[j..] == s[j..|s|];
    assert Strip(s) == s[i..j];
  }

  lemma StripOfClean(s: string)
    requires s == [] || (!IsSpace(s[0]) && !IsSpace(s[|s| - 1]))
    ensures Strip(s) == s
  {
    var i := LStripFrom(s, 0);
    if s != [] {
      assert !IsSpace(s[0]);
      assert i == 0;
      var j := RStripTo(s, |s|, i);
      assert j == |s|;
    }
  }

  /** Stripping is idempotent. */
  lemma StripIdempotent(s: string)
    ensures Strip(Strip(s)) == Strip(s)
  {
    StripOfClean(Strip(s));
  }

  /** A text strips to nothing exactly when it is all whitespace. */
  lemma StripEmptyIffAllSpace(s: string)
    ensures Strip(s) == [] <==> AllSpace(s)
  {
    var i := LStripFrom(s, 0);
    var j := RStripTo(s, |s|, i);
    if !AllSpace(s) {
      var c :| 0 <= c < |s| && !IsSpace(s[c]);

    }
  }

  // ---------------------------------------------------------------------------
  // `sep.join(parts)` and `s.split(sep)`

  function Join(sep: string, parts: seq<string>): string
    decreases |parts|
  {
    if parts == [] then ""
    else if |parts| == 1 then parts[0]
    else parts[0] + sep + Join(sep, parts[1..])
  }

  lemma JoinCons(sep: string, head: string, tail: seq<string>)
    requires tail != []
    ensures Join(sep, [head] + tail) == head + sep + Join(sep, tail)
  {
    assert ([head] + tail)[1..] == tail;
  }

  /** Appending a part adds one separator and the part at the end. */
  lemma {:induction false} JoinSnoc(sep: string, parts: seq<string>, last: string)
    requires parts != []
    ensures Join(sep, parts + [last]) == Join(sep, parts) + sep + last
    decreases |parts|
  {
    if |parts| == 1 {
      assert parts + [last] == [parts[0]] + [last];
    } else {
      assert (parts + [last])[1..] == parts[1..] + [last];
      JoinSnoc(sep, parts[1..], last);
    }
  }

  /** The joined text contains every part. */
  lemma {:induction false} JoinContainsPart(sep: string, parts: seq<string>, k: nat)
    requires k < |parts|
    ensures Contains(Join(sep, parts), parts[k])
    decreases |parts|
  {
    if |parts| == 1 {
      ContainsConcat("", parts[0], "");
      assert "" + parts[0] + "" == parts[0];
    } else if k == 0 {
      ContainsConcat("", parts[0], sep + Join(sep, parts[1..]));
      assert "" + parts[0] + (sep + Join(sep, parts[1..])) == Join(sep, parts);
    } else {
      JoinContainsPart(sep, parts[1..], k - 1);
      ContainsConcat(parts[0] + sep, Join(sep, parts[1..]), "");
      assert parts[0] + sep + Join(sep, parts[1..]) + "" == Join(sep, parts);
      ContainsTransitive(Join(sep, parts), Join(sep, parts[1..]), parts[k]);
    }
  }

  /** `s.split(sep)` for a non-empty separator: cut at every non-overlapping occurrence of
      `sep`, scanning left to right. */
  function Split(s: string, sep: string): (parts: seq<string>)
    requires |sep| > 0
    ensures |parts| >= 1
    decreases |s|
  {
    match Find(s, sep)
    case None => [s]
    case Some(i) => [s[..i]] + Split(s[i + |sep|..], sep)
  }

  /** Joining the pieces of a split with the same separator gives back the text. */
  lemma {:induction false} JoinSplit(s: string, sep: string)
    requires |sep| > 0
    ensures Join(sep, Split(s, sep)) == s
    decreases |s|
  {
    var f := Find(s, sep);
    if f.Some? {
      var i := f.value;
      var head, rest := s[..i], s[i + |sep|..];
      assert Split(s, sep) == [head] + Split(rest, sep);
      JoinSplit(rest, sep);
      JoinCons(sep, head, Split(rest, sep));
      assert s[i..i + |sep|] == sep;
      assert s == head + sep + rest;
    } else {
      assert Split(s, sep) == [s];
    }
  }

  /** A split produces a second piece exactly when the separator occurs. */
  lemma SplitHasSecondPiece(s: string, sep: string)
    requires |sep| > 0
    ensures |Split(s, sep)| >= 2 <==> Contains(s, sep)
  {
  }

  /** The second piece of a split is the text between the first and the second occurrence of
      the separator (or the end of the text). */
  lemma SecondPiece(s: string, sep: string)
    requires |sep| > 0 && Contains(s, sep)
    ensures var i := Find(s, sep).value;
            var rest := s[i + |sep|..];
            Split(s, sep)[1] == match Find(rest, sep) case None => rest case Some(j) => rest[..j]
  {
  }

  /** No piece of a split contains the separator. */
  lemma {:induction false} SplitPiecesAvoidSeparator(s: string, sep: string)
    requires |sep| > 0
    ensures forall k :: 0 <= k < |Split(s, sep)| ==> !Contains(Split(s, sep)[k], sep)
    decreases |s|
  {
    match Find(s, sep)
    case None =>
      assert Split(s, sep) == [s];
    case Some(i) =>
      var rest := s[i + |sep|..];
      SplitPiecesAvoidSeparator(rest, sep);
      var head := s[..i];
      BeforeFirstOccurrence(s, sep);
      var parts := Split(s, sep);
      assert parts == [head] + Split(rest, sep);
      forall k | 0 <= k < |parts|
        ensures !Contains(parts[k], sep)
      {
        if k > 0 {
          assert parts[k] == Split(rest, sep)[k - 1];
        }
      }
  }

  /** `s.split(sep, 1)` when `sep` occurs: the text before and after the first occurrence. */
  function SplitOnce(s: string, sep: string): (r: (string, string))
    requires |sep| > 0 && Contains(s, sep)
    ensures r.0 + sep + r.1 == s
    ensures !Contains(r.0, sep)
  {
    var i := Find(s, sep).value;
    assert s == s[..i] + s[i..i + |sep|] + s[i + |sep|..];
    BeforeFirstOccurrence(s, sep);
    (s[..i], s[i + |sep|..])
  }

  /** The text before the first occurrence of `sep` does not contain `sep`. */
  lemma BeforeFirstOccurrence(s: string, sep: string)
    requires |sep| > 0 && Contains(s, sep)
    ensures !Contains(s[..Find(s, sep).value], sep)
  {
    var i := Find(s, sep).value;
    if Contains(s[..i], sep) {
      var k :| 0 <= k <= i && OccursAt(s[..i], sep, k);
      assert s[..i][k..k + |sep|] == s[k..k + |sep|];
      assert OccursAt(s, sep, k);
    }
  }

  /** `(a + sep + b).split(sep, 1)` for a one-character separator that `a` does not hold gives
      back `a` and `b`, whatever separators `b` holds. */
  lemma SplitOnceAt(a: string, sep: string, b: string)
    requires |sep| == 1 && !Contains(a, sep)
    ensures Contains(a + sep + b, sep)
    ensures SplitOnce(a + sep + b, sep) == (a, b)
  {
    var s := a + sep + b;
    assert s[|a|..|a| + 1] == sep;
    assert OccursAt(s, sep, |a|);
    forall k | 0 <= k < |a|
      ensures !OccursAt(s, sep, k)
    {
      assert !OccursAt(a, sep, k);
      assert s[k..k + 1] == a[k..k + 1];
    }
    assert Find(s, sep) == Some(|a|);
    assert s[..|a|] == a;
    assert s[|a| + 1..] == b;
  }

  // ---------------------------------------------------------------------------
  // Lines of an LLM reply: `[q.strip() for q in s.strip().split("\n") if q.strip()]`

  function StrippedNonBlank(parts: seq<string>): (r: seq<string>)
    ensures |r| <= |parts|
    decreases |parts|
  {
    if parts == [] then []
    else (if Strip(parts[0]) != "" then [Strip(parts[0])] else []) + StrippedNonBlank(parts[1..])
  }

  function NonBlankLines(s: string): seq<string> {
    StrippedNonBlank(Split(Strip(s), "\n"))
  }

  /** Every line kept is non-blank, already stripped and free of line breaks. */
  lemma {:induction false} StrippedNonBlankClean(parts: seq<string>)
    requires forall k :: 0 <= k < |parts| ==> !Contains(parts[k], "\n")
    ensures forall k :: 0 <= k < |StrippedNonBlank(parts)| ==>
              var line := StrippedNonBlank(parts)[k];
              line != "" && Strip(line) == line && !Contains(line, "\n")
    decreases |parts|
  {
    if parts != [] {
      StrippedNonBlankClean(parts[1..]);
      StripIdempotent(parts[0]);
      var p := parts[0];
      var line := Strip(p);
      if Contains(line, "\n") {
        StripSlice(p);
        var i, j :| 0 <= i <= j <= |p| && line == p[i..j] && AllSpace(p[..i]) && AllSpace(p[j..]);
        ContainsSlice(p, i, j);
        ContainsTransitive(p, line, "\n");
      }
    }
  }

  lemma NonBlankLinesClean(s: string)
    ensures forall k :: 0 <= k < |NonBlankLines(s)| ==>
              var line := NonBlankLines(s)[k];
              line != "" && Strip(line) == line && !Contains(line, "\n")
  {
    SplitPiecesAvoidSeparator(Strip(s), "\n");
    StrippedNonBlankClean(Split(Strip(s), "\n"));
  }

  lemma {:induction false} StrippedNonBlankEmpty(parts: seq<string>)
    requires StrippedNonBlank(parts) == []
    ensures AllSpace(Join("\n", parts))
    decreases |parts|
  {
    if parts != [] {
      StripEmptyIffAllSpace(parts[0]);
      assert StrippedNonBlank(parts[1..]) == [];
      StrippedNonBlankEmpty(parts[1..]);
      if |parts| > 1 {
        var j := Join("\n", parts[1..]);
        assert Join("\n", parts) == parts[0] + "\n" + j;
        assert forall i :: 0 <= i < |parts[0] + "\n" + j| ==>
          (parts[0] + "\n" + j)[i] == (if i < |parts[0]| then parts[0][i]
                                         else if i == |parts[0]| then '\n'
                                         else j[i - |parts[0]| - 1]);
      }
    }
  }

  /** A reply yields no lines exactly when it is nothing but whitespace. */
  lemma NonBlankLinesEmptyIffBlank(s: string)
    ensures NonBlankLines(s) == [] <==> AllSpace(s)
  {
    var t := Strip(s);
    StripEmptyIffAllSpace(s);
    if NonBlankLines(s) == [] {
      StrippedNonBlankEmpty(Split(t, "\n"));
      JoinSplit(t, "\n");
      StripEmptyIffAllSpace(t);
      assert t == [];
    }
  }

  // ---------------------------------------------------------------------------
  // Decimal rendering of a natural number: Python's `str(n)` / `f"{n}"`

  function DigitChar(d: nat): char
    requires d < 10
  {
    ('0' as int + d) as char
  }

  function NatToString(n: nat): (r: string)
    ensures |r| >= 1
    ensures forall i :: 0 <= i < |r| ==> '0' <= r[i] <= '9'
    decreases n
  {
    if n < 10 then [DigitChar(n)] else NatToString(n / 10) + [DigitChar(n % 10)]
  }

  /** Reading the digits back. */
  function DigitsValue(s: string): nat
    requires forall i :: 0 <= i < |s| ==> '0' <= s[i] <= '9'
    decreases |s|
  {
    if s == [] then 0 else DigitsValue(s[..|s| - 1]) * 10 + (s[|s| - 1] as int - '0' as int)
  }

  /** `str(n)` is a faithful rendering: its digits read back as `n`. */
  lemma {:induction false} NatToStringRoundTrip(n: nat)
    ensures DigitsValue(NatToString(n)) == n
    decreases n
  {
    if n >= 10 {
      NatToStringRoundTrip(n / 10);
      var r := NatToString(n);
      assert r[..|r| - 1] == NatToString(n / 10);
    }
  }
}
