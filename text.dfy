/** The pieces of Python's string library that the transcriber depends on:
    `str.strip()`, `str.endswith`, `str(int)` and `str.split(",")`.
    Strings are sequences of code points, as Python's are. */
module Text {

  /** Python's `str.isspace()` for one character: the Unicode White_Space
      characters plus the four ASCII information separators. */
  predicate IsSpace(c: char) {
    || c == ' ' || c == '\t' || c == '\n' || c == '\r'
    || c == '\U{000B}' || c == '\U{000C}'
    || ('\U{001C}' <= c <= '\U{001F}')
    || c == '\U{0085}' || c == '\U{00A0}' || c == '\U{1680}'
    || ('\U{2000}' <= c <= '\U{200A}')
    || c == '\U{2028}' || c == '\U{2029}' || c == '\U{202F}' || c == '\U{205F}' || c == '\U{3000}'
  }

  /** The end of the run of whitespace that starts at `i` (what
      `str.lstrip()` skips when `i` is 0). */
  function SkipSpace(s: string, i: nat): (a: nat)
    requires i <= |s|
    ensures i <= a <= |s|
    ensures forall k :: i <= k < a ==> IsSpace(s[k])
    ensures a == |s| || !IsSpace(s[a])
    decreases |s| - i
  {
    if i < |s| && IsSpace(s[i]) then SkipSpace(s, i + 1) else i
  }

  /** The start of the run of whitespace that ends at `j`, not going below
      `lo` (what `str.rstrip()` skips). */
  function SkipSpaceBack(s: string, lo: nat, j: nat): (b: nat)
    requires lo <= j <= |s|
    ensures lo <= b <= j
    ensures forall k :: b <= k < j ==> IsSpace(s[k])
    ensures b == lo || !IsSpace(s[b - 1])
    decreases j
  {
    if j > lo && IsSpace(s[j - 1]) then SkipSpaceBack(s, lo, j - 1) else j
  }

  /** How many whitespace characters `str.strip()` drops at the front. */
  function LeadingSpace(s: string): nat
    ensures LeadingSpace(s) <= |s|
  {
    SkipSpace(s, 0)
  }

  /** Python's `str.strip()`: the result is no longer than `s` and neither
      starts nor ends with whitespace (`StripIsSlice` says which part of `s`
      it is). */
  function Strip(s: string): (r: string)
    ensures |r| <= |s|
    ensures r == [] || (!IsSpace(r[0]) && !IsSpace(r[|r| - 1]))
  {
    var a := SkipSpace(s, 0);
    var b := SkipSpaceBack(s, a, |s|);
    var r := s[a..b];
    assert r != [] ==> a < |s| && r[0] == s[a] && b > a && r[|r| - 1] == s[b - 1];
    r
  }

  /** The stripped string is the part of `s` between a whitespace-only
      prefix and a whitespace-only suffix. */
  lemma StripIsSlice(s: string)
    ensures var a, r := LeadingSpace(s), Strip(s);
      && a + |r| <= |s| && s[a..a + |r|] == r
      && (forall k :: 0 <= k < a ==> IsSpace(s[k]))
      && (forall k :: a + |r| <= k < |s| ==> IsSpace(s[k]))
  {
    var a := SkipSpace(s, 0);
    var b := SkipSpaceBack(s, a, |s|);
    assert Strip(s) == s[a..b];
  }

  /** A string with no whitespace at either end is its own strip. */
  lemma StripOfStripped(s: string)
    requires s == [] || (!IsSpace(s[0]) && !IsSpace(s[|s| - 1]))
    ensures Strip(s) == s
  {
    assert SkipSpace(s, 0) == 0;
    assert SkipSpaceBack(s, 0, |s|) == |s|;
    assert s[0..|s|] == s;
  }

  /** Stripping twice strips nothing more. */
  lemma StripIdempotent(s: string)
    ensures Strip(Strip(s)) == Strip(s)
  {
    StripOfStripped(Strip(s));
  }

  /** A stripped string holds no character its source does not. */
  lemma StripInside(s: string)
    ensures forall c :: c in Strip(s) ==> c in s
  {
    var r := Strip(s);
    var a := LeadingSpace(s);
    StripIsSlice(s);
    forall c | c in r
      ensures c in s
    {
      var k :| 0 <= k < |r| && r[k] == c;
      assert s[a + k] == c;
    }
  }

  /** Python's `str.endswith(suffix)`: `s` is some string followed by
      `suffix`. */
  predicate EndsWith(s: string, suffix: string)
    ensures EndsWith(s, suffix) <==> exists p :: s == p + suffix
  {
    var r := |suffix| <= |s| && s[|s| - |suffix|..] == suffix;
    assert r ==> s == s[..|s| - |suffix|] + suffix;
    assert forall p :: s == p + suffix ==> r by {
      forall p | s == p + suffix
        ensures r
      {
        assert s[|p|..] == suffix;
      }
    }
    r
  }

  /** Python's `str.startswith(prefix)`. */
  predicate StartsWith(s: string, prefix: string) {
    |prefix| <= |s| && s[..|prefix|] == prefix
  }

  /** Appending to a string that ends with `suffix` gives one that ends
      with `suffix` followed by what was appended. */
  lemma EndsWithConcat(s: string, suffix: string, t: string)
    requires EndsWith(s, suffix)
    ensures EndsWith(s + t, suffix + t)
  {
    var r := s + t;
    assert r[|r| - |suffix + t|..] == s[|s| - |suffix|..] + t;
  }

  /** Appending keeps every prefix. */
  lemma PrefixOfConcat(p: string, s: string, t: string)
    requires |p| <= |s| && s[..|p|] == p
    ensures |p| <= |s + t| && (s + t)[..|p|] == p
  {
    assert (s + t)[..|p|] == s[..|p|];
  }

  function DigitChar(d: nat): (c: char)
    requires d < 10
    ensures '0' <= c <= '9'
  {
    ['0', '1', '2', '3', '4', '5', '6', '7', '8', '9'][d]
  }

  function DigitValue(c: char): nat
    requires '0' <= c <= '9'
  {
    (c as int - '0' as int) as nat
  }

  predicate IsDecimal(s: string) {
    |s| > 0 && forall k :: 0 <= k < |s| ==> '0' <= s[k] <= '9'
  }

  /** The number that a string of decimal digits denotes (the reading of
      `int(s)` on such a string). */
  function DecimalValue(s: string): nat
    requires forall k :: 0 <= k < |s| ==> '0' <= s[k] <= '9'
    decreases |s|
  {
    if s == [] then 0 else 10 * DecimalValue(s[..|s| - 1]) + DigitValue(s[|s| - 1])
  }

  /** Python's `str(n)` (and an f-string `{n}`) for a natural number:
      decimal digits without leading zeros. */
  function NatToString(n: nat): (r: string)
    ensures IsDecimal(r)
    ensures r[0] == '0' ==> n == 0
    decreases n
  {
    if n < 10 then [DigitChar(n)] else NatToString(n / 10) + [DigitChar(n % 10)]
  }

  /** Reading back the digits that `NatToString` wrote gives the number. */
  lemma {:induction false} NatToStringRoundTrip(n: nat)
    ensures DecimalValue(NatToString(n)) == n
    decreases n
  {
    if n >= 10 {
      NatToStringRoundTrip(n / 10);
      var s := NatToString(n);
      assert s[..|s| - 1] == NatToString(n / 10);
    }
  }

  /** Different numbers print differently. */
  lemma NatToStringInjective(m: nat, n: nat)
    requires NatToString(m) == NatToString(n)
    ensures m == n
  {
    NatToStringRoundTrip(m);
    NatToStringRoundTrip(n);
  }

  /** Python's `s.split(",")`: always at least one piece; the pieces hold no
      comma. */
  function SplitOnComma(s: string): (pieces: seq<string>)
    ensures |pieces| >= 1
    ensures forall p :: p in pieces ==> ',' !in p
    decreases |s|
  {
    if s == [] then [""]
    else
      var rest := SplitOnComma(s[1..]);
      if s[0] == ',' then [""] + rest
      else [[s[0]] + rest[0]] + rest[1..]
  }

  /** A comma splits the text in two: the pieces of `a + "," + b` are the
      pieces of `a` followed by those of `b`. */
  lemma {:induction false} SplitOnCommaConcat(a: string, b: string)
    ensures SplitOnComma(a + "," + b) == SplitOnComma(a) + SplitOnComma(b)
    decreases |a|
  {
    if a == [] {
      assert a + "," + b == [','] + b;
      assert (a + "," + b)[1..] == b;
    } else {
      assert (a + "," + b)[1..] == a[1..] + "," + b;
      SplitOnCommaConcat(a[1..], b);
    }
  }

  /** Python's `",".join(pieces)`. */
  function JoinWithComma(pieces: seq<string>): string
    requires |pieces| >= 1
    decreases |pieces|
  {
    if |pieces| == 1 then pieces[0] else pieces[0] + "," + JoinWithComma(pieces[1..])
  }

  /** Splitting loses nothing: joining the pieces back gives the input. */
  lemma {:induction false} SplitJoinRoundTrip(s: string)
    ensures JoinWithComma(SplitOnComma(s)) == s
    decreases |s|
  {
    if s != [] {
      SplitJoinRoundTrip(s[1..]);
      var rest := SplitOnComma(s[1..]);
      if s[0] == ',' {
        assert SplitOnComma(s)[1..] == rest;
      } else {
        var pieces := SplitOnComma(s);
        assert pieces[1..] == rest[1..];
        if |rest| > 1 {
          assert JoinWithComma(rest) == rest[0] + "," + JoinWithComma(rest[1..]);
        }
      }
    }
  }
}
