/** String helpers the program gets from Python's `str`: `strip()`, `int()` of a
    digit string, `str()` of an int, and the `<` / `>` alignments of `str.format`. */
module Text {

  /** The ASCII characters for which Python's `str.isspace()` holds (and which
      the regex class `\s` matches): space, \t, \n, \v, \f, \r and \x1c-\x1f. */
  predicate IsSpace(c: char)
  {
    c == ' ' || ('\t' <= c <= '\r') || ('\U{1C}' <= c <= '\U{1F}')
  }

  predicate AllSpace(s: string)
  {
    forall k :: 0 <= k < |s| ==> IsSpace(s[k])
  }

  predicate IsDigit(c: char)
  {
    '0' <= c <= '9'
  }

  predicate AllDigits(s: string)
  {
    forall k :: 0 <= k < |s| ==> IsDigit(s[k])
  }

  /** The index of the first non-whitespace character at or after i (|s| when none). */
  function SkipSpaces(s: string, i: nat): (j: nat)
    requires i <= |s|
    ensures i <= j <= |s|
    ensures forall k :: i <= k < j ==> IsSpace(s[k])
    ensures j < |s| ==> !IsSpace(s[j])
    decreases |s| - i
  {
    if i < |s| && IsSpace(s[i]) then SkipSpaces(s, i + 1) else i
  }

  /** The end of s[lo..j] once its trailing whitespace is dropped. */
  function DropTrailing(s: string, lo: nat, j: nat): (e: nat)
    requires lo <= j <= |s|
    ensures lo <= e <= j
    ensures forall k :: e <= k < j ==> IsSpace(s[k])
    ensures e > lo ==> !IsSpace(s[e - 1])
    decreases j
  {
    if j > lo && IsSpace(s[j - 1]) then DropTrailing(s, lo, j - 1) else j
  }

  /** r sits inside s at offset i with only whitespace on either side. */
  predicate Encloses(s: string, i: nat, r: string)
  {
    i + |r| <= |s| && s[i..i + |r|] == r && AllSpace(s[..i]) && AllSpace(s[i + |r|..])
  }

  /** Python's `s.strip()`: whitespace removed at both ends (StripEncloses: and nowhere else). */
  function Strip(s: string): (r: string)
    ensures r != [] ==> !IsSpace(r[0]) && !IsSpace(r[|r| - 1])
  {
    var i := SkipSpaces(s, 0);
    s[i..DropTrailing(s, i, |s|)]
  }

  /** What Strip removes is whitespace at the two ends only: its result sits inside s. */
  lemma StripEncloses(s: string)
    ensures exists i :: Encloses(s, i, Strip(s))
  {
    var i := SkipSpaces(s, 0);
    var e := DropTrailing(s, i, |s|);
    assert Strip(s) == s[i..e];
    assert forall k :: 0 <= k < i ==> s[..i][k] == s[k];
    assert forall k :: 0 <= k < |s| - e ==> s[e..][k] == s[e + k];
    assert Encloses(s, i, Strip(s));
  }

  /** Stripping twice is stripping once: a stored stripped field needs no second strip. */
  lemma StripIdempotent(s: string)
    ensures Strip(Strip(s)) == Strip(s)
  {
    StripNoEdgeSpace(Strip(s));
  }

  /** A string with no whitespace at either end is left as it is by Strip. */
  lemma StripNoEdgeSpace(s: string)
    requires s != [] ==> !IsSpace(s[0]) && !IsSpace(s[|s| - 1])
    ensures Strip(s) == s
  {
    assert SkipSpaces(s, 0) == 0;
    assert DropTrailing(s, 0, |s|) == |s|;
  }

  function DigitValue(c: char): (d: nat)
    requires IsDigit(c)
    ensures d < 10
  {
    (c as int) - ('0' as int)
  }

  function DigitChar(d: nat): (c: char)
    requires d < 10
    ensures IsDigit(c) && DigitValue(c) == d
  {
    (('0' as int) + d) as char
  }

  /** Python's `int(s)` for a non-empty run of ASCII digits (leading zeros allowed). */
  function DecimalValue(s: string): (n: nat)
    requires AllDigits(s)
    decreases |s|
  {
    if s == [] then 0
    else DecimalValue(s[..|s| - 1]) * 10 + DigitValue(s[|s| - 1])
  }

  /** Python's `str(n)` for a natural number: its shortest decimal spelling. */
  function DecimalString(n: nat): (s: string)
    ensures s != [] && AllDigits(s)
    ensures |s| > 1 ==> s[0] != '0'
    decreases n
  {
    if n < 10 then [DigitChar(n)] else DecimalString(n / 10) + [DigitChar(n % 10)]
  }

  /** `int(str(n)) == n`. */
  lemma {:induction false} DecimalRoundTrip(n: nat)
    ensures DecimalValue(DecimalString(n)) == n
    decreases n
  {
    var s := DecimalString(n);
    if n >= 10 {
      DecimalRoundTrip(n / 10);
      assert s[..|s| - 1] == DecimalString(n / 10);
    }
  }

  function Spaces(n: nat): (s: string)
    ensures |s| == n && AllSpace(s)
    ensures forall k :: 0 <= k < n ==> s[k] == ' '
  {
    if n == 0 then "" else Spaces(n - 1) + " "
  }

  /** `'{: <w}'.format(s)`: s left-aligned in a field of at least w characters. */
  function PadRight(s: string, w: nat): (r: string)
    ensures |r| == if |s| < w then w else |s|
    ensures r[..|s|] == s
    ensures forall k :: |s| <= k < |r| ==> r[k] == ' '
  {
    if |s| < w then s + Spaces(w - |s|) else s
  }

  /** `'{: >w}'.format(s)`: s right-aligned in a field of at least w characters. */
  function PadLeft(s: string, w: nat): (r: string)
    ensures |r| == if |s| < w then w else |s|
    ensures r[|r| - |s|..] == s
    ensures forall k :: 0 <= k < |r| - |s| ==> r[k] == ' '
  {
    if |s| < w then Spaces(w - |s|) + s else s
  }

  /** Stripping a right-aligned number gives the number back: the padding is all
      whitespace and a decimal spelling has none. */
  lemma PadLeftNumberStrips(n: nat, w: nat)
    ensures Strip(PadLeft(DecimalString(n), w)) == DecimalString(n)
  {
    var d := DecimalString(n);
    StripPadded(PadLeft(d, w), d);
  }

  /** Whitespace followed by a string with no whitespace at its ends strips to that string. */
  lemma StripPadded(p: string, d: string)
    requires d != [] && !IsSpace(d[0]) && !IsSpace(d[|d| - 1])
    requires |d| <= |p| && p[|p| - |d|..] == d
    requires forall k :: 0 <= k < |p| - |d| ==> IsSpace(p[k])
    ensures Strip(p) == d
  {
    var m := |p| - |d|;
    assert p[m] == d[0] && p[|p| - 1] == d[|d| - 1];
    SkipSpacesPast(p, 0, m);
    assert DropTrailing(p, m, |p|) == |p|;
  }

  /** SkipSpaces over a run of whitespace ending in a non-space stops exactly there. */
  lemma {:induction false} SkipSpacesPast(s: string, i: nat, k: nat)
    requires i <= k < |s| && !IsSpace(s[k])
    requires forall j :: i <= j < k ==> IsSpace(s[j])
    ensures SkipSpaces(s, i) == k
    decreases k - i
  {
    if i < k {
      SkipSpacesPast(s, i + 1, k);
    }
  }
}
