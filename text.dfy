/** The string operations the handler relies on: JavaScript's notion of white
    space (the `\s` regex class and `String.prototype.trim`), substring search
    (`indexOf`, `includes`) and the decimal rendering of integers inside
    template literals. */
module Text {

  import opened Wrappers

  /** The characters matched by `\s` in a JavaScript regular expression; `trim`
      strips exactly the same set. */
  predicate IsWhitespace(c: char) {
    c == ' ' || c == '\t' || c == '\n' || c == '\r' || c == '\U{000B}' || c == '\U{000C}'
    || c == '\U{00A0}' || c == '\U{1680}' || ('\U{2000}' <= c <= '\U{200A}')
    || c == '\U{2028}' || c == '\U{2029}' || c == '\U{202F}' || c == '\U{205F}'
    || c == '\U{3000}' || c == '\U{FEFF}'
  }

  /** Every character of `s[lo..hi]` is white space. */
  predicate WhitespaceBetween(s: string, lo: int, hi: int) {
    forall i :: lo <= i < hi && 0 <= i < |s| ==> IsWhitespace(s[i])
  }

  /** Neither the first nor the last character is white space. */
  predicate Trimmed(s: string) {
    s == [] || (!IsWhitespace(s[0]) && !IsWhitespace(s[|s| - 1]))
  }

  /** Where the text starts once the white space before it is skipped. */
  function TrimStartIndex(s: string, from: nat): (lo: nat)
    requires from <= |s|
    ensures from <= lo <= |s| && WhitespaceBetween(s, from, lo)
    ensures lo == |s| || !IsWhitespace(s[lo])
    decreases |s| - from
  {
    if from < |s| && IsWhitespace(s[from]) then TrimStartIndex(s, from + 1) else from
  }

  /** Where the text ends once the white space after it (down to `lo`) is cut off. */
  function TrimEndIndex(s: string, lo: nat, upper: nat): (hi: nat)
    requires lo <= upper <= |s|
    ensures lo <= hi <= upper && WhitespaceBetween(s, hi, upper)
    ensures hi == lo || !IsWhitespace(s[hi - 1])
    decreases upper
  {
    if lo < upper && IsWhitespace(s[upper - 1]) then TrimEndIndex(s, lo, upper - 1) else upper
  }

  /** `s.trim()` as a slice `s[TrimLo(s)..TrimHi(s)]`. */
  function TrimLo(s: string): (lo: nat)
    ensures lo <= |s| && WhitespaceBetween(s, 0, lo)
  {
    TrimStartIndex(s, 0)
  }

  function TrimHi(s: string): (hi: nat)
    ensures TrimLo(s) <= hi <= |s| && WhitespaceBetween(s, hi, |s|)
  {
    TrimEndIndex(s, TrimLo(s), |s|)
  }

  /** `s.trim()`: the text between a white-space prefix and a white-space suffix,
      with no white space left at either edge. */
  function Trim(s: string): (r: string)
    ensures r == s[TrimLo(s)..TrimHi(s)]
    ensures Trimmed(r)
  {
    s[TrimLo(s)..TrimHi(s)]
  }

  /** `pat` occurs in `s` starting at index `i`. */
  predicate OccursAt(s: string, pat: string, i: int) {
    0 <= i && i + |pat| <= |s| && s[i..i + |pat|] == pat
  }

  /** `s.includes(pat)`. */
  predicate Contains(s: string, pat: string) {
    exists i :: 0 <= i <= |s| && OccursAt(s, pat, i)
  }

  /** A string contains whatever is spliced into it. */
  lemma ContainsSpliced(a: string, b: string, c: string)
    ensures Contains(a + b + c, b)
  {
    assert (a + b + c)[|a|..|a| + |b|] == b;
    assert OccursAt(a + b + c, b, |a|);
  }

  /** An occurrence survives appending text on either side. */
  lemma ContainsExtended(x: string, y: string, pat: string)
    ensures Contains(x, pat) ==> Contains(x + y, pat)
    ensures Contains(y, pat) ==> Contains(x + y, pat)
  {
    if Contains(x, pat) {
      var i :| 0 <= i <= |x| && OccursAt(x, pat, i);
      assert (x + y)[i..i + |pat|] == x[i..i + |pat|];
      assert OccursAt(x + y, pat, i);
    }
    if Contains(y, pat) {
      var i :| 0 <= i <= |y| && OccursAt(y, pat, i);
      assert (x + y)[|x| + i..|x| + i + |pat|] == y[i..i + |pat|];
      assert OccursAt(x + y, pat, |x| + i);
    }
  }

  /** `s.indexOf(pat, from)`: the first occurrence at or after `from`, if any. */
  function IndexOf(s: string, pat: string, from: nat): (r: Option<nat>)
    ensures r.Some? ==> from <= r.value && OccursAt(s, pat, r.value)
    ensures r.Some? ==> forall j :: from <= j < r.value ==> !OccursAt(s, pat, j)
    ensures r.None? ==> forall j :: from <= j ==> !OccursAt(s, pat, j)
    decreases |s| - from
  {
    if from + |pat| > |s| then None
    else if s[from..from + |pat|] == pat then Some(from)
    else IndexOf(s, pat, from + 1)
  }

  /** A pattern cannot occur where its first character does not appear. */
  lemma AbsentCharNoOccurrence(s: string, pat: string, lo: nat, hi: nat)
    requires |pat| > 0 && lo <= hi <= |s| && pat[0] !in s[lo..hi]
    ensures forall j :: lo <= j < hi ==> !OccursAt(s, pat, j)
  {
  }

  /** A slice of a slice is a slice of the original. */
  lemma SliceOfSlice(s: string, i: nat, j: nat, k: nat, l: nat)
    requires i <= j <= |s| && k <= l <= j - i
    ensures s[i..j][k..l] == s[i + k..i + l]
  {
    assert forall m :: 0 <= m < l - k ==> s[i..j][k..l][m] == s[i + k + m];
  }

  /** An occurrence inside a slice is an occurrence in the whole string. */
  lemma OccurrenceInSlice(s: string, pat: string, lo: nat, hi: nat, k: int)
    requires lo <= hi <= |s| && OccursAt(s[lo..hi], pat, k)
    ensures OccursAt(s, pat, lo + k) && lo + k + |pat| <= hi
  {
    SliceOfSlice(s, lo, hi, k, k + |pat|);
  }

  /** A slice of a string in which `pat` never occurs has no occurrence either. */
  lemma NoOccurrenceInSlice(s: string, pat: string, lo: nat, hi: nat)
    requires lo <= hi <= |s|
    requires forall j :: lo <= j && j + |pat| <= hi ==> !OccursAt(s, pat, j)
    ensures forall k :: !OccursAt(s[lo..hi], pat, k)
  {
    forall k ensures OccursAt(s[lo..hi], pat, k) ==> OccursAt(s, pat, lo + k) && lo + k + |pat| <= hi {
      if OccursAt(s[lo..hi], pat, k) {
        OccurrenceInSlice(s, pat, lo, hi, k);
      }
    }
  }

  function DigitChar(d: nat): (c: char)
    requires d < 10
    ensures '0' <= c <= '9' && (c as int) - ('0' as int) == d
  {
    ['0', '1', '2', '3', '4', '5', '6', '7', '8', '9'][d]
  }

  predicate AllDigits(s: string) {
    forall i :: 0 <= i < |s| ==> '0' <= s[i] <= '9'
  }

  /** The value of a string of decimal digits, read most significant first. */
  function DecimalValue(s: string): nat
    requires AllDigits(s)
  {
    if s == [] then 0
    else DecimalValue(s[..|s| - 1]) * 10 + ((s[|s| - 1] as int) - ('0' as int))
  }

  /** `${n}` for a non-negative integer: its shortest decimal numeral. */
  function NatToDecimal(n: nat): (r: string)
    ensures |r| > 0 && AllDigits(r)
    ensures r[0] != '0' || r == "0"
  {
    if n < 10 then [DigitChar(n)] else NatToDecimal(n / 10) + [DigitChar(n % 10)]
  }

  /** Reading back the numeral gives the number: rendering loses nothing. */
  lemma {:induction false} DecimalRoundTrip(n: nat)
    ensures DecimalValue(NatToDecimal(n)) == n
  {
    if n >= 10 {
      DecimalRoundTrip(n / 10);
      var s := NatToDecimal(n);
      assert s[..|s| - 1] == NatToDecimal(n / 10);
    }
  }

  /** `${i}` for an integer number: a minus sign before the magnitude when negative. */
  function IntToDecimal(i: int): (r: string)
    ensures |r| > 0
    ensures (r[0] == '-') <==> i < 0
    ensures i < 0 ==> AllDigits(r[1..]) && DecimalValue(r[1..]) == -i
    ensures i >= 0 ==> AllDigits(r) && DecimalValue(r) == i
  {
    if i < 0 then
      DecimalRoundTrip(-i);
      assert ("-" + NatToDecimal(-i))[1..] == NatToDecimal(-i);
      "-" + NatToDecimal(-i)
    else
      DecimalRoundTrip(i);
      NatToDecimal(i)
  }

  /** Distinct numbers render to distinct numerals. */
  lemma NatToDecimalInjective(m: nat, n: nat)
    requires NatToDecimal(m) == NatToDecimal(n)
    ensures m == n
  {
    DecimalRoundTrip(m);
    DecimalRoundTrip(n);
  }

  /** Distinct integers render to distinct strings. */
  lemma IntToDecimalInjective(a: int, b: int)
    requires IntToDecimal(a) == IntToDecimal(b)
    ensures a == b
  {
    var ra, rb := IntToDecimal(a), IntToDecimal(b);
    if a < 0 && b < 0 {
      assert ra[1..] == NatToDecimal(-a) && rb[1..] == NatToDecimal(-b);
      NatToDecimalInjective(-a, -b);
    } else if 0 <= a && 0 <= b {
      NatToDecimalInjective(a, b);
    }
  }
}
