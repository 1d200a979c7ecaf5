/**
 * Character classes of the five extraction patterns, maximal runs of a class,
 * and decimal digit strings.
 */
module Lexical {

  /** The character classes that occur in the extraction patterns. */
  datatype CharClass =
    | Digit       // \d, restricted to the ASCII digits
    | DigitOrDot  // [\d.]
    | Space       // \s, restricted to the ASCII characters Python counts as whitespace
    | Label       // [12Lsum]

  predicate IsDigit(c: char) {
    '0' <= c <= '9'
  }

  predicate InClass(k: CharClass, c: char) {
    match k
    case Digit => IsDigit(c)
    case DigitOrDot => IsDigit(c) || c == '.'
    case Space => c == ' ' || ('\t' <= c <= '\r') || ('\U{1C}' <= c <= '\U{1F}')
    case Label => c in "12Lsum"
  }

  /** Every character of `t[lo..hi]` belongs to class `k`. */
  predicate RunOf(t: string, lo: nat, hi: nat, k: CharClass)
    requires lo <= hi <= |t|
  {
    forall j :: lo <= j < hi ==> InClass(k, t[j])
  }

  /** The literal `lit` occurs in `t` at position `i`. */
  predicate LitAt(t: string, i: nat, lit: string) {
    i + |lit| <= |t| && t[i..i + |lit|] == lit
  }

  /**
   * End of the longest run of class-`k` characters that starts at `i`:
   * what a greedy `[...]*` consumes there.
   */
  function RunEnd(t: string, i: nat, k: CharClass): (e: nat)
    requires i <= |t|
    ensures i <= e <= |t|
    ensures RunOf(t, i, e, k)
    ensures e == |t| || !InClass(k, t[e])
    decreases |t| - i
  {
    if i == |t| || !InClass(k, t[i]) then i else RunEnd(t, i + 1, k)
  }

  /** A run of class `k` that cannot be extended is the maximal one. */
  lemma {:induction false} RunEndUnique(t: string, i: nat, e: nat, k: CharClass)
    requires i <= e <= |t|
    requires RunOf(t, i, e, k)
    requires e == |t| || !InClass(k, t[e])
    ensures RunEnd(t, i, k) == e
    decreases e - i
  {
    if i < e {
      RunEndUnique(t, i + 1, e, k);
    }
  }

  /** Any run of class `k` starting at `i` ends no later than the maximal one. */
  lemma {:induction false} RunEndMaximal(t: string, i: nat, e: nat, k: CharClass)
    requires i <= e <= |t|
    requires RunOf(t, i, e, k)
    ensures e <= RunEnd(t, i, k)
    decreases e - i
  {
    if i < e {
      RunEndMaximal(t, i + 1, e, k);
    }
  }

  /** A string of ASCII decimal digits. */
  predicate AllDigits(s: string) {
    RunOf(s, 0, |s|, Digit)
  }

  /** A slice of a run is a run of the same class. */
  lemma RunSlice(t: string, lo: nat, hi: nat, k: CharClass)
    requires lo <= hi <= |t| && RunOf(t, lo, hi, k)
    ensures RunOf(t[lo..hi], 0, hi - lo, k)
  {
    var s := t[lo..hi];
    forall j | 0 <= j < hi - lo ensures InClass(k, s[j]) {
      assert s[j] == t[lo + j];
    }
  }

  /** A slice that is a run makes the same stretch of the text a run. */
  lemma RunOfSlice(t: string, lo: nat, hi: nat, k: CharClass)
    requires lo <= hi <= |t| && RunOf(t[lo..hi], 0, hi - lo, k)
    ensures RunOf(t, lo, hi, k)
  {
    forall j | lo <= j < hi ensures InClass(k, t[j]) {
      assert t[j] == t[lo..hi][j - lo];
    }
  }

  function DigitValue(c: char): (d: nat)
    requires IsDigit(c)
    ensures d < 10
  {
    (c as int) - ('0' as int)
  }

  function DigitChar(d: nat): (c: char)
    requires d < 10
    ensures IsDigit(c) && DigitValue(c) == d
  {
    ('0' as int + d) as char
  }

  /** The number a digit string spells, most significant digit first, as `int()` reads it. */
  function DigitsValue(s: string): (v: nat)
    requires AllDigits(s)
  {
    if s == [] then 0 else 10 * DigitsValue(s[..|s| - 1]) + DigitValue(s[|s| - 1])
  }

  function Pow10(k: nat): (p: nat)
    ensures p >= 1
  {
    if k == 0 then 1 else 10 * Pow10(k - 1)
  }

  /** Shortest decimal numeral of `n`, as `str(n)` writes it. */
  function ShowNat(n: nat): (s: string)
    ensures |s| >= 1 && AllDigits(s)
    ensures DigitsValue(s) == n
  {
    if n < 10 then [DigitChar(n)] else ShowNat(n / 10) + [DigitChar(n % 10)]
  }

  /** The `k`-digit numeral of `f`, with leading zeros. */
  function Padded(f: nat, k: nat): (s: string)
    requires f < Pow10(k)
    ensures |s| == k && AllDigits(s)
    ensures DigitsValue(s) == f
  {
    if k == 0 then [] else
      var s := Padded(f / 10, k - 1) + [DigitChar(f % 10)];
      assert s[..|s| - 1] == Padded(f / 10, k - 1);
      s
  }
}
