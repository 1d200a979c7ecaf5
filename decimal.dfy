/**
 * Conversion of captured `[\d.]+` tokens with Python's `float()`, of captured
 * `\d+` tokens with `int()`, and of an `int` operand to `float` in mixed
 * arithmetic. Values are exact reals: the rounding of a binary double is not
 * modelled, but the two limits at which Python raises are.
 */
module Decimal {
  import opened Wrappers
  import opened Lexical

  /** The exceptions the conversions raise, with what they could not convert. */
  datatype ParseError =
    | InvalidFloat(token: string)    // ValueError of `float()`: not a float literal
    | TooManyDigits(digits: string)  // ValueError of `int()`: longer than the digit limit
    | IntTooLarge(n: nat)            // OverflowError: the int is beyond the range of a double

  /**
   * CPython's default limit on the digits `int()` converts from a string
   * (`sys.get_int_max_str_digits()`, since 3.11 and the 2022 security releases).
   */
  const MaxStrDigits: nat := 4300

  /**
   * 2^1024 - 2^970: the least integer that rounds, to nearest with ties to even,
   * past the largest double `(2^53 - 1) * 2^971`; converting it or any larger
   * int to `float` raises OverflowError.
   */
  const FloatOverflow: nat := 0xffff_ffff_ffff_fc00_0000_0000_0000_0000_0000_0000_0000_0000_0000_0000_0000_0000_0000_0000_0000_0000_0000_0000_0000_0000_0000_0000_0000_0000_0000_0000_0000_0000_0000_0000_0000_0000_0000_0000_0000_0000_0000_0000_0000_0000_0000_0000_0000_0000_0000_0000_0000_0000_0000_0000_0000_0000_0000_0000_0000_0000_0000_0000_0000_0000

  /** What `[\d.]+` can capture: a non-empty string of digits and dots. */
  predicate IsDecimalToken(s: string) {
    |s| >= 1 && RunOf(s, 0, |s|, DigitOrDot)
  }

  predicate HasDigit(s: string) {
    exists j :: 0 <= j < |s| && IsDigit(s[j])
  }

  predicate AtMostOneDot(s: string) {
    forall j, k :: 0 <= j < k < |s| && s[j] == '.' ==> s[k] != '.'
  }

  /**
   * The decimal tokens `float()` accepts: Python's float grammar on the
   * alphabet of digits and `.` is digits with at most one dot and at least
   * one digit (`12`, `1.5`, `.5`, `5.`), which rules out `.` and `1.2.3`.
   */
  predicate IsFloatLiteral(s: string) {
    IsDecimalToken(s) && AtMostOneDot(s) && HasDigit(s)
  }

  /** Position of the first `.` in `s`, or `|s|` when there is none. */
  function DotPos(s: string): (d: nat)
    ensures d <= |s|
    ensures forall j :: 0 <= j < d ==> s[j] != '.'
    ensures d < |s| ==> s[d] == '.'
  {
    if s == [] || s[0] == '.' then 0 else 1 + DotPos(s[1..])
  }

  /** The exact value of a float literal: integer part plus fraction digits over a power of ten. */
  function DecimalValue(s: string): (v: real)
    requires IsFloatLiteral(s)
    ensures v >= 0.0
  {
    var d := DotPos(s);
    assert AllDigits(s[..d]) by {
      forall j | 0 <= j < d ensures IsDigit(s[..d][j]) {
        assert InClass(DigitOrDot, s[j]);
      }
    }
    if d == |s| then DigitsValue(s) as real
    else
      var tail := s[d + 1..];
      assert AllDigits(tail) by {
        forall j | 0 <= j < |tail| ensures IsDigit(tail[j]) {
          assert InClass(DigitOrDot, s[d + 1 + j]);
        }
      }
      DigitsValue(s[..d]) as real + DigitsValue(s[d + 1..]) as real / Pow10(|s| - d - 1) as real
  }

  /** Python's `float()` applied to a captured `[\d.]+` token. */
  function ParseFloat(s: string): (r: Result<real, ParseError>)
    requires IsDecimalToken(s)
  {
    if IsFloatLiteral(s) then Ok(DecimalValue(s)) else Err(InvalidFloat(s))
  }

  /** Python's `int()` applied to a captured `\d+` token; every digit character counts toward the limit. */
  function ParseNat(s: string): (r: Result<nat, ParseError>)
    requires |s| >= 1 && AllDigits(s)
  {
    if |s| > MaxStrDigits then Err(TooManyDigits(s)) else Ok(DigitsValue(s))
  }

  /** An `int` operand converted to `float`, as in `minutes * 60 + seconds`. */
  function IntToFloat(n: nat): (r: Result<real, ParseError>) {
    if n >= FloatOverflow then Err(IntTooLarge(n)) else Ok(n as real)
  }

  /**
   * The bound in decimal, independently of the hex literal: it lies strictly
   * between the largest double, `(2^53 - 1) * 2^971`, which Python prints as
   * 1.7976931348623157e+308, and 1.7976931348623159e308.
   */
  lemma FloatOverflowBounds()
    ensures FloatOverflow == 179769313486231580793728971405303415079934132710037826936173778980444968292764750946649017977587207096330286416692887910946555547851940402630657488671505820681908902000708383676273854845817711531764475730270069855571366959622842914819860834936475292719074168444365510704342711559699508093042880177904174497792
    ensures 179769313486231570814527423731704356798070567525844996598917476803157260780028538760589558632766878171540458953514382464234321326889464182768467546703537516986049910576551282076245490090389328944075868508455133942304583236903222948165808559332123348274797826204144723168738177180919299881250404026184124858368 < FloatOverflow
    ensures 179769313486231580000000000000000000000000000000000000000000000000000000000000000000000000000000000000000000000000000000000000000000000000000000000000000000000000000000000000000000000000000000000000000000000000000000000000000000000000000000000000000000000000000000000000000000000000000000000000000000000000000 < FloatOverflow < 179769313486231590000000000000000000000000000000000000000000000000000000000000000000000000000000000000000000000000000000000000000000000000000000000000000000000000000000000000000000000000000000000000000000000000000000000000000000000000000000000000000000000000000000000000000000000000000000000000000000000000000
  {
  }

  /**
   * `float(n)` by the decimal magnitude of `n`: up to 1.7976931348623158e308 it
   * converts without raising, from 1.7976931348623159e308 on it raises OverflowError.
   */
  lemma IntToFloatByMagnitude(n: nat)
    ensures n <= 179769313486231580000000000000000000000000000000000000000000000000000000000000000000000000000000000000000000000000000000000000000000000000000000000000000000000000000000000000000000000000000000000000000000000000000000000000000000000000000000000000000000000000000000000000000000000000000000000000000000000000000 ==> IntToFloat(n) == Ok(n as real)
    ensures n >= 179769313486231590000000000000000000000000000000000000000000000000000000000000000000000000000000000000000000000000000000000000000000000000000000000000000000000000000000000000000000000000000000000000000000000000000000000000000000000000000000000000000000000000000000000000000000000000000000000000000000000000000 ==> IntToFloat(n) == Err(IntTooLarge(n))
  {
    FloatOverflowBounds();
  }

  /** The first dot is where the prefix without dots ends. */
  lemma {:induction false} DotPosAt(s: string, d: nat)
    requires d < |s| && s[d] == '.'
    requires forall j :: 0 <= j < d ==> s[j] != '.'
    ensures DotPos(s) == d
  {
    if d > 0 {
      DotPosAt(s[1..], d - 1);
    }
  }

  /** A digit string without a dot has no dot position. */
  lemma {:induction false} DotPosNone(s: string)
    requires AllDigits(s)
    ensures DotPos(s) == |s|
  {
    if s != [] {
      DotPosNone(s[1..]);
    }
  }

  /** `float(str(n)) == n`. */
  lemma FloatOfNumeral(n: nat)
    ensures IsDecimalToken(ShowNat(n))
    ensures ParseFloat(ShowNat(n)) == Ok(n as real)
  {
    FloatOfDigits(ShowNat(n));
  }

  /** `int(str(n)) == n` while `str(n)` is within the digit limit, and a ValueError beyond it. */
  lemma IntOfNumeral(n: nat)
    ensures ParseNat(ShowNat(n)).Ok? <==> n < Pow10(MaxStrDigits)
    ensures ParseNat(ShowNat(n)).Ok? ==> ParseNat(ShowNat(n)).value == n
    ensures ParseNat(ShowNat(n)).Err? ==> ParseNat(ShowNat(n)).error == TooManyDigits(ShowNat(n))
  {
    NumeralLength(n, MaxStrDigits);
  }

  /** The numeral of `n` has at most `k` digits exactly when `n < 10^k`. */
  lemma {:induction false} NumeralLength(n: nat, k: nat)
    requires k >= 1
    ensures |ShowNat(n)| <= k <==> n < Pow10(k)
  {
    if n < 10 {
      Pow10AtLeastTen(k);
    } else if k == 1 {
      assert |ShowNat(n)| == |ShowNat(n / 10)| + 1;
    } else {
      NumeralLength(n / 10, k - 1);
      assert |ShowNat(n)| == |ShowNat(n / 10)| + 1;
      assert n < Pow10(k) <==> n / 10 < Pow10(k - 1);
    }
  }

  lemma Pow10AtLeastTen(k: nat)
    requires k >= 1
    ensures Pow10(k) >= 10
  {
  }

  /** A float literal without a dot, such as `007`, reads as its digits: `float("007") == 7.0`. */
  lemma FloatOfDigits(s: string)
    requires |s| >= 1 && AllDigits(s)
    ensures IsFloatLiteral(s)
    ensures ParseFloat(s) == Ok(DigitsValue(s) as real)
  {
    assert IsDigit(s[0]);
    DotPosNone(s);
  }

  /** `s` is `a + "." + b` for digit strings `a` and `b`. */
  predicate SplitAtDot(s: string, a: string, b: string) {
    AllDigits(a) && AllDigits(b) && s == a + "." + b
  }

  /** A float literal with a single dot reads as its integer part plus its scaled fraction digits. */
  lemma {:induction false} DecimalValueOfSplit(s: string, a: string, b: string)
    requires SplitAtDot(s, a, b) && |a| + |b| >= 1
    ensures IsFloatLiteral(s)
    ensures DecimalValue(s) == DigitsValue(a) as real + DigitsValue(b) as real / Pow10(|b|) as real
  {
    assert s[|a|] == '.';
    forall j | 0 <= j < |s| && j != |a| ensures IsDigit(s[j]) {
      if j < |a| { assert s[j] == a[j]; } else { assert s[j] == b[j - |a| - 1]; }
    }
    if |a| >= 1 { assert IsDigit(s[0]); } else { assert IsDigit(s[1]); }
    assert RunOf(s, 0, |s|, DigitOrDot);
    assert AtMostOneDot(s);
    DotPosAt(s, |a|);
    assert s[..|a|] == a && s[|a| + 1..] == b;
  }

  /** `float("<w>.<k digits of f>") == w + f / 10^k`, including the case `k == 0` (`"5."`). */
  lemma FloatOfFraction(w: nat, f: nat, k: nat)
    requires f < Pow10(k)
    ensures IsDecimalToken(ShowNat(w) + "." + Padded(f, k))
    ensures ParseFloat(ShowNat(w) + "." + Padded(f, k))
         == Ok(w as real + f as real / Pow10(k) as real)
  {
    var a, b := ShowNat(w), Padded(f, k);
    DecimalValueOfSplit(a + "." + b, a, b);
    SameScaled(DigitsValue(a), w, DigitsValue(b), f, Pow10(|b|), Pow10(k));
    AcceptedValue(a + "." + b, w as real + f as real / Pow10(k) as real);
  }

  /** A literal `float()` accepts converts to its exact value. */
  lemma AcceptedValue(s: string, v: real)
    requires IsFloatLiteral(s) && DecimalValue(s) == v
    ensures ParseFloat(s) == Ok(v)
  {
  }

  /** Equal parts give equal values `x + y / p`. */
  lemma SameScaled(x1: nat, x2: nat, y1: nat, y2: nat, p1: nat, p2: nat)
    requires x1 == x2 && y1 == y2 && p1 == p2 && p1 >= 1
    ensures x1 as real + y1 as real / p1 as real == x2 as real + y2 as real / p2 as real
  {
  }

  /** `float(".<k digits of f>") == f / 10^k` for at least one fraction digit. */
  lemma FloatOfLeadingDot(f: nat, k: nat)
    requires 1 <= k && f < Pow10(k)
    ensures IsDecimalToken("." + Padded(f, k))
    ensures ParseFloat("." + Padded(f, k)) == Ok(f as real / Pow10(k) as real)
  {
    var b := Padded(f, k);
    NoIntegerPart(b);
    DecimalValueOfSplit("." + b, [], b);
  }

  /** `"." + b` splits at its dot into an empty integer part and `b`. */
  lemma NoIntegerPart(b: string)
    requires AllDigits(b)
    ensures SplitAtDot("." + b, [], b) && DigitsValue([]) == 0
  {
    assert "." + b == [] + "." + b;
  }

  /** A token with two dots, such as `1.2.3`, makes `float()` raise. */
  lemma TwoDotsRejected(s: string, j: nat, k: nat)
    requires IsDecimalToken(s)
    requires j < k < |s| && s[j] == '.' && s[k] == '.'
    ensures ParseFloat(s) == Err(InvalidFloat(s))
  {
  }

  /** A token of dots only, such as `.`, makes `float()` raise. */
  lemma DotsOnlyRejected(s: string)
    requires IsDecimalToken(s)
    requires forall j :: 0 <= j < |s| ==> s[j] == '.'
    ensures ParseFloat(s) == Err(InvalidFloat(s))
  {
  }
}
