/** The demo's number formatting: prefixNumber pads an Int with zeros, and
    formatToDecimals prints a Float with a fixed number of decimals. */
module StringExtensions {
  import opened RealFacts
  import opened KotlinMath

  predicate IsDigit(c: char) {
    '0' <= c <= '9'
  }

  predicate AllDigits(s: string) {
    forall i :: 0 <= i < |s| ==> IsDigit(s[i])
  }

  function DigitChar(d: int): (c: char)
    requires 0 <= d < 10
    ensures IsDigit(c) && c as int - '0' as int == d
  {
    ('0' as int + d) as char
  }

  /** The decimal digits of n, without leading zeros. */
  function NatToString(n: nat): (s: string)
    ensures |s| >= 1 && AllDigits(s)
  {
    if n < 10 then [DigitChar(n)] else NatToString(n / 10) + [DigitChar(n % 10)]
  }

  /** Int.toString(): a minus sign before the digits of a negative number. */
  function IntToString(i: int): string {
    if i < 0 then "-" + NatToString(-i) else NatToString(i)
  }

  /** The number a string of digits denotes. */
  function DigitsValue(s: string): nat
    requires AllDigits(s)
  {
    if s == [] then 0
    else DigitsValue(s[..|s| - 1]) * 10 + (s[|s| - 1] as int - '0' as int)
  }

  function Power(b: nat, e: nat): nat {
    if e == 0 then 1 else b * Power(b, e - 1)
  }

  /** NatToString is read back as the number it prints. */
  lemma {:induction false} NatToStringValue(n: nat)
    ensures DigitsValue(NatToString(n)) == n
  {
    if n >= 10 {
      NatToStringValue(n / 10);
      var s := NatToString(n);
      assert s[..|s| - 1] == NatToString(n / 10);
    }
  }

  /** A number below 10^d takes at most d digits (d >= 1). */
  lemma {:induction false} NatToStringLength(n: nat, d: nat)
    requires d >= 1 && n < Power(10, d)
    ensures |NatToString(n)| <= d
  {
    if n >= 10 {
      assert Power(10, d) == 10 * Power(10, d - 1);
      assert n / 10 < Power(10, d - 1);
      NatToStringLength(n / 10, d - 1);
    }
  }

  /** `count` zeros. */
  function Zeros(count: nat): (s: string)
    ensures |s| == count && AllDigits(s)
  {
    seq(count, _ => '0')
  }

  /** Leading zeros do not change the value of a digit string. */
  lemma {:induction false} LeadingZerosValue(count: nat, s: string)
    requires AllDigits(s)
    ensures DigitsValue(Zeros(count) + s) == DigitsValue(s)
  {
    if s == [] {
      assert Zeros(count) + s == Zeros(count);
      ZerosValue(count);
    } else {
      var front := s[..|s| - 1];
      assert (Zeros(count) + s)[..|Zeros(count) + s| - 1] == Zeros(count) + front;
      LeadingZerosValue(count, front);
    }
  }

  lemma {:induction false} ZerosValue(count: nat)
    ensures DigitsValue(Zeros(count)) == 0
  {
    if count > 0 {
      assert Zeros(count)[..count - 1] == Zeros(count - 1);
      ZerosValue(count - 1);
    }
  }

  /** prefixNumber(id, length): id.toString() with zeros in front, up to length
      characters. */
  function PrefixNumber(id: int, length: int): string {
    var number := IntToString(id);
    var zeroes := if length - |number| >= 0 then length - |number| else 0;
    Zeros(zeroes) + number
  }

  /** The padded string is max(length, |s|) long, ends with s = id.toString(), has only
      zeros before s, is s itself when s is already long enough, and for id >= 0 is
      still read back as id. */
  lemma PrefixNumberShape(id: int, length: int)
    ensures var s := IntToString(id);
            var r := PrefixNumber(id, length);
            && |r| == (if length >= |s| then length else |s|)
            && r[|r| - |s|..] == s
            && (forall i :: 0 <= i < |r| - |s| ==> r[i] == '0')
            && (|s| >= length ==> r == s)
            && (id >= 0 ==> AllDigits(r) && DigitsValue(r) == id)
  {
    var s := IntToString(id);
    var r := PrefixNumber(id, length);
    var zeroes := if length - |s| >= 0 then length - |s| else 0;
    assert r[|r| - |s|..] == s;
    if |s| >= length {
      assert Zeros(0) + s == s;
    }
    if id >= 0 {
      LeadingZerosValue(zeroes, s);
      NatToStringValue(id);
    }
  }

  /** 10f.pow(decimals). */
  function Pow10(decimals: int): real {
    if decimals >= 0 then Power(10, decimals) as real
    else
      PowerPositive(-decimals);
      1.0 / Power(10, -decimals) as real
  }

  /** The rounded fraction formatToDecimals prints: (x - x.toInt()) * 10^decimals,
      rounded. */
  function FractionDigits(x: real, decimals: int): int {
    RoundToInt((x - Trunc(x) as real) * Pow10(decimals))
  }

  /** formatToDecimals(decimals = 1), as written: the truncated integer part, a dot,
      and the rounded fraction padded to `decimals` digits. */
  function FormatToDecimals(x: real, decimals: int := 1): string {
    var integerDigits := Trunc(x);
    var floatDigits := RoundToInt((x - integerDigits as real) * Pow10(decimals));
    IntToString(integerDigits) + "." + PrefixNumber(floatDigits, decimals)
  }

  /** For x >= 0 whose rounded fraction stays below 10^decimals (decimals >= 1), the
      text is the integer part, a dot and exactly `decimals` digits, which denote the
      rounded fraction. */
  lemma FormatFractionWidth(x: real, decimals: int)
    requires x >= 0.0 && decimals >= 1
    requires FractionDigits(x, decimals) < Power(10, decimals)
    ensures exists f: string ::
              && FormatToDecimals(x, decimals) == IntToString(Trunc(x)) + "." + f
              && |f| == decimals && AllDigits(f)
              && DigitsValue(f) == FractionDigits(x, decimals)
  {
    var n := FractionDigits(x, decimals);
    FractionDigitsNonnegative(x, decimals);
    NatToStringLength(n, decimals);
    PrefixNumberShape(n, decimals);
    var f := PrefixNumber(n, decimals);
    assert FormatToDecimals(x, decimals) == IntToString(Trunc(x)) + "." + f;
  }

  /** For x >= 0 and decimals >= 0 the rounded fraction is never negative. */
  lemma FractionDigitsNonnegative(x: real, decimals: int)
    requires x >= 0.0 && decimals >= 0
    ensures FractionDigits(x, decimals) >= 0
  {
    var fraction := x - Trunc(x) as real;
    PowerPositive(decimals);
    NonnegativeProduct(fraction, Pow10(decimals));
  }

  lemma {:induction false} PowerPositive(e: nat)
    ensures Power(10, e) >= 1
  {
    if e > 0 {
      PowerPositive(e - 1);
    }
  }

  lemma NonnegativeProduct(a: real, b: real)
    requires a >= 0.0 && b >= 0.0
    ensures a * b >= 0.0
  {
    if a > 0.0 && b > 0.0 {
      PositiveProduct(a, b, a * b);
    }
  }

  // ---------------------------------------------------------------------------
  // Findings: the fraction is rounded without carrying into the integer part, and a
  // negative fraction is printed with its own sign.

  /** 0.96 with one decimal prints "0.10": the fraction rounds up to 10, which does
      not carry into the integer part. */
  lemma FormatCarryLost()
    ensures FormatToDecimals(0.96, 1) == "0.10"
  {
    assert Trunc(0.96) == 0;
    assert Pow10(1) == 10.0;
    assert RoundToInt(9.6) == 10;
    assert NatToString(10) == "10";
    assert PrefixNumber(10, 1) == "10";
  }

  /** -1.5 with one decimal prints "-1.-5": the fraction keeps its minus sign. */
  lemma FormatNegativeFraction()
    ensures FormatToDecimals(-1.5, 1) == "-1.-5"
  {
    assert Trunc(-1.5) == -1;
    assert Pow10(1) == 10.0;
    assert RoundToInt(-5.0) == -5;
    assert IntToString(-1) == "-1";
    assert IntToString(-5) == "-5";
    assert PrefixNumber(-5, 1) == "-5";
  }

  /** formatToDecimals as evidently intended: |x| * 10^decimals is rounded once, the
      rounded value is split into integer part and fraction, and the sign is printed
      once, in front. */
  function FormatToDecimalsCorrected(x: real, decimals: nat := 1): string {
    var n := Rounded(x, decimals);
    (if x < 0.0 && n > 0 then "-" else "") + FixedPoint(n, decimals)
  }

  /** |x| * 10^decimals, rounded half up. */
  function Rounded(x: real, decimals: nat): (n: nat)
    ensures n as real - 0.5 <= Abs(x) * Power(10, decimals) as real < n as real + 0.5
  {
    PowerPositive(decimals);
    NonnegativeProduct(Abs(x), Power(10, decimals) as real);
    RoundToInt(Abs(x) * Power(10, decimals) as real)
  }

  /** n / 10^decimals, a dot, and the remainder padded to `decimals` digits. */
  function FixedPoint(n: nat, decimals: nat): string {
    PowerPositive(decimals);
    var scale := Power(10, decimals);
    NatToString(n / scale) + "." + PrefixNumber(n % scale, decimals)
  }

  /** FixedPoint(n, decimals) is digits, a dot and exactly `decimals` digits
      (decimals >= 1), which read back as n. */
  lemma FixedPointShape(n: nat, decimals: nat)
    requires decimals >= 1
    ensures exists i: string, f: string ::
              && FixedPoint(n, decimals) == i + "." + f
              && |i| >= 1 && AllDigits(i)
              && |f| == decimals && AllDigits(f)
              && DigitsValue(i) * Power(10, decimals) + DigitsValue(f) == n
  {
    PowerPositive(decimals);
    var scale := Power(10, decimals);
    DivMod(n, scale);
    var q, r := n / scale, n % scale;
    var i := NatToString(q);
    var f := PrefixNumber(r, decimals);
    NatToStringValue(q);
    NatToStringLength(r, decimals);
    PrefixNumberShape(r, decimals);
    assert DigitsValue(i) == q && DigitsValue(f) == r && |f| == decimals && AllDigits(f);
    assert FixedPoint(n, decimals) == i + "." + f;
  }

  lemma DivMod(n: nat, scale: nat)
    requires scale > 0
    ensures n / scale >= 0 && 0 <= n % scale < scale
    ensures (n / scale) * scale + n % scale == n
  {
  }

  /** The corrected text is a minus sign exactly when x < 0 and the rounded value is
      not zero, followed by the fixed-point digits of |x| * 10^decimals rounded, whose
      fraction has exactly `decimals` digits (decimals >= 1). */
  lemma FormatCorrectedShape(x: real, decimals: nat)
    requires decimals >= 1
    ensures var n := Rounded(x, decimals);
            var r := FormatToDecimalsCorrected(x, decimals);
            && (x < 0.0 && n > 0 ==> r == "-" + FixedPoint(n, decimals))
            && (!(x < 0.0 && n > 0) ==> r == FixedPoint(n, decimals))
            && exists i: string, f: string ::
                 && FixedPoint(n, decimals) == i + "." + f
                 && |i| >= 1 && AllDigits(i)
                 && |f| == decimals && AllDigits(f)
                 && DigitsValue(i) * Power(10, decimals) + DigitsValue(f) == n
  {
    var n := Rounded(x, decimals);
    FixedPointShape(n, decimals);
    assert "" + FixedPoint(n, decimals) == FixedPoint(n, decimals);
  }

  /** The corrected formatting gives the two inputs above their intended text. */
  lemma FormatCorrectedExamples()
    ensures FormatToDecimalsCorrected(0.96, 1) == "1.0"
    ensures FormatToDecimalsCorrected(-1.5, 1) == "-1.5"
  {
    assert Power(10, 1) == 10;
    assert Rounded(0.96, 1) == 10;
    assert NatToString(1) == "1" && NatToString(0) == "0";
    assert PrefixNumber(0, 1) == "0";
    assert Rounded(-1.5, 1) == 15;
    assert NatToString(5) == "5";
    assert PrefixNumber(5, 1) == "5";
  }
}
