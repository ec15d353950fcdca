/** Fixed-point decimals as Java's BigDecimal holds them: an unscaled integer
    and a scale, standing for unscaled / 10^scale.  This module renders them
    the way `BigDecimal.toPlainString` does and compares them by value the way
    `BigDecimal.compareTo` does; it also renders `int`s in decimal, as Java's
    string concatenation does. */
module Decimal {

  datatype Amount = Amount(unscaled: int, scale: nat)

  function Pow10(n: nat): (r: nat)
    ensures r >= 1
  {
    if n == 0 then 1 else 10 * Pow10(n - 1)
  }

  predicate IsDigit(c: char) {
    '0' <= c <= '9'
  }

  predicate AllDigits(s: string) {
    forall i :: 0 <= i < |s| ==> IsDigit(s[i])
  }

  function DigitChar(d: nat): (c: char)
    requires d < 10
    ensures IsDigit(c)
  {
    "0123456789"[d]
  }

  function DigitValue(c: char): (d: nat)
    requires IsDigit(c)
    ensures d < 10
  {
    (c as int - '0' as int) as nat
  }

  /** The value of a string of digits read in base ten. */
  function DigitsValue(s: string): nat
    requires AllDigits(s)
  {
    if s == [] then 0 else 10 * DigitsValue(s[..|s| - 1]) + DigitValue(s[|s| - 1])
  }

  /** The decimal digits of `n`, without leading zeros. */
  function NatToString(n: nat): (s: string)
    ensures |s| >= 1 && AllDigits(s)
    ensures |s| > 1 ==> s[0] != '0'
  {
    if n < 10 then [DigitChar(n)] else NatToString(n / 10) + [DigitChar(n % 10)]
  }

  /** Java's decimal rendering of an integer: a minus sign, then the digits. */
  function IntToString(i: int): string {
    if i < 0 then "-" + NatToString(-i) else NatToString(i)
  }

  lemma {:induction false} DigitValueOfChar(d: nat)
    requires d < 10
    ensures DigitValue(DigitChar(d)) == d
  {
  }

  /** Reading the rendered digits back gives the number. */
  lemma {:induction false} NatToStringValue(n: nat)
    ensures DigitsValue(NatToString(n)) == n
  {
    var s := NatToString(n);
    if n >= 10 {
      NatToStringValue(n / 10);
      assert s[..|s| - 1] == NatToString(n / 10);
      DigitValueOfChar(n % 10);
    } else {
      DigitValueOfChar(n);
    }
  }

  lemma NatToStringInjective(m: nat, n: nat)
    requires NatToString(m) == NatToString(n)
    ensures m == n
  {
    NatToStringValue(m);
    NatToStringValue(n);
  }

  /** Distinct integers render as distinct strings. */
  lemma IntToStringInjective(i: int, j: int)
    requires IntToString(i) == IntToString(j)
    ensures i == j
  {
    if i < 0 && j < 0 {
      assert IntToString(i)[1..] == NatToString(-i);
      assert IntToString(j)[1..] == NatToString(-j);
      NatToStringInjective(-i, -j);
    } else if i >= 0 && j >= 0 {
      NatToStringInjective(i, j);
    }
  }

  function Zeros(n: nat): (s: string)
    ensures |s| == n && forall k :: 0 <= k < n ==> s[k] == '0'
  {
    if n == 0 then "" else "0" + Zeros(n - 1)
  }

  /** `s` preceded by zeros up to length `width`. */
  function PadLeft(s: string, width: nat): (r: string)
    ensures |r| == if |s| >= width then |s| else width
  {
    if |s| >= width then s else Zeros(width - |s|) + s
  }

  /** The digits of |unscaled|, with at least one digit before the point. */
  function Magnitude(a: Amount): (s: string)
    ensures |s| >= a.scale + 1 && AllDigits(s)
  {
    PadLeft(NatToString(if a.unscaled < 0 then -a.unscaled else a.unscaled), a.scale + 1)
  }

  /** The digits before the decimal point. */
  function IntegerPart(a: Amount): (s: string)
    ensures |s| >= 1 && AllDigits(s)
  {
    var m := Magnitude(a);
    m[..|m| - a.scale]
  }

  /** The `scale` digits after the decimal point. */
  function FractionPart(a: Amount): (s: string)
    ensures |s| == a.scale && AllDigits(s)
  {
    var m := Magnitude(a);
    m[|m| - a.scale..]
  }

  /** BigDecimal.toPlainString for a non-negative scale. */
  function PlainString(a: Amount): string {
    (if a.unscaled < 0 then "-" else "")
      + IntegerPart(a)
      + (if a.scale == 0 then "" else "." + FractionPart(a))
  }

  lemma TimesTen(a: int, b: int)
    ensures a * (10 * b) == 10 * (a * b)
  {
  }

  lemma {:induction false} DigitsValueAppend(s: string, t: string)
    requires AllDigits(s) && AllDigits(t)
    ensures AllDigits(s + t)
    ensures DigitsValue(s + t) == DigitsValue(s) * Pow10(|t|) + DigitsValue(t)
  {
    assert AllDigits(s + t) by {
      forall i | 0 <= i < |s + t|
        ensures IsDigit((s + t)[i])
      {
        if i < |s| {
          assert (s + t)[i] == s[i];
        } else {
          assert (s + t)[i] == t[i - |s|];
        }
      }
    }
    if t != [] {
      var t' := t[..|t| - 1];
      assert (s + t)[..|s + t| - 1] == s + t';
      assert (s + t)[|s + t| - 1] == t[|t| - 1];
      DigitsValueAppend(s, t');
      var a, b, c, d := DigitsValue(s), Pow10(|t'|), DigitsValue(t'), DigitValue(t[|t| - 1]);
      var ab := a * b;
      assert DigitsValue(s + t) == 10 * (ab + c) + d;
      assert DigitsValue(t) == 10 * c + d;
      assert Pow10(|t|) == 10 * b;
      TimesTen(a, b);
      assert a * Pow10(|t|) == 10 * ab;
    } else {
      assert s + t == s;
    }
  }

  lemma {:induction false} ZerosValue(n: nat)
    ensures AllDigits(Zeros(n)) && DigitsValue(Zeros(n)) == 0
  {
    if n > 0 {
      ZerosValue(n - 1);
      assert Zeros(n)[..n - 1] == Zeros(n - 1);
    }
  }

  /** Leading zeros do not change the value. */
  lemma PadLeftValue(s: string, width: nat)
    requires AllDigits(s)
    ensures AllDigits(PadLeft(s, width))
    ensures DigitsValue(PadLeft(s, width)) == DigitsValue(s)
  {
    if |s| < width {
      ZerosValue(width - |s|);
      DigitsValueAppend(Zeros(width - |s|), s);
    }
  }

  /** The integer and fraction digits together read back as |unscaled|:
      the rendering loses nothing. */
  lemma PlainStringValue(a: Amount)
    ensures DigitsValue(IntegerPart(a)) * Pow10(a.scale) + DigitsValue(FractionPart(a))
            == if a.unscaled < 0 then -a.unscaled else a.unscaled
  {
    MagnitudeValue(a);
    MagnitudeSplit(a);
    DigitsValueAppend(IntegerPart(a), FractionPart(a));
  }

  /** The digits of the magnitude read back as |unscaled|. */
  lemma MagnitudeValue(a: Amount)
    ensures DigitsValue(Magnitude(a)) == if a.unscaled < 0 then -a.unscaled else a.unscaled
  {
    var n := if a.unscaled < 0 then -a.unscaled else a.unscaled;
    NatToStringValue(n);
    PadLeftValue(NatToString(n), a.scale + 1);
  }

  /** The integer part and the fraction part make up the magnitude. */
  lemma MagnitudeSplit(a: Amount)
    ensures Magnitude(a) == IntegerPart(a) + FractionPart(a)
  {
  }

  /** The layout of a plain string with a positive scale: an optional minus
      sign, digits, a point, then exactly `scale` digits. */
  lemma PlainStringShape(a: Amount)
    requires a.scale > 0
    ensures var p := PlainString(a);
      var sign := if a.unscaled < 0 then 1 else 0;
      && |p| == sign + |IntegerPart(a)| + 1 + a.scale
      && (a.unscaled < 0 <==> p[0] == '-')
      && p[|p| - a.scale - 1] == '.'
      && AllDigits(p[sign..|p| - a.scale - 1])
      && AllDigits(p[|p| - a.scale..])
  {
    var p := PlainString(a);
    var minus: string := if a.unscaled < 0 then "-" else "";
    var ip, fp := IntegerPart(a), FractionPart(a);
    assert p == minus + ip + ("." + fp);
    var k := |minus| + |ip|;
    assert p[|minus|..k] == ip;
    assert p[k] == '.';
    assert p[k + 1..] == fp;
    if a.unscaled >= 0 {
      assert p[0] == ip[0];
    }
  }

  /** 1250 at scale 2 is written "12.50". */
  lemma PlainStringExample()
    ensures PlainString(Amount(1250, 2)) == "12.50"
  {
    assert NatToString(1) == "1";
    assert NatToString(12) == "12";
    assert NatToString(125) == "125";
    assert Magnitude(Amount(1250, 2)) == "1250";
    assert IntegerPart(Amount(1250, 2)) == "12";
    assert FractionPart(Amount(1250, 2)) == "50";
  }

  /** BigDecimal.compareTo: the sign of a - b, whatever the two scales. */
  function CompareTo(a: Amount, b: Amount): (r: int)
    ensures -1 <= r <= 1
  {
    var x := a.unscaled * Pow10(b.scale);
    var y := b.unscaled * Pow10(a.scale);
    if x < y then -1 else if x == y then 0 else 1
  }

  /** The number an amount stands for: `unscaled / 10^scale`. */
  function RealValue(a: Amount): real {
    (a.unscaled as real) / (Pow10(a.scale) as real)
  }

  /** Comparing two fractions with positive denominators by cross-multiplying. */
  lemma CrossMultiply(u: real, v: real, p: real, q: real)
    requires p > 0.0 && q > 0.0
    ensures (u / p < v / q <==> u * q < v * p) && (u / p == v / q <==> u * q == v * p)
  {
    var x, y := u / p, v / q;
    assert u == x * p && v == y * q;
    assert u * q - v * p == (x - y) * (p * q);
  }

  /** compareTo is the sign of the difference of the two values. */
  lemma CompareToSign(a: Amount, b: Amount)
    ensures CompareTo(a, b) < 0 <==> RealValue(a) < RealValue(b)
    ensures CompareTo(a, b) == 0 <==> RealValue(a) == RealValue(b)
    ensures CompareTo(a, b) > 0 <==> RealValue(a) > RealValue(b)
  {
    var u, v := a.unscaled as real, b.unscaled as real;
    var p, q := Pow10(a.scale) as real, Pow10(b.scale) as real;
    CrossMultiply(u, v, p, q);
    assert (a.unscaled * Pow10(b.scale)) as real == u * q;
    assert (b.unscaled * Pow10(a.scale)) as real == v * p;
  }

  /** Appending a trailing zero (raising the scale by one) leaves the
      comparison unchanged: compareTo compares values, not representations. */
  lemma CompareToIgnoresScale(a: Amount, b: Amount)
    ensures CompareTo(Amount(a.unscaled * 10, a.scale + 1), b) == CompareTo(a, b)
  {
    var a' := Amount(a.unscaled * 10, a.scale + 1);
    assert Pow10(a'.scale) == 10 * Pow10(a.scale);
    assert a'.unscaled * Pow10(b.scale) == 10 * (a.unscaled * Pow10(b.scale));
    assert b.unscaled * Pow10(a'.scale) == 10 * (b.unscaled * Pow10(a.scale));
  }
}
