/**
 * Numeric settings and the way a template literal turns them into text.
 *
 * Every numeric setting (font size, line height, offsets, durations) is a
 * decimal value `mantissa / 10^scale`.  `NumToStr` renders it the way a
 * JavaScript template literal does for values of ordinary magnitude: an
 * optional minus sign, the integer part, and the fractional digits with
 * trailing zeros dropped (so 1.20 renders as "1.2" and 48.0 as "48").
 */
module Numbers {

  /** The decimal value mantissa / 10^scale. */
  datatype Num = Num(mantissa: int, scale: nat)

  function Pow10(k: nat): (r: nat)
    ensures r >= 1
  {
    if k == 0 then 1 else 10 * Pow10(k - 1)
  }

  predicate IsDigit(c: char) {
    '0' <= c <= '9'
  }

  predicate AllDigits(s: string) {
    forall i :: 0 <= i < |s| ==> IsDigit(s[i])
  }

  function DigitChar(d: nat): (c: char)
    requires d < 10
    ensures IsDigit(c) && (c as int) - ('0' as int) == d
  {
    (('0' as int) + d) as char
  }

  /** Decimal digits of n, most significant first, without leading zeros. */
  function NatToStr(n: nat): (r: string)
    ensures |r| >= 1 && AllDigits(r)
    ensures r[0] == '0' ==> n == 0 && r == "0"
    decreases n
  {
    if n < 10 then [DigitChar(n)] else NatToStr(n / 10) + [DigitChar(n % 10)]
  }

  /** The value of a string of decimal digits. */
  function DigitsValue(s: string): nat
    requires AllDigits(s)
  {
    if s == [] then 0
    else DigitsValue(s[..|s| - 1]) * 10 + ((s[|s| - 1] as int) - ('0' as int))
  }

  /** Reading back the digits of a natural number gives that number. */
  lemma {:induction false} NatToStrRoundTrip(n: nat)
    ensures DigitsValue(NatToStr(n)) == n
    decreases n
  {
    if n >= 10 {
      var r := NatToStr(n);
      assert r[..|r| - 1] == NatToStr(n / 10);
      NatToStrRoundTrip(n / 10);
    }
  }

  /** Distinct natural numbers have distinct decimal renderings. */
  lemma NatToStrInjective(m: nat, n: nat)
    ensures NatToStr(m) == NatToStr(n) ==> m == n
  {
    NatToStrRoundTrip(m);
    NatToStrRoundTrip(n);
  }

  function IntToStr(i: int): (r: string)
    ensures i < 0 ==> r == "-" + NatToStr(-i)
    ensures i >= 0 ==> r == NatToStr(i)
  {
    if i < 0 then "-" + NatToStr(-i) else NatToStr(i)
  }

  /** The same value with the trailing zeros of the fraction removed. */
  function Normalize(x: Num): (r: Num)
    ensures r.mantissa * Pow10(x.scale) == x.mantissa * Pow10(r.scale)
    ensures r.scale <= x.scale
    ensures r.scale == 0 || r.mantissa % 10 != 0
    decreases x.scale
  {
    if x.scale > 0 && x.mantissa % 10 == 0 then
      var y := Num(x.mantissa / 10, x.scale - 1);
      var r := Normalize(y);
      assert x.mantissa == y.mantissa * 10;
      calc {
        r.mantissa * Pow10(x.scale);
        r.mantissa * (10 * Pow10(y.scale));
        10 * (r.mantissa * Pow10(y.scale));
        10 * (y.mantissa * Pow10(r.scale));
        (10 * y.mantissa) * Pow10(r.scale);
        x.mantissa * Pow10(r.scale);
      }
      r
    else
      x
  }

  function Abs(i: int): nat {
    if i < 0 then -i else i
  }

  /** s padded on the left with '0' up to length k. */
  function PadZeros(s: string, k: nat): (r: string)
    ensures |r| == if |s| < k then k else |s|
    ensures AllDigits(s) ==> AllDigits(r)
    decreases k - |s|
  {
    if |s| < k then PadZeros("0" + s, k) else s
  }

  function Quotient(a: nat, p: nat): nat
    requires p >= 1
  {
    a / p
  }

  function Remainder(a: nat, p: nat): nat
    requires p >= 1
  {
    a % p
  }

  /** What `${x}` produces for a number of ordinary magnitude. */
  function NumToStr(x: Num): string {
    var n := Normalize(x);
    var a := Abs(n.mantissa);
    var p := Pow10(n.scale);
    (if n.mantissa < 0 then "-" else "")
      + NatToStr(Quotient(a, p))
      + (if n.scale == 0 then "" else "." + PadZeros(NatToStr(Remainder(a, p)), n.scale))
  }

  /** A whole number renders as its integer digits. */
  lemma WholeNumToStr(k: int)
    ensures NumToStr(Num(k, 0)) == IntToStr(k)
  {
  }

  /** Two representations of one value render alike: 1.20 is shown as 1.2. */
  lemma {:induction false} NumToStrScaleInvariant(m: int, s: nat)
    ensures NumToStr(Num(m * 10, s + 1)) == NumToStr(Num(m, s))
  {
    var x := Num(m * 10, s + 1);
    assert x.mantissa % 10 == 0;
    assert x.mantissa / 10 == m;
    assert Normalize(x) == Normalize(Num(m, s));
  }

  /** A character of a rendered number: a digit, the sign or the decimal point. */
  predicate NumeralChar(c: char) {
    IsDigit(c) || c == '-' || c == '.'
  }

  /** A rendered number consists of digits, at most a leading sign and a point. */
  lemma NumToStrChars(x: Num)
    ensures forall i :: 0 <= i < |NumToStr(x)| ==> NumeralChar(NumToStr(x)[i])
  {
    var n := Normalize(x);
    var a := Abs(n.mantissa);
    var p := Pow10(n.scale);
    var sign := if n.mantissa < 0 then "-" else "";
    var whole := NatToStr(Quotient(a, p));
    var frac := if n.scale == 0 then "" else "." + PadZeros(NatToStr(Remainder(a, p)), n.scale);
    assert NumToStr(x) == sign + whole + frac;
    assert forall i :: 0 <= i < |frac| ==> NumeralChar(frac[i]);
  }
}
