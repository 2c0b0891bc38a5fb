/**
 * The part of Python's `decimal.Decimal` the report total uses: exact addition (the sum keeps the
 * smaller exponent), `Decimal(text)` for plain decimal text, and `str(Decimal)`.
 */
module Decimals {
  import opened Wrappers
  import opened Text

  /** The number `coef / 10^scale`; `scale` is minus the Decimal's exponent. */
  datatype Dec = Dec(coef: int, scale: nat)

  function Pow10(n: nat): (p: nat)
    ensures p >= 1
  {
    if n == 0 then 1 else 10 * Pow10(n - 1)
  }

  lemma {:induction false} Pow10Add(m: nat, n: nat)
    ensures Pow10(m + n) == Pow10(m) * Pow10(n)
  {
    if m > 0 {
      Pow10Add(m - 1, n);
      assert Pow10(m + n) == 10 * Pow10(m - 1 + n);
    }
  }

  /** The exact value a Decimal denotes. */
  function Value(d: Dec): real {
    d.coef as real / Pow10(d.scale) as real
  }

  /** The same number written with `extra` more fractional digits. */
  function Rescale(d: Dec, extra: nat): Dec {
    Dec(d.coef * Pow10(extra), d.scale + extra)
  }

  lemma CancelFactor(c: real, a: real, b: real)
    requires a > 0.0 && b > 0.0
    ensures (c * a) / (a * b) == c / b
  {
    var x := c / b;
    assert x * b == c;
    assert x * (a * b) == c * a;
  }

  lemma SumOver(x: real, y: real, p: real)
    requires p > 0.0
    ensures (x + y) / p == x / p + y / p
  {
  }

  lemma RealOfProduct(c: int, p: nat)
    ensures (c * p) as real == c as real * p as real
  {
  }

  lemma RescaleValue(d: Dec, extra: nat)
    ensures Value(Rescale(d, extra)) == Value(d)
  {
    var c, a, b := d.coef, Pow10(extra), Pow10(d.scale);
    assert Pow10(d.scale + extra) == a * b by {
      Pow10Add(extra, d.scale);
    }
    RealOfProduct(c, a);
    RealOfProduct(a, b);
    assert Value(Rescale(d, extra)) == (c as real * a as real) / (a as real * b as real);
    CancelFactor(c as real, a as real, b as real);
  }

  /** `a + b`: exact, with the exponent of the operand that has more fractional digits. */
  function Add(a: Dec, b: Dec): (r: Dec)
    ensures r.scale == if a.scale >= b.scale then a.scale else b.scale
  {
    if a.scale >= b.scale then
      var b' := Rescale(b, a.scale - b.scale);
      Dec(a.coef + b'.coef, a.scale)
    else
      var a' := Rescale(a, b.scale - a.scale);
      Dec(a'.coef + b.coef, b.scale)
  }

  /** Decimal addition is exact: the value of a sum is the sum of the values. */
  lemma AddValue(a: Dec, b: Dec)
    ensures Value(Add(a, b)) == Value(a) + Value(b)
  {
    if a.scale >= b.scale {
      var b' := Rescale(b, a.scale - b.scale);
      RescaleValue(b, a.scale - b.scale);
      SumOver(a.coef as real, b'.coef as real, Pow10(a.scale) as real);
      assert (a.coef + b'.coef) as real == a.coef as real + b'.coef as real;
    } else {
      var a' := Rescale(a, b.scale - a.scale);
      RescaleValue(a, b.scale - a.scale);
      SumOver(a'.coef as real, b.coef as real, Pow10(b.scale) as real);
      assert (a'.coef + b.coef) as real == a'.coef as real + b.coef as real;
    }
  }

  lemma AllDigitsAppend(a: string, b: string)
    requires AllDigits(a) && AllDigits(b)
    ensures AllDigits(a + b)
  {
    assert forall i :: 0 <= i < |a + b| ==> (a + b)[i] == if i < |a| then a[i] else b[i - |a|];
  }

  /**
   * `Decimal(text)` for text of the plain form: an optional sign, digits, optionally a point and
   * more digits, at least one digit in all. Anything else does not parse.
   */
  function Parse(s: string): Option<Dec> {
    var negative := |s| > 0 && s[0] == '-';
    var body := if |s| > 0 && (s[0] == '-' || s[0] == '+') then s[1..] else s;
    FromParts(negative, Split(body, '.'))
  }

  /** The value of the pieces of a body split at its points: one or two runs of digits. */
  function FromParts(negative: bool, parts: seq<string>): Option<Dec> {
    if |parts| == 1 && |parts[0]| > 0 && AllDigits(parts[0]) then
      var v: int := DigitsValue(parts[0]);
      Some(Dec(if negative then -v else v, 0))
    else if |parts| == 2 && |parts[0]| + |parts[1]| > 0 && AllDigits(parts[0]) && AllDigits(parts[1]) then
      AllDigitsAppend(parts[0], parts[1]);
      var v: int := DigitsValue(parts[0] + parts[1]);
      Some(Dec(if negative then -v else v, |parts[1]|))
    else None
  }

  /** Text that starts with a digit has no sign: all of it is the body. */
  lemma ParseUnsigned(s: string)
    requires |s| > 0 && IsDigit(s[0])
    ensures Parse(s) == FromParts(false, Split(s, '.'))
  {
  }

  function Abs(i: int): nat {
    if i < 0 then -i else i
  }

  /** `str(d)`: plain notation while the adjusted exponent is at least -6, scientific below that. */
  function ToString(d: Dec): string {
    var digits := NatToString(Abs(d.coef));
    var sign := if d.coef < 0 then "-" else "";
    if d.scale == 0 then sign + digits
    else if |digits| > d.scale then
      sign + digits[..|digits| - d.scale] + "." + digits[|digits| - d.scale..]
    else if d.scale - |digits| <= 5 then
      sign + "0." + Repeat('0', d.scale - |digits|) + digits
    else
      sign + digits[..1] + (if |digits| > 1 then "." + digits[1..] else "") + "E" + IntToString(|digits| - 1 - d.scale)
  }

  /** When `str` writes a Decimal in plain notation. */
  predicate Plain(d: Dec) {
    d.scale == 0 || |NatToString(Abs(d.coef))| > d.scale || d.scale - |NatToString(Abs(d.coef))| <= 5
  }

  lemma {:induction false} DigitsValueOfZeros(n: nat)
    ensures AllDigits(Repeat('0', n)) && DigitsValue(Repeat('0', n)) == 0
  {
    if n > 0 {
      DigitsValueOfZeros(n - 1);
      var z := Repeat('0', n);
      assert z[..n - 1] == Repeat('0', n - 1);
    }
  }

  /** Leading zeros do not change the value of a digit string. */
  lemma {:induction false} DigitsValueLeadingZeros(n: nat, d: string)
    requires AllDigits(d)
    ensures AllDigits(Repeat('0', n) + d) && DigitsValue(Repeat('0', n) + d) == DigitsValue(d)
  {
    var z := Repeat('0', n);
    DigitsValueOfZeros(n);
    AllDigitsAppend(z, d);
    if |d| > 0 {
      var k := |d| - 1;
      DigitsValueLeadingZeros(n, d[..k]);
      assert (z + d)[..|z + d| - 1] == z + d[..k];
      assert (z + d)[|z + d| - 1] == d[k];
    } else {
      assert z + d == z;
    }
  }

  lemma NoPointInDigits(d: string)
    requires AllDigits(d)
    ensures '.' !in d
  {
    forall i | 0 <= i < |d|
      ensures d[i] != '.'
    {
      assert IsDigit(d[i]);
    }
  }

  lemma SplitDigitsAtPoint(a: string, b: string)
    requires AllDigits(a) && AllDigits(b)
    ensures Split(a + "." + b, '.') == [a, b]
  {
    NoPointInDigits(a);
    NoPointInDigits(b);
    assert a + "." + b == a + ['.'] + b;
    SplitAtFirstSeparator(a, '.', b);
    SplitWithoutSeparator(b, '.');
  }

  /** The sign and the body of the text `str` writes. */
  lemma ParseSigned(sign: string, body: string, v: Dec)
    requires sign == "" || sign == "-"
    requires |body| > 0 && IsDigit(body[0])
    requires Parse(body) == Some(v)
    ensures Parse(sign + body) == Some(Dec(if sign == "-" then -v.coef else v.coef, v.scale))
  {
    if sign == "-" {
      assert (sign + body)[0] == '-';
      assert (sign + body)[1..] == body;
    } else {
      assert sign + body == body;
    }
  }

  /** The text `str` writes after the sign, for a non-negative coefficient `n`. */
  function PlainBody(n: nat, scale: nat): string {
    var digits := NatToString(n);
    if scale == 0 then digits
    else if |digits| > scale then digits[..|digits| - scale] + "." + digits[|digits| - scale..]
    else "0" + "." + (Repeat('0', scale - |digits|) + digits)
  }

  lemma ParseIntegralBody(n: nat)
    ensures Parse(PlainBody(n, 0)) == Some(Dec(n, 0))
  {
    var digits := NatToString(n);
    DigitsValueOfNatToString(n);
    NoPointInDigits(digits);
    SplitWithoutSeparator(digits, '.');
    ParseUnsigned(digits);
  }

  /** `Decimal(a + "." + b)` for digit strings `a` (not empty) and `b`. */
  lemma ParsePoint(a: string, b: string)
    requires |a| > 0 && AllDigits(a) && AllDigits(b)
    ensures AllDigits(a + b)
    ensures Parse(a + "." + b) == Some(Dec(DigitsValue(a + b), |b|))
  {
    AllDigitsAppend(a, b);
    SplitDigitsAtPoint(a, b);
    assert (a + "." + b)[0] == a[0];
    ParseUnsigned(a + "." + b);
    assert FromParts(false, [a, b]) == Some(Dec(DigitsValue(a + b), |b|));
  }

  lemma ParseLongBody(n: nat, scale: nat)
    requires scale > 0 && |NatToString(n)| > scale
    ensures Parse(PlainBody(n, scale)) == Some(Dec(n, scale))
  {
    var digits := NatToString(n);
    DigitsValueOfNatToString(n);
    var a, b := digits[..|digits| - scale], digits[|digits| - scale..];
    assert a + b == digits;
    assert PlainBody(n, scale) == a + "." + b;
    ParsePoint(a, b);
  }

  /** The digits after "0." that `str` writes for a coefficient shorter than the scale, and their value. */
  function ShortDigits(n: nat, scale: nat): string
    requires |NatToString(n)| <= scale
  {
    Repeat('0', scale - |NatToString(n)|) + NatToString(n)
  }

  lemma ShortDigitsValue(n: nat, scale: nat)
    requires |NatToString(n)| <= scale
    ensures AllDigits(ShortDigits(n, scale)) && |ShortDigits(n, scale)| == scale
    ensures AllDigits("0" + ShortDigits(n, scale)) && DigitsValue("0" + ShortDigits(n, scale)) == n
  {
    var digits := NatToString(n);
    var b := ShortDigits(n, scale);
    DigitsValueOfNatToString(n);
    DigitsValueLeadingZeros(scale - |digits|, digits);
    DigitsValueLeadingZeros(1, b);
    assert Repeat('0', 1) == "0";
  }

  lemma ParseShortBody(n: nat, scale: nat)
    requires scale > 0 && |NatToString(n)| <= scale
    ensures Parse(PlainBody(n, scale)) == Some(Dec(n, scale))
  {
    var b := ShortDigits(n, scale);
    assert PlainBody(n, scale) == "0" + "." + b;
    ShortDigitsValue(n, scale);
    ParsePoint("0", b);
  }

  lemma ParsePlainBody(n: nat, scale: nat)
    ensures |PlainBody(n, scale)| > 0 && IsDigit(PlainBody(n, scale)[0])
    ensures Parse(PlainBody(n, scale)) == Some(Dec(n, scale))
  {
    var digits := NatToString(n);
    if scale == 0 {
      ParseIntegralBody(n);
    } else if |digits| > scale {
      ParseLongBody(n, scale);
      assert PlainBody(n, scale)[0] == digits[0];
    } else {
      ParseShortBody(n, scale);
    }
  }

  /** In plain notation `str` writes the sign, then the body. */
  lemma ToStringPlain(d: Dec)
    requires Plain(d)
    ensures ToString(d) == (if d.coef < 0 then "-" else "") + PlainBody(Abs(d.coef), d.scale)
  {
  }

  /** Reading back what `str` writes in plain notation gives the same Decimal, exponent included. */
  lemma ParseToString(d: Dec)
    requires Plain(d)
    ensures Parse(ToString(d)) == Some(d)
  {
    var sign := if d.coef < 0 then "-" else "";
    var body := PlainBody(Abs(d.coef), d.scale);
    ParsePlainBody(Abs(d.coef), d.scale);
    ParseSigned(sign, body, Dec(Abs(d.coef), d.scale));
    ToStringPlain(d);
  }
}
