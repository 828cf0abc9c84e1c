/**
 * Java number semantics the services depend on: `Long.parseLong`, `new BigDecimal(String)`,
 * `Number.intValue` (32-bit wrap-around) and `BigDecimal.setScale`/`divide` with
 * `RoundingMode.HALF_UP`. Amounts of money (`BigDecimal`) are exact `real`s.
 */
module JavaNumbers {
  import opened Wrappers
  import opened JavaText

  const INT_MIN: int := -0x8000_0000
  const INT_MAX: int := 0x7FFF_FFFF
  const LONG_MIN: int := -0x8000_0000_0000_0000
  const LONG_MAX: int := 0x7FFF_FFFF_FFFF_FFFF

  predicate InInt(x: int) { INT_MIN <= x <= INT_MAX }
  predicate InLong(x: int) { LONG_MIN <= x <= LONG_MAX }

  /** Two's-complement narrowing to 32 bits, as `(int)` on a long and `Number.intValue()` do. */
  function Wrap32(x: int): (r: int)
    ensures InInt(r)
    ensures InInt(x) ==> r == x
    ensures (r - x) % 0x1_0000_0000 == 0
  {
    (x - INT_MIN) % 0x1_0000_0000 + INT_MIN
  }

  function DigitValue(c: char): nat
    requires IsAsciiDigit(c)
  {
    c as int - '0' as int
  }

  /** The value of a string of ASCII digits read from left to right. */
  function DigitsValue(s: string): nat
    requires AllDigits(s)
  {
    if |s| == 0 then 0 else 10 * DigitsValue(s[..|s| - 1]) + DigitValue(s[|s| - 1])
  }

  lemma {:induction false} DigitsOfNat(n: nat)
    ensures DigitsValue(NatToString(n)) == n
    decreases n
  {
    if n >= 10 {
      DigitsOfNat(n / 10);
      var s := NatToString(n);
      assert s[..|s| - 1] == NatToString(n / 10);
    }
  }

  /** `Long.parseLong`: an optional '+' or '-', then one or more ASCII digits, in 64-bit range. */
  function ParseLong(s: string): (r: Option<int>)
    ensures r.Some? ==> InLong(r.value)
  {
    if |s| == 0 then None
    else
      var signed := s[0] == '-' || s[0] == '+';
      var digits := if signed then s[1..] else s;
      if |digits| == 0 || !AllDigits(digits) then None
      else
        var v: int := if s[0] == '-' then -(DigitsValue(digits) as int) else DigitsValue(digits);
        if InLong(v) then Some(v) else None
  }

  /** `Long.parseLong(Long.toString(n)) == n`. */
  lemma ParseLongOfToString(n: int)
    requires InLong(n)
    ensures ParseLong(IntToString(n)) == Some(n)
  {
    var s := IntToString(n);
    var digits := NatToString(if n < 0 then -n else n);
    DigitsOfNat(if n < 0 then -n else n);
    if n < 0 {
      assert s[0] == '-' && s[1..] == digits;
    } else {
      assert s == digits && IsAsciiDigit(s[0]);
    }
    var signed := s[0] == '-' || s[0] == '+';
    assert signed <==> n < 0;
    assert (if signed then s[1..] else s) == digits;
  }

  function Pow10(n: nat): (r: real)
    ensures r >= 1.0
  {
    if n == 0 then 1.0 else 10.0 * Pow10(n - 1)
  }

  /** 10 raised to an integer exponent. */
  function Scale10(e: int): (r: real)
    ensures r > 0.0
  {
    if e >= 0 then Pow10(e) else 1.0 / Pow10(-e)
  }

  /** Index of the first 'e' or 'E', or `|s|`. */
  function ExponentMark(s: string): (r: nat)
    ensures r <= |s|
    ensures forall k :: 0 <= k < r ==> s[k] != 'e' && s[k] != 'E'
  {
    if |s| == 0 then 0
    else if s[0] == 'e' || s[0] == 'E' then 0
    else 1 + ExponentMark(s[1..])
  }

  /** The exponent after 'e': an optional sign and at least one digit, within `int`. */
  function ParseExponent(s: string): (r: Option<int>)
    ensures r.Some? ==> InInt(r.value)
  {
    if |s| == 0 then None
    else
      var signed := s[0] == '-' || s[0] == '+';
      var digits := if signed then s[1..] else s;
      if |digits| == 0 || !AllDigits(digits) then None
      else
        var v: int := if s[0] == '-' then -(DigitsValue(digits) as int) else DigitsValue(digits);
        if InInt(v) then Some(v) else None
  }

  /**
   * `new BigDecimal(String)`: an optional sign, digits with at most one '.', at least one
   * digit, and an optional exponent; the scale (fraction digits minus exponent) must fit in
   * an `int`. Anything else throws `NumberFormatException`, modelled as `None`.
   */
  function ParseBigDecimal(s: string): (r: Option<real>)
  {
    if |s| == 0 then None
    else if s[0] == '-' then Negated(ParseUnsignedDecimal(s[1..]))
    else if s[0] == '+' then ParseUnsignedDecimal(s[1..])
    else ParseUnsignedDecimal(s)
  }

  function Negated(x: Option<real>): Option<real> {
    if x.Some? then Some(-x.value) else None
  }

  /** The text after the sign: the mantissa up to the first 'e' or 'E', then the exponent. */
  function ParseUnsignedDecimal(body: string): Option<real>
  {
    var e := ExponentMark(body);
    var mantissa := body[..e];
    var exponent := if e == |body| then Some(0) else ParseExponent(body[e + 1..]);
    var dot := IndexOf(mantissa, '.');
    var whole := mantissa[..dot];
    var fraction := if dot < |mantissa| then mantissa[dot + 1..] else [];
    if !AllDigits(whole) || !AllDigits(fraction) || |whole| + |fraction| == 0 || exponent.None? then None
    else if !InInt(|fraction| - exponent.value) then None
    else Some(DecimalValue(whole + fraction, |fraction|, exponent.value))
  }

  /** The amount the digits stand for with `fractionDigits` of them after the point, times
      10 to the exponent. */
  function DecimalValue(digits: string, fractionDigits: nat, exponent: int): real
    requires AllDigits(digits)
  {
    (DigitsValue(digits) as real / Pow10(fractionDigits)) * Scale10(exponent)
  }

  /** With no fraction digits and no exponent the amount is the digits' value. */
  lemma DecimalValueOfInteger(digits: string)
    requires AllDigits(digits)
    ensures DecimalValue(digits, 0, 0) == DigitsValue(digits) as real
  {
  }

  /** An integer's decimal text parses back to the same amount. */
  lemma ParseBigDecimalOfToString(n: int)
    ensures ParseBigDecimal(IntToString(n)) == Some(n as real)
  {
    var s := IntToString(n);
    var digits := NatToString(if n < 0 then -n else n);
    DigitsOfNat(if n < 0 then -n else n);
    if n < 0 {
      assert s == "-" + digits;
    } else {
      assert s == digits;
    }
    ParseBigDecimalOfDigits(s, digits);
  }

  /** Digits after an optional '-' read as their value, with that sign. */
  lemma ParseBigDecimalOfDigits(s: string, digits: string)
    requires |digits| >= 1 && AllDigits(digits) && (s == digits || s == "-" + digits)
    ensures ParseBigDecimal(s) == Some(if s[0] == '-' then -(DigitsValue(digits) as real) else DigitsValue(digits) as real)
  {
    UnsignedDigits(digits);
    if s == digits {
      assert IsAsciiDigit(s[0]);
    } else {
      NegatedDigits(s, digits);
    }
  }

  lemma NegatedDigits(s: string, digits: string)
    requires |s| >= 1 && s[0] == '-' && s[1..] == digits
    requires ParseUnsignedDecimal(digits).Some?
    ensures ParseBigDecimal(s) == Some(-ParseUnsignedDecimal(digits).value)
  {
  }

  /** Plain digits read as their value. */
  lemma UnsignedDigits(digits: string)
    requires |digits| >= 1 && AllDigits(digits)
    ensures ParseUnsignedDecimal(digits) == Some(DigitsValue(digits) as real)
  {
    assert ExponentMark(digits) == |digits| by {
      DigitsHaveNoMark(digits);
    }
    assert digits[..|digits|] == digits;
    assert IndexOf(digits, '.') == |digits| by {
      assert '.' !in digits;
    }
    assert digits + [] == digits;
    DecimalValueOfInteger(digits);
  }

  lemma DigitsHaveNoMark(s: string)
    requires AllDigits(s)
    ensures ExponentMark(s) == |s|
  {
    if |s| > 0 {
      DigitsHaveNoMark(s[1..]);
    }
  }

  /**
   * `setScale(scale, RoundingMode.HALF_UP)`: the nearest multiple of 10^-scale, ties
   * rounded away from zero.
   */
  function RoundHalfUp(x: real, scale: nat): real
  {
    RoundToUnit(x, Pow10(scale))
  }

  /** Rounds `x` to the nearest multiple of `1/f`, ties away from zero. */
  function RoundToUnit(x: real, f: real): real
    requires f >= 1.0
  {
    if x >= 0.0 then (x * f + 0.5).Floor as real / f
    else -(((-x) * f + 0.5).Floor as real / f)
  }

  lemma RoundNonNegative(y: real, f: real)
    requires y >= 0.0 && f >= 1.0
    ensures -0.5 / f < RoundToUnit(y, f) - y <= 0.5 / f && RoundToUnit(y, f) >= 0.0
  {
    var k := (y * f + 0.5).Floor as real;
    assert y * f + 0.5 - 1.0 < k <= y * f + 0.5;
    assert k / f - y == (k - y * f) / f;
    assert -0.5 < k - y * f <= 0.5;
    DivideBounds(k - y * f, f);
  }

  lemma DivideBounds(d: real, f: real)
    requires f >= 1.0 && -0.5 < d <= 0.5
    ensures -0.5 / f < d / f <= 0.5 / f
  {
  }

  lemma RoundToUnitError(x: real, f: real)
    requires f >= 1.0
    ensures -0.5 / f <= RoundToUnit(x, f) - x <= 0.5 / f
  {
    if x >= 0.0 {
      RoundNonNegative(x, f);
    } else {
      RoundNonNegative(-x, f);
      assert RoundToUnit(x, f) == -RoundToUnit(-x, f);
    }
  }

  /** HALF_UP rounding moves a value by at most half a unit of the last kept place. */
  lemma RoundHalfUpError(x: real, scale: nat)
    ensures -0.5 / Pow10(scale) <= RoundHalfUp(x, scale) - x <= 0.5 / Pow10(scale)
  {
    RoundToUnitError(x, Pow10(scale));
  }

  lemma RoundToUnitOnGrid(x: real, f: real, k: int)
    requires f >= 1.0 && x * f == k as real
    ensures RoundToUnit(x, f) == x
  {
    if x >= 0.0 {
      assert (x * f + 0.5).Floor == k;
      assert x == k as real / f;
    } else {
      assert ((-x) * f + 0.5).Floor == -k;
      assert -x == (-k) as real / f;
    }
  }

  lemma RoundToUnitExact(k: int, f: real)
    requires f >= 1.0
    ensures RoundToUnit(k as real / f, f) == k as real / f
  {
    RoundToUnitOnGrid(k as real / f, f, k);
  }

  /** A value already on the grid of 10^-scale is left as it is. */
  lemma RoundHalfUpExact(k: int, scale: nat)
    ensures RoundHalfUp(k as real / Pow10(scale), scale) == k as real / Pow10(scale)
  {
    RoundToUnitExact(k, Pow10(scale));
  }

  /** Rounding keeps the sign. */
  lemma RoundHalfUpSign(x: real, scale: nat)
    ensures x >= 0.0 ==> RoundHalfUp(x, scale) >= 0.0
    ensures x <= 0.0 ==> RoundHalfUp(x, scale) <= 0.0
  {
    var f := Pow10(scale);
    if x >= 0.0 {
      RoundNonNegative(x, f);
    } else {
      RoundNonNegative(-x, f);
      assert RoundToUnit(x, f) == -RoundToUnit(-x, f);
    }
  }
}
