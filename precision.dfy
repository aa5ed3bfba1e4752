/**
 * `limit_to_precision`: a value is divided by one in a decimal context of
 * `p` digits with rounding `ROUND_DOWN`, that is, truncated toward zero to
 * `p` significant digits.  The result is described as a decimal triple
 * (sign, coefficient, exponent), the form a decimal number takes.
 */
module Precision {
  import opened Wrappers
  import opened Numbers

  /** 10^k as a natural number. */
  function IntPow10(k: nat): (n: nat)
    ensures n >= 1
  {
    if k == 0 then 1 else 10 * IntPow10(k - 1)
  }

  /** c * 10^e, computed by shifting one decimal place at a time. */
  function Scale(c: real, e: int): real
    decreases if e < 0 then -e else e
  {
    if e == 0 then c
    else if e > 0 then 10.0 * Scale(c, e - 1)
    else Scale(c, e + 1) / 10.0
  }

  lemma ScaleSucc(c: real, e: int)
    ensures Scale(c, e + 1) == 10.0 * Scale(c, e)
  {
  }

  lemma {:induction false} ScaleAdd(c: real, c': real, e: int)
    ensures Scale(c + c', e) == Scale(c, e) + Scale(c', e)
    decreases if e < 0 then -e else e
  {
    if e > 0 {
      ScaleAdd(c, c', e - 1);
    } else if e < 0 {
      ScaleAdd(c, c', e + 1);
    }
  }

  lemma {:induction false} ScaleMonotone(c: real, c': real, e: int)
    ensures c <= c' ==> Scale(c, e) <= Scale(c', e)
    ensures c < c' ==> Scale(c, e) < Scale(c', e)
    decreases if e < 0 then -e else e
  {
    if e > 0 {
      ScaleMonotone(c, c', e - 1);
    } else if e < 0 {
      ScaleMonotone(c, c', e + 1);
    }
  }

  lemma {:induction false} ScaleZero(e: int)
    ensures Scale(0.0, e) == 0.0
    decreases if e < 0 then -e else e
  {
    if e > 0 {
      ScaleZero(e - 1);
    } else if e < 0 {
      ScaleZero(e + 1);
    }
  }

  /** A non-negative c grows at least tenfold when shifted up and shrinks at
      least tenfold when shifted down. */
  lemma {:induction false} ScaleAway(c: real, e: int)
    requires c >= 0.0
    ensures e >= 1 ==> Scale(c, e) >= 10.0 * c
    ensures e <= -1 ==> Scale(c, e) <= c / 10.0
    decreases if e < 0 then -e else e
  {
    if e > 1 {
      ScaleAway(c, e - 1);
    } else if e < -1 {
      ScaleAway(c, e + 1);
    }
  }

  /** The termination measure of the upward shift shrinks by at least one. */
  lemma ReciprocalShrinks(n: real, a: real)
    requires a > 0.0 && 10.0 * a < n
    ensures 0.0 <= n / (10.0 * a) <= n / a - 1.0
  {
    var z := n / a;
    assert z * a == n;
    assert z > 10.0;
    assert (z / 10.0) * (10.0 * a) == n;
    assert n / (10.0 * a) == z / 10.0;
  }

  /** A decimal number: (-1)^negative * coefficient * 10^exponent. */
  datatype Decimal = Decimal(negative: bool, coefficient: nat, exponent: int)
  {
    /** coefficient * 10^exponent */
    function Magnitude(): real
    {
      Scale(coefficient as real, exponent)
    }

    /** One unit in the last digit of the coefficient. */
    function Unit(): real
    {
      Scale(1.0, exponent)
    }

    function Value(): real
    {
      if negative then -Magnitude() else Magnitude()
    }
  }

  /**
   * The truncation of a positive `a` to `p` significant digits: the
   * coefficient has exactly `p` digits and the part cut off is less than
   * one unit of the last digit kept.
   */
  function TruncatePositive(a: real, p: nat): (d: Decimal)
    requires a > 0.0 && p >= 1
    ensures !d.negative
    ensures IntPow10(p - 1) <= d.coefficient < IntPow10(p)
    ensures d.Magnitude() <= a < d.Magnitude() + d.Unit()
    decreases (if a >= IntPow10(p) as real then a else 0.0),
              (if a < IntPow10(p - 1) as real then IntPow10(p) as real / a else 0.0)
  {
    var hi, lo := IntPow10(p) as real, IntPow10(p - 1) as real;
    assert hi == 10.0 * lo;
    if a >= hi then
      var d := TruncatePositive(a / 10.0, p);
      ScaleSucc(d.coefficient as real, d.exponent);
      ScaleSucc(1.0, d.exponent);
      Decimal(false, d.coefficient, d.exponent + 1)
    else if a < lo then
      ReciprocalShrinks(hi, a);
      var d := TruncatePositive(a * 10.0, p);
      ScaleSucc(d.coefficient as real, d.exponent - 1);
      ScaleSucc(1.0, d.exponent - 1);
      Decimal(false, d.coefficient, d.exponent - 1)
    else
      Decimal(false, a.Floor, 0)
  }

  /** A positive decimal with a `p`-digit coefficient is its own truncation. */
  lemma {:induction false} TruncatePositiveExact(c: nat, k: int, p: nat)
    requires p >= 1 && IntPow10(p - 1) <= c < IntPow10(p)
    ensures Scale(c as real, k) > 0.0
    ensures TruncatePositive(Scale(c as real, k), p) == Decimal(false, c, k)
    decreases if k < 0 then -k else k
  {
    var hi, lo := IntPow10(p) as real, IntPow10(p - 1) as real;
    var a := Scale(c as real, k);
    ScaleAway(c as real, k);
    ScaleZero(k);
    ScaleMonotone(0.0, c as real, k);
    if k > 0 {
      ScaleSucc(c as real, k - 1);
      TruncatePositiveExact(c, k - 1, p);
    } else if k < 0 {
      ScaleSucc(c as real, k);
      TruncatePositiveExact(c, k + 1, p);
    }
  }

  /**
   * The truncation of `x` toward zero to `p` significant digits.  The
   * coefficient has at most `p` digits (exactly `p` unless `x` is zero), the
   * sign is kept, the magnitude never grows, and the part cut off is less
   * than one unit of the last digit kept: rounding down, not to nearest.
   */
  function Truncate(x: real, p: nat): (d: Decimal)
    requires p >= 1
    ensures d.coefficient < IntPow10(p)
    ensures x != 0.0 ==> IntPow10(p - 1) <= d.coefficient
    ensures d.negative <==> x < 0.0
    ensures d.Magnitude() <= Abs(x) < d.Magnitude() + d.Unit()
  {
    if x == 0.0 then
      ScaleZero(0);
      Decimal(false, 0, 0)
    else
      var d := TruncatePositive(Abs(x), p);
      Decimal(x < 0.0, d.coefficient, d.exponent)
  }

  /** The truncation keeps the sign, zero included, and never grows. */
  lemma TruncateSign(x: real, p: nat)
    requires p >= 1
    ensures (Truncate(x, p).Value() < 0.0) <==> (x < 0.0)
    ensures (Truncate(x, p).Value() == 0.0) <==> (x == 0.0)
    ensures Abs(Truncate(x, p).Value()) <= Abs(x)
  {
    var d := Truncate(x, p);
    ScaleZero(d.exponent);
    ScaleMonotone(0.0, d.coefficient as real, d.exponent);
  }

  /** Truncating twice to the same precision is truncating once. */
  lemma TruncateIdempotent(x: real, p: nat)
    requires p >= 1
    ensures Truncate(Truncate(x, p).Value(), p) == Truncate(x, p)
  {
    var d := Truncate(x, p);
    if x != 0.0 {
      TruncatePositiveExact(d.coefficient, d.exponent, p);
    }
  }

  /** `limit_to_precision(value, p)`: a context of precision below one is
      refused by the decimal module with a `ValueError`. */
  function LimitToPrecision(x: real, p: nat): (r: Result<real, Error>)
    ensures p == 0 <==> r == Err(ValueError)
    ensures r.Ok? ==> r.value == Truncate(x, p).Value()
  {
    if p == 0 then Err(ValueError) else Ok(Truncate(x, p).Value())
  }
}
