/**
 * Longitude arithmetic of the chart service: Python's floor division and
 * floor modulo by the two divisors it uses (30 degrees per sign, 360 per
 * circle), the `to360` normalisation, and the split of a longitude into a
 * sign index and a degree within the sign.
 */
module Longitude {

  /** The divisors the service applies to longitudes: one sign and one full circle. */
  type Divisor = m: real | m == 30.0 || m == 360.0 witness 30.0

  const SignWidth: Divisor := 30.0
  const Circle: Divisor := 360.0

  /** An ecliptic longitude as the ephemeris reports it: within one turn. */
  type Longitude = x: real | 0.0 <= x < 360.0

  /** Python's `x // m` for a float `x`: the floor of the quotient. */
  function FloorDiv(x: real, m: Divisor): (q: int)
    ensures q as real <= x / m < q as real + 1.0
  {
    (x / m).Floor
  }

  lemma FloorDivBounds(x: real, m: Divisor)
    ensures FloorDiv(x, m) as real * m <= x < FloorDiv(x, m) as real * m + m
  {
    if m == 30.0 {
    } else {
    }
  }

  /**
   * Python's `x % m` for a positive divisor `m`: the remainder after taking
   * out whole multiples of `m` below `x`, so never negative, whatever the sign of `x`.
   */
  function FloorMod(x: real, m: Divisor): (r: real)
    ensures 0.0 <= r < m
    ensures FloorDiv(x, m) as real * m + r == x
  {
    FloorDivBounds(x, m);
    x - FloorDiv(x, m) as real * m
  }

  /** The quotient and remainder are the only ones with the remainder in [0, m). */
  lemma FloorDivUnique(x: real, m: Divisor, k: int)
    requires k as real * m <= x < k as real * m + m
    ensures FloorDiv(x, m) == k
    ensures FloorMod(x, m) == x - k as real * m
  {
    FloorDivBounds(x, m);
    var f := FloorDiv(x, m);
    if m == 30.0 {
      assert f as real * 30.0 <= x < k as real * 30.0 + 30.0;
      assert k as real * 30.0 <= x < f as real * 30.0 + 30.0;
    } else {
      assert f as real * 360.0 <= x < k as real * 360.0 + 360.0;
      assert k as real * 360.0 <= x < f as real * 360.0 + 360.0;
    }
  }

  /** Adding whole multiples of the divisor does not change the remainder. */
  lemma FloorModShift(x: real, m: Divisor, k: int)
    ensures FloorMod(x + k as real * m, m) == FloorMod(x, m)
  {
    var f := FloorDiv(x, m);
    FloorDivBounds(x, m);
    assert (f + k) as real * m == f as real * m + k as real * m by {
      if m == 30.0 { } else { }
    }
    FloorDivUnique(x + k as real * m, m, f + k);
  }

  /** A value already in [0, m) is its own remainder. */
  lemma FloorModOfReduced(x: real, m: Divisor)
    requires 0.0 <= x < m
    ensures FloorMod(x, m) == x && FloorDiv(x, m) == 0
  {
    FloorDivUnique(x, m, 0);
  }

  /**
   * `to360`: a negative longitude gets one turn added. It leaves the
   * longitude's position on the circle unchanged and brings any value of
   * [-360, 360) into [0, 360).
   */
  function To360(lon: real): (r: real)
    ensures lon >= 0.0 ==> r == lon
    ensures -360.0 <= lon < 360.0 ==> 0.0 <= r < 360.0
    ensures FloorMod(r, Circle) == FloorMod(lon, Circle)
  {
    if lon >= 0.0 then lon
    else
      FloorModShift(lon, Circle, 1);
      lon + 360.0
  }

  /** `int(lon // 30)`: the index of the sign a longitude lies in. */
  function SignOf(lon: Longitude): (i: int)
    ensures 0 <= i < 12
    ensures i as real * 30.0 <= lon < i as real * 30.0 + 30.0
  {
    FloorDivBounds(lon, SignWidth);
    FloorDiv(lon, SignWidth)
  }

  /** `lon % 30`: how far into its sign a longitude lies. */
  function DegreeInSign(lon: real): (d: real)
    ensures 0.0 <= d < 30.0
  {
    FloorMod(lon, SignWidth)
  }

  /** A longitude is recovered from its sign index and its degree within the sign. */
  lemma SignAndDegree(lon: Longitude)
    ensures SignOf(lon) as real * 30.0 + DegreeInSign(lon) == lon
  {
  }
}
