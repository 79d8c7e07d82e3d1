/**
 * The C++ arithmetic the controller relies on, stated over unbounded
 * integers and exact reals: magnitudes, the `abs` macro on a `double`
 * and the truncating conversion `int(x)` of a `double`.
 */
module Numeric {

  /** The magnitude of a speed, as lines 112-116 of `motor.cpp` compute it. */
  function Abs(x: int): (r: nat)
    ensures r == x || r == -x
  {
    if x < 0 then -x else x
  }

  /** The `abs` macro on (idealised) doubles. */
  function RealAbs(x: real): (r: real)
    ensures r >= 0.0 && (r == x || r == -x)
  {
    if x > 0.0 then x else -x
  }

  /** `int(x)`: C++ drops the fractional part, rounding toward zero. */
  function Trunc(x: real): (r: int)
    ensures 0.0 <= x ==> r as real <= x < r as real + 1.0
    ensures x < 0.0 ==> r as real - 1.0 < x <= r as real
  {
    if x >= 0.0 then x.Floor else -((-x).Floor)
  }

  /** Truncation is the only integer within less than one of `x` on the side of zero. */
  lemma TruncUnique(x: real, q: int)
    requires 0.0 <= x ==> q as real <= x < q as real + 1.0
    requires x < 0.0 ==> q as real - 1.0 < x <= q as real
    ensures q == Trunc(x)
  {
  }

  /** Truncation never moves a value away from zero and keeps its sign. */
  lemma TruncTowardZero(x: real)
    ensures RealAbs(Trunc(x) as real) <= RealAbs(x)
    ensures x >= 0.0 ==> Trunc(x) >= 0
    ensures x <= 0.0 ==> Trunc(x) <= 0
  {
  }
}
