/** The numbers derived from the sample counts: the inside test, the estimate
    of pi, the hit percentage and the relative error. Floating point is
    modelled by exact reals. */
module Estimate {

  /** `np.pi` as the real number given by the decimal it prints as (the
      double itself differs from it beyond the sixteenth digit). */
  const NpPi: real := 3.141592653589793

  /** Whether the point (x, y) lies in the closed unit disc: `x**2 + y**2 <= 1`. */
  predicate Inside(x: real, y: real) {
    x * x + y * y <= 1.0
  }

  function Abs(v: real): (r: real)
    ensures r >= 0.0 && (r == v || r == -v)
  {
    if v < 0.0 then -v else v
  }

  /** The estimate `4 * points_inside / total_points`. Its bounds hold when the
      inside count does not exceed the total, as the run's invariant keeps. */
  function PiEstimate(inside: nat, total: nat): (r: real)
    requires 0 < total
    ensures 0.0 <= r
    ensures inside <= total ==> r <= 4.0
    ensures r == 4.0 <==> inside == total
    ensures r == 0.0 <==> inside == 0
  {
    var ratio := (inside as real) / (total as real);
    assert inside <= total ==> ratio <= 1.0;
    assert ratio == 1.0 <==> inside == total;
    4.0 * ratio
  }

  /** The hit percentage `(points_inside / total_points) * 100`: a quarter of
      a hundred times the estimate of pi, hence within [0, 100]. */
  function HitPercent(inside: nat, total: nat): (r: real)
    requires 0 < total
    ensures 0.0 <= r
    ensures inside <= total ==> r <= 100.0
    ensures r == 25.0 * PiEstimate(inside, total)
  {
    ((inside as real) / (total as real)) * 100.0
  }

  /** The relative error `abs((np.pi - pi_estimate) / np.pi * 100)`: never
      negative, and zero exactly when the estimate equals `np.pi`. */
  function ErrorPercent(inside: nat, total: nat): (r: real)
    requires 0 < total
    ensures 0.0 <= r
    ensures r == 0.0 <==> PiEstimate(inside, total) == NpPi
  {
    Abs((NpPi - PiEstimate(inside, total)) / NpPi * 100.0)
  }
}
