/** The curve of one speed ramp: its slope stays between the rates it joins. */
module SmoothStep {
  function Clip(x: real, lo: real, hi: real): real { if x < lo then lo else if x > hi then hi else x }

  lemma ProductIsPositive(x: real, y: real)
    requires 0.0 <= x && 0.0 <= y
    ensures 0.0 <= x * y
  {
  }

  /** `u^3 - u^4/2`, whose slope rises smoothly from 0 to 1. */
  function Ease(u: real): real { u * u * u - u * u * u * u / 2.0 }

  /** The mean slope of `Ease` between `u` and `v`. */
  function Slope(u: real, v: real): real {
    (u * u * (2.0 - u) + v * v * (2.0 - v) + u * v * (2.0 - u - v)) / 2.0
  }

  lemma EaseBySlope(u: real, v: real)
    ensures Ease(v) - Ease(u) == (v - u) * Slope(u, v)
  {
  }

  lemma SlopeMirrors(u: real, v: real)
    ensures 1.0 - Slope(u, v) == Slope(1.0 - u, 1.0 - v)
  {
  }

  lemma SlopeIsPositive(u: real, v: real)
    requires 0.0 <= u <= 1.0 && 0.0 <= v <= 1.0
    ensures Slope(u, v) >= 0.0
  {
    ProductIsPositive(u, u);
    ProductIsPositive(v, v);
    ProductIsPositive(u, v);
    ProductIsPositive(u * u, 2.0 - u);
    ProductIsPositive(v * v, 2.0 - v);
    ProductIsPositive(u * v, 2.0 - u - v);
  }

  lemma SlopeIsBounded(u: real, v: real)
    requires 0.0 <= u <= 1.0 && 0.0 <= v <= 1.0
    ensures 0.0 <= Slope(u, v) <= 1.0
  {
    SlopeIsPositive(u, v);
    SlopeMirrors(u, v);
    SlopeIsPositive(1.0 - u, 1.0 - v);
  }

  lemma RisesBy(rise: real, d: real, k: real)
    requires rise == d * k && 0.0 <= d && 0.0 <= k <= 1.0
    ensures 0.0 <= rise <= d
  {
    ProductIsPositive(d, k);
    ProductIsPositive(d, 1.0 - k);
  }

  /** Between any two points of a ramp, `Ease` rises, and by no more than its argument. */
  lemma EaseRises(u: real, v: real)
    requires 0.0 <= u <= v <= 1.0
    ensures 0.0 <= Ease(v) - Ease(u) <= v - u
  {
    EaseBySlope(u, v);
    SlopeIsBounded(u, v);
    RisesBy(Ease(v) - Ease(u), v - u, Slope(u, v));
  }
}
