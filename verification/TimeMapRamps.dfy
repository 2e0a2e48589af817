/** Where each ramp of the time map lies, and what its curve adds. */
module TimeMapRamps {
  import opened Common
  import opened SmoothStep
  import opened TimeMap
  import opened TimeMapLaws
  import opened TimeMapTheorems

  /** The spans follow each other. */
  lemma {:induction false} SpansInOrder(spans: seq<Span>, duration: real, i: nat, j: nat)
    requires Covering(spans, duration) && i < j < |spans|
    ensures spans[i].end <= spans[j].start
  {
    assert SpanOk(spans[j - 1], duration) && spans[j - 1].end == spans[j].start;
    if i + 1 < j { SpansInOrder(spans, duration, i, j - 1); }
  }

  lemma {:induction false} RampsApart(spans: seq<Span>, duration: real, i: nat, j: nat)
    requires Covering(spans, duration) && i < j && j + 1 < |spans|
    ensures spans[i].end + Half(spans[i], spans[i + 1]) <= spans[j].end - Half(spans[j], spans[j + 1])
  {
    HalfIsSmall(spans, spans[|spans| - 1].end, duration, i);
    HalfIsSmall(spans, spans[|spans| - 1].end, duration, j);
    assert SpanOk(spans[j], duration) && SpanOk(spans[i + 1], duration);
    SpansInOrder(spans, duration, i, j);
    if i + 1 < j { SpansInOrder(spans, duration, i + 1, j); }
  }

  /** Inside the i-th ramp no other one adds anything. */
  lemma {:induction false} OneDeparture(spans: seq<Span>, duration: real, k: nat, i: nat, t: real)
    requires Covering(spans, duration) && Wide(spans) && i + 1 < |spans| && k < |spans|
    requires var half := Half(spans[i], spans[i + 1]); spans[i].end - half <= t <= spans[i].end + half
    ensures Departures(spans, k, t) == if k <= i then DepartureAt(spans, i, t) else 0.0
    decreases |spans| - k
  {
    if k + 1 < |spans| {
      OneDeparture(spans, duration, k + 1, i, t);
      if k < i {
        RampsApart(spans, duration, k, i);
        OutsideRamp(spans, k, t);
      } else if i < k {
        RampsApart(spans, duration, i, k);
        OutsideRamp(spans, k, t);
      }
    }
  }

  predicate IsLeast(h: real, x: real, y: real, z: real) {
    (h == x || h == y || h == z) && h <= x && h <= y && h <= z
  }

  /** Half the width of the ramp at the i-th boundary, with the numbers of the program. */
  predicate IsHalfWidth(spans: seq<Span>, i: nat, h: real)
    requires i + 1 < |spans|
  {
    IsLeast(h, 0.6, (spans[i].end - spans[i].start) / 4.0, (spans[i + 1].end - spans[i + 1].start) / 4.0)
  }

  function Distance(x: real, y: real): real { if x <= y then y - x else x - y }

  /** The change of rate at the i-th boundary. */
  function RateChange(spans: seq<Span>, i: nat): real
    requires i + 1 < |spans| && spans[i].speed > 0.0 && spans[i + 1].speed > 0.0
  {
    1.0 / spans[i + 1].speed - 1.0 / spans[i].speed
  }

  /** The height of the curve at `v` of its width 2h, for a given change of rate. */
  function Height(h: real, change: real, v: real): real { 2.0 * h * (change * (v * v * v - v * v * v * v / 2.0)) }

  lemma {:induction false} HalfIs(spans: seq<Span>, duration: real, i: nat, h: real)
    requires Covering(spans, duration) && i + 1 < |spans| && IsHalfWidth(spans, i, h)
    ensures h == Half(spans[i], spans[i + 1]) && h > 0.0 && spans[i].speed > 0.0 && spans[i + 1].speed > 0.0
  {
    HalfIsSmall(spans, spans[|spans| - 1].end, duration, i);
    assert SpanOk(spans[i], duration) && SpanOk(spans[i + 1], duration);
  }

  lemma {:induction false} BoundaryIsWithin(spans: seq<Span>, duration: real, i: nat, t: real, h: real)
    requires Covering(spans, duration) && i + 1 < |spans| && IsHalfWidth(spans, i, h) && Distance(t, spans[i].end) <= h
    ensures t <= spans[|spans| - 1].end
  {
    HalfIs(spans, duration, i, h);
    HalfIsSmall(spans, spans[|spans| - 1].end, duration, i);
    assert SpanOk(spans[i + 1], duration);
    if i + 2 < |spans| {
      SpansInOrder(spans, duration, i + 1, |spans| - 1);
      assert SpanOk(spans[|spans| - 1], duration);
    }
  }

  /**
  The whole curve: at a distance of at most `h` from the i-th boundary the map is
  the unsmoothed one and 2h times the change of rate times `v^3 - v^4/2`, where `v`
  is how far into the ramp the time is, over the width 2h.
   */
  lemma {:induction false} RampExactly(spans: seq<Span>, duration: real, i: nat, t: real, h: real, v: real)
    requires Covering(spans, duration) && i + 1 < |spans| && IsHalfWidth(spans, i, h) && h > 0.0
    requires Distance(t, spans[i].end) <= h && v == (h - Distance(t, spans[i].end)) / (2.0 * h)
    ensures spans[i].speed > 0.0 && spans[i + 1].speed > 0.0 && forall k :: 0 <= k < |spans| ==> spans[k].speed > 0.0
    ensures Mapped(spans, duration, t)
            == Unsmoothed(spans, 0, 0.0, t) + Height(h, RateChange(spans, i), v)
  {
    HalfIs(spans, duration, i, h);
    CoveringIsWide(spans, duration);
    BoundaryIsWithin(spans, duration, i, t, h);
    MapDeparts(spans, duration, t);
    OneDeparture(spans, duration, 0, i, t);
    DepartureIs(spans, i, t, h, v);
  }

  lemma {:induction false} DepartureIs(spans: seq<Span>, i: nat, t: real, h: real, v: real)
    requires i + 1 < |spans| && Wide(spans) && h == Half(spans[i], spans[i + 1]) && h > 0.0
    requires Distance(t, spans[i].end) <= h && v == (h - Distance(t, spans[i].end)) / (2.0 * h)
    ensures DepartureAt(spans, i, t) == Height(h, RateChange(spans, i), v)
  {
    assert h + h == 2.0 * h;
    assert Depth(spans[i].end, h, t) == v;
    assert Ease(v) == v * v * v - v * v * v * v / 2.0;
  }

  lemma Middle(h: real) returns (v: real)
    requires h > 0.0
    ensures v == h / (2.0 * h) == 0.5
  {
    v := 0.5;
  }

  lemma MiddleOfCurve(h: real, k: real, v: real)
    requires v == 0.5
    ensures Height(h, k, v) == 3.0 / 16.0 * h * k
  {
    assert v * v == 0.25;
    assert v * v * v == 0.125;
    assert v * v * v * v == 0.0625;
    assert k * (3.0 / 32.0) == 3.0 / 32.0 * k;
  }

  /** At the boundary itself: three sixteenths of the half width times the change of rate. */
  lemma {:induction false} BoundaryExactly(spans: seq<Span>, duration: real, i: nat, h: real)
    requires Covering(spans, duration) && i + 1 < |spans| && IsHalfWidth(spans, i, h)
    ensures forall k :: 0 <= k < |spans| ==> spans[k].speed > 0.0
    ensures Mapped(spans, duration, spans[i].end)
            == Unsmoothed(spans, 0, 0.0, spans[i].end)
               + 3.0 / 16.0 * h * (1.0 / spans[i + 1].speed - 1.0 / spans[i].speed)
  {
    HalfIs(spans, duration, i, h);
    var v := Middle(h);
    RampExactly(spans, duration, i, spans[i].end, h, v);
    MiddleOfCurve(h, RateChange(spans, i), v);
  }

  function Size(x: real): real { if x < 0.0 then -x else x }

  lemma SizeTimes(x: real, y: real)
    requires y >= 0.0
    ensures Size(x * y) == Size(x) * y
  {
    if x < 0.0 { ProductIsPositive(-x, y); } else { ProductIsPositive(x, y); }
  }

  /** The cube of a distance, in terms of the part of the width it makes. */
  lemma CubeOf(h: real, v: real, d: real, c: real, k: real)
    requires h > 0.0 && d == 2.0 * h * v && k * (4.0 * h * h) == c
    ensures k * (d * d * d) == 2.0 * h * (c * (v * v * v))
  {
    var q := 4.0 * h * h;
    assert d * d == q * (v * v);
    assert d * d * d == q * (v * v) * (2.0 * h * v);
    assert q * (v * v) * (2.0 * h * v) == q * (2.0 * h * (v * v * v));
    assert k * (q * (2.0 * h * (v * v * v))) == k * q * (2.0 * h * (v * v * v));
  }

  lemma CurveIsCubic(v: real)
    requires 0.0 <= v <= 0.5
    ensures 0.75 * (v * v * v) <= v * v * v - v * v * v * v / 2.0 <= v * v * v && 0.0 <= v * v * v
  {
    ProductIsPositive(v, v);
    ProductIsPositive(v * v, v);
    ProductIsPositive(v * v * v, v);
    ProductIsPositive(v * v * v, 0.5 - v);
  }

  lemma Scaled(h: real, c: real, x: real, y: real)
    requires h > 0.0 && c >= 0.0 && x <= y
    ensures 2.0 * h * (c * x) <= 2.0 * h * (c * y)
  {
    ProductIsPositive(c, y - x);
    ProductIsPositive(2.0 * h, c * (y - x));
  }

  lemma ThreeQuarters(h: real, c: real, cube: real)
    ensures 2.0 * h * (c * (0.75 * cube)) == 0.75 * (2.0 * h * (c * cube))
  {
    assert c * (0.75 * cube) == 0.75 * (c * cube);
  }

  lemma SizeOf(h: real, change: real, e: real, departs: real)
    requires h > 0.0 && e >= 0.0 && departs == 2.0 * h * (change * e)
    ensures Size(departs) == 2.0 * h * (Size(change) * e)
  {
    SizeTimes(change, e);
    SizeTimes(change * e, 2.0 * h);
  }

  lemma SizedBounds(h: real, change: real, cube: real, e: real, bound: real, departs: real)
    requires h > 0.0 && 0.75 * cube <= e <= cube && 0.0 <= cube
    requires bound == 2.0 * h * (Size(change) * cube) && departs == 2.0 * h * (change * e)
    ensures 0.75 * bound <= Size(departs) <= bound
  {
    SizeOf(h, change, e, departs);
    Scaled(h, Size(change), e, cube);
    Scaled(h, Size(change), 0.75 * cube, e);
    ThreeQuarters(h, Size(change), cube);
  }

  lemma CubicBounds(h: real, change: real, v: real, d: real, k: real, departs: real)
    requires h > 0.0 && 0.0 <= v <= 0.5 && d == 2.0 * h * v && k * (4.0 * h * h) == Size(change)
    requires departs == Height(h, change, v)
    ensures 0.75 * (k * (d * d * d)) <= Size(departs) <= k * (d * d * d)
  {
    CurveIsCubic(v);
    CubeOf(h, v, d, Size(change), k);
    SizedBounds(h, change, v * v * v, v * v * v - v * v * v * v / 2.0, k * (d * d * d), departs);
  }

  lemma DepthOver(h: real, d: real, v: real)
    requires h > 0.0 && 0.0 <= d <= h && v == d / (2.0 * h)
    ensures d == 2.0 * h * v && 0.0 <= v <= 0.5
  {
    QuotientTimes(d, 2.0 * h);
    if v > 0.5 { NotZero(v - 0.5, 2.0 * h); }
  }

  /**
  The ramp is smooth at both ends: at a distance `d` inside it the map departs from
  the straight line outside by at most the cube of `d` times a constant, and up to
  the boundary by at least three quarters of that.
   */
  lemma {:induction false} RampIsSmooth(spans: seq<Span>, duration: real, i: nat, t: real, h: real, d: real, k: real)
    requires Covering(spans, duration) && i + 1 < |spans| && IsHalfWidth(spans, i, h) && h > 0.0
    requires d == h - Distance(t, spans[i].end) >= 0.0 && spans[i].speed > 0.0 && spans[i + 1].speed > 0.0
    requires k * (4.0 * h * h) == Size(1.0 / spans[i + 1].speed - 1.0 / spans[i].speed)
    ensures forall l :: 0 <= l < |spans| ==> spans[l].speed > 0.0
    ensures 0.75 * (k * (d * d * d)) <= Size(Mapped(spans, duration, t) - Unsmoothed(spans, 0, 0.0, t))
    ensures Size(Mapped(spans, duration, t) - Unsmoothed(spans, 0, 0.0, t)) <= k * (d * d * d)
  {
    var v := d / (2.0 * h);
    DepthOver(h, d, v);
    RampExactly(spans, duration, i, t, h, v);
    var departs := Mapped(spans, duration, t) - Unsmoothed(spans, 0, 0.0, t);
    CubicBounds(h, RateChange(spans, i), v, d, k, departs);
  }
}
