/** What one piece of the time map adds to the output, and what pieces that tile the source add together. */
module TimeMapLaws {
  import opened Common
  import opened SmoothStep
  import opened TimeMap

  // ----- one piece -----

  /** How far `t` is into a piece, from 0 to 1. */
  function Progress(p: Piece, t: real): real
    requires p.a < p.b
  {
    Clip((t - p.a) / (p.b - p.a), 0.0, 1.0)
  }

  function Blend(l: real, r0: real, r1: real, u: real, e: real): real { l * (r0 * u + (r1 - r0) * e) }

  /** The output time a piece has added at `u` of it. */
  function PartAt(p: Piece, u: real): real { Blend(p.b - p.a, p.r0, p.r1, u, Ease(u)) }

  /** The output time a piece adds by source time `t`. */
  function Part(p: Piece, t: real): real
    requires p.a < p.b
  {
    PartAt(p, Progress(p, t))
  }

  lemma QuotientTimes(x: real, l: real)
    requires l > 0.0
    ensures l * (x / l) == x && (x / l < 0.0 <==> x < 0.0) && (x / l > 1.0 <==> x > l)
    ensures (x / l > 0.0 <==> x > 0.0) && (x / l < 1.0 <==> x < l)
  {
    var q := x / l;
    assert q * l == x;
    if q < 0.0 { NegativeProduct(q, l); } else { ProductIsPositive(q, l); }
    if q > 0.0 { NotZero(q, l); }
    QuotientAgainstOne(q, l, x);
  }

  lemma QuotientAgainstOne(q: real, l: real, x: real)
    requires l > 0.0 && q * l == x
    ensures (q > 1.0 <==> x > l) && (q < 1.0 <==> x < l)
  {
    if q > 1.0 { NotZero(q - 1.0, l); }
    else if q < 1.0 { NotZero(1.0 - q, l); }
  }

  lemma NegativeProduct(q: real, l: real)
    requires q < 0.0 && l > 0.0
    ensures q * l < 0.0
  {
  }

  lemma NotZero(q: real, l: real)
    requires q > 0.0 && l > 0.0
    ensures q * l > 0.0
  {
  }

  /** The source time a piece has covered by `t`. */
  lemma ProgressCovers(p: Piece, t: real)
    requires p.a < p.b
    ensures (p.b - p.a) * Progress(p, t) == Clip(t, p.a, p.b) - p.a
    ensures 0.0 <= Progress(p, t) <= 1.0
  {
    QuotientTimes(t - p.a, p.b - p.a);
  }

  lemma ProgressRises(p: Piece, s: real, t: real)
    requires p.a < p.b && s <= t
    ensures Progress(p, s) <= Progress(p, t)
  {
    var l := p.b - p.a;
    var d := (t - p.a) / l - (s - p.a) / l;
    assert d == (t - s) / l;
    QuotientTimes(t - s, l);
  }

  /** A blend of two rates stays between them. */
  lemma BlendIsBounded(r0: real, r1: real, d: real, e: real, lo: real, hi: real)
    requires 0.0 <= e <= d && lo <= r0 <= hi && lo <= r1 <= hi
    ensures lo * d <= r0 * d + (r1 - r0) * e <= hi * d
  {
    ProductIsPositive(r0 - lo, d - e);
    ProductIsPositive(r1 - lo, e);
    ProductIsPositive(hi - r0, d - e);
    ProductIsPositive(hi - r1, e);
  }

  lemma ScaleBounds(l: real, x: real, lo: real, y: real, hi: real)
    requires 0.0 <= l && lo * x <= y <= hi * x
    ensures lo * (l * x) <= l * y <= hi * (l * x)
  {
    ProductIsPositive(l, y - lo * x);
    ProductIsPositive(l, hi * x - y);
  }

  lemma BlendDifference(l: real, r0: real, r1: real, u: real, v: real, eu: real, ev: real)
    ensures Blend(l, r0, r1, v, ev) - Blend(l, r0, r1, u, eu) == l * (r0 * (v - u) + (r1 - r0) * (ev - eu))
  {
  }

  lemma BlendRises(l: real, r0: real, r1: real, u: real, v: real, eu: real, ev: real, lo: real, hi: real, covered: real)
    requires 0.0 <= l && 0.0 <= ev - eu <= v - u && lo <= r0 <= hi && lo <= r1 <= hi && covered == l * (v - u)
    ensures lo * covered <= Blend(l, r0, r1, v, ev) - Blend(l, r0, r1, u, eu) <= hi * covered
  {
    BlendIsBounded(r0, r1, v - u, ev - eu, lo, hi);
    ScaleBounds(l, v - u, lo, r0 * (v - u) + (r1 - r0) * (ev - eu), hi);
    BlendDifference(l, r0, r1, u, v, eu, ev);
  }

  lemma PartAtRises(p: Piece, u: real, v: real, lo: real, hi: real, covered: real)
    requires p.a < p.b && 0.0 <= u <= v <= 1.0 && lo <= p.r0 <= hi && lo <= p.r1 <= hi
    requires covered == (p.b - p.a) * (v - u)
    ensures lo * covered <= PartAt(p, v) - PartAt(p, u) <= hi * covered
  {
    EaseRises(u, v);
    BlendRises(p.b - p.a, p.r0, p.r1, u, v, Ease(u), Ease(v), lo, hi, covered);
  }

  lemma CoveredBetween(p: Piece, s: real, t: real, u: real, v: real, covered: real)
    requires p.a < p.b && u == Progress(p, s) && v == Progress(p, t)
    requires covered == Clip(t, p.a, p.b) - Clip(s, p.a, p.b)
    ensures covered == (p.b - p.a) * (v - u) && 0.0 <= u <= 1.0 && 0.0 <= v <= 1.0
  {
    ProgressCovers(p, s);
    ProgressCovers(p, t);
  }

  /** Between two times a piece adds source time at rates between `lo` and `hi`. */
  lemma PartIsBounded(p: Piece, s: real, t: real, lo: real, hi: real, covered: real)
    requires p.a < p.b && s <= t && lo <= p.r0 <= hi && lo <= p.r1 <= hi
    requires covered == Clip(t, p.a, p.b) - Clip(s, p.a, p.b)
    ensures lo * covered <= Part(p, t) - Part(p, s) <= hi * covered
  {
    var u, v := Progress(p, s), Progress(p, t);
    ProgressRises(p, s, t);
    CoveredBetween(p, s, t, u, v, covered);
    PartAtRises(p, u, v, lo, hi, covered);
  }

  // ----- all pieces -----

  predicate AllPositive(ps: seq<Piece>) { forall i :: 0 <= i < |ps| ==> ps[i].a < ps[i].b }

  /** The pieces tile the source from `x` to `y`. */
  predicate Tiled(ps: seq<Piece>, x: real, y: real) {
    if ps == [] then x == y else ps[0].a == x < ps[0].b && Tiled(ps[1..], ps[0].b, y)
  }

  predicate RatesWithin(ps: seq<Piece>, lo: real, hi: real) {
    forall i :: 0 <= i < |ps| ==> lo <= ps[i].r0 <= hi && lo <= ps[i].r1 <= hi
  }

  /** The output time at source time `t`. */
  function Sum(ps: seq<Piece>, t: real): real
    requires AllPositive(ps)
  {
    if ps == [] then 0.0 else Part(ps[0], t) + Sum(ps[1..], t)
  }

  lemma {:induction false} TiledIsPositive(ps: seq<Piece>, x: real, y: real)
    requires Tiled(ps, x, y)
    ensures AllPositive(ps) && x <= y
  {
    if ps != [] {
      TiledIsPositive(ps[1..], ps[0].b, y);
      assert forall i :: 0 < i < |ps| ==> ps[i] == ps[1..][i - 1];
    }
  }

  lemma ClipSplits(t: real, x: real, b: real, y: real)
    requires x <= b <= y
    ensures Clip(t, x, y) == Clip(t, x, b) + Clip(t, b, y) - b
  {
  }

  lemma BoundsAdd(lo: real, hi: real, c: real, d: real, total: real, y: real, z: real)
    requires lo * c <= y <= hi * c && lo * d <= z <= hi * d && total == c + d
    ensures lo * total <= y + z <= hi * total
  {
    assert lo * total == lo * c + lo * d && hi * total == hi * c + hi * d;
  }

  lemma TimesZero(lo: real, c: real)
    requires c == 0.0
    ensures lo * c == 0.0
  {
  }

  /** The bounds of the first piece and of the others add up. */
  lemma SumStep(ps: seq<Piece>, s: real, t: real, lo: real, hi: real, c: real, d: real, covered: real)
    requires ps != [] && AllPositive(ps) && AllPositive(ps[1..]) && covered == c + d
    requires lo * c <= Part(ps[0], t) - Part(ps[0], s) <= hi * c
    requires lo * d <= Sum(ps[1..], t) - Sum(ps[1..], s) <= hi * d
    ensures lo * covered <= Sum(ps, t) - Sum(ps, s) <= hi * covered
  {
    BoundsAdd(lo, hi, c, d, covered, Part(ps[0], t) - Part(ps[0], s), Sum(ps[1..], t) - Sum(ps[1..], s));
  }

  lemma {:induction false} SumIsBounded(ps: seq<Piece>, x: real, y: real, s: real, t: real, lo: real, hi: real,
                                        covered: real)
    requires AllPositive(ps) && Tiled(ps, x, y) && RatesWithin(ps, lo, hi) && s <= t
    requires covered == Clip(t, x, y) - Clip(s, x, y)
    ensures lo * covered <= Sum(ps, t) - Sum(ps, s) <= hi * covered
  {
    if ps != [] {
      var p := ps[0];
      TiledIsPositive(ps[1..], p.b, y);
      ClipSplits(s, x, p.b, y);
      ClipSplits(t, x, p.b, y);
      var c, d := Clip(t, x, p.b) - Clip(s, x, p.b), Clip(t, p.b, y) - Clip(s, p.b, y);
      PartIsBounded(p, s, t, lo, hi, c);
      SumIsBounded(ps[1..], p.b, y, s, t, lo, hi, d);
      SumStep(ps, s, t, lo, hi, c, d, covered);
    } else {
      TimesZero(lo, covered);
      TimesZero(hi, covered);
    }
  }

  lemma TiledCons(p: Piece, ps: seq<Piece>, y: real)
    requires p.a < p.b && Tiled(ps, p.b, y)
    ensures Tiled([p] + ps, p.a, y)
  {
    assert ([p] + ps)[1..] == ps;
  }

  lemma SumCons(p: Piece, ps: seq<Piece>, t: real)
    requires p.a < p.b && AllPositive(ps)
    ensures AllPositive([p] + ps) && Sum([p] + ps, t) == Part(p, t) + Sum(ps, t)
  {
    assert ([p] + ps)[1..] == ps;
  }
}
