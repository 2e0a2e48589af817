/** The time map as a whole: order of time, total length, agreement with the unsmoothed map, and the emitted formula. */
module TimeMapTheorems {
  import opened Common
  import opened SmoothStep
  import opened TimeMap
  import opened TimeMapLaws

  // ----- the pieces tile the source -----

  predicate SpeedsWithin(spans: seq<Span>, slow: real, fast: real) {
    forall i :: 0 <= i < |spans| ==> slow <= spans[i].speed <= fast
  }

  /** The pieces of a span that is not the last: one of constant speed, the ramp, and the others. */
  lemma PiecesUnfold(spans: seq<Span>, duration: real, i: nat, cursor: real)
    returns (flat: Piece, ramp: Piece, rest: seq<Piece>)
    requires i + 1 < |spans| && forall k :: 0 <= k < |spans| ==> spans[k].speed > 0.0
    ensures PiecesFrom(spans, duration, i, cursor) == [flat] + ([ramp] + rest)
    ensures flat.a == cursor && flat.b == ramp.a == spans[i].end - Half(spans[i], spans[i + 1])
    ensures ramp.b == spans[i].end + Half(spans[i], spans[i + 1])
    ensures rest == PiecesFrom(spans, duration, i + 1, ramp.b)
    ensures flat.r0 == flat.r1 == ramp.r0 == Rate(spans[i]) && ramp.r1 == Rate(spans[i + 1])
  {
    var half, boundary := Half(spans[i], spans[i + 1]), spans[i].end;
    flat := Piece(cursor, boundary - half, Rate(spans[i]), Rate(spans[i]));
    ramp := Piece(boundary - half, boundary + half, Rate(spans[i]), Rate(spans[i + 1]));
    rest := PiecesFrom(spans, duration, i + 1, boundary + half);
  }

  lemma LastPiece(spans: seq<Span>, duration: real, i: nat, cursor: real) returns (last: Piece)
    requires i + 1 == |spans| && forall k :: 0 <= k < |spans| ==> spans[k].speed > 0.0
    ensures PiecesFrom(spans, duration, i, cursor) == [last] + []
    ensures last.a == cursor && last.b == duration && last.r0 == last.r1 == Rate(spans[i])
  {
    last := Piece(cursor, duration, Rate(spans[i]), Rate(spans[i]));
  }

  lemma {:induction false} PiecesTile(spans: seq<Span>, duration: real, i: nat, cursor: real)
    requires Covering(spans, duration) && i < |spans| && EarlyIn(spans, i, cursor)
    ensures Tiled(PiecesFrom(spans, duration, i, cursor), cursor, duration)
    decreases |spans| - i
  {
    assert SpanOk(spans[i], duration);
    if i + 1 == |spans| {
      var last := LastPiece(spans, duration, i, cursor);
      TiledCons(last, [], duration);
    } else {
      GuardHolds(spans, spans[|spans| - 1].end, duration, i, cursor);
      HalfIsSmall(spans, spans[|spans| - 1].end, duration, i);
      var flat, ramp, rest := PiecesUnfold(spans, duration, i, cursor);
      PiecesTile(spans, duration, i + 1, ramp.b);
      TiledCons(ramp, rest, duration);
      TiledCons(flat, [ramp] + rest, duration);
    }
  }

  /** The pieces tile the whole source, each of positive length. */
  lemma {:induction false} MapTiles(spans: seq<Span>, duration: real)
    requires Covering(spans, duration)
    ensures Tiled(PiecesFrom(spans, duration, 0, 0.0), 0.0, duration)
    ensures AllPositive(PiecesFrom(spans, duration, 0, 0.0))
  {
    assert SpanOk(spans[0], duration);
    PiecesTile(spans, duration, 0, 0.0);
    TiledIsPositive(PiecesFrom(spans, duration, 0, 0.0), 0.0, duration);
  }

  lemma RateIsBounded(s: Span, slow: real, fast: real)
    requires 0.0 < slow <= s.speed <= fast
    ensures 1.0 / fast <= Rate(s) <= 1.0 / slow
  {
    Reciprocal(slow, s.speed);
    Reciprocal(s.speed, fast);
  }

  lemma Reciprocal(x: real, y: real)
    requires 0.0 < x <= y
    ensures 1.0 / y <= 1.0 / x
  {
    var a, b := 1.0 / x, 1.0 / y;
    assert a * x == 1.0 && b * y == 1.0;
    PositiveFactor(b, y);
    if b > a { LargerProduct(a, b, x, y); }
  }

  lemma LargerProduct(a: real, b: real, x: real, y: real)
    requires 0.0 < x <= y && a < b && b > 0.0
    ensures a * x < b * y
  {
    TimesLarger(b, x, y);
    LargerTimes(a, b, x);
  }

  lemma TimesLarger(b: real, x: real, y: real)
    requires b > 0.0 && x <= y
    ensures b * x <= b * y
  {
  }

  lemma LargerTimes(a: real, b: real, x: real)
    requires a < b && x > 0.0
    ensures a * x < b * x
  {
  }

  lemma PositiveFactor(b: real, y: real)
    requires 0.0 < y && b * y == 1.0
    ensures b > 0.0
  {
    if b <= 0.0 { ProductIsPositive(-b, y); }
  }

  lemma {:induction false} PieceRates(spans: seq<Span>, duration: real, i: nat, cursor: real, slow: real, fast: real)
    requires i < |spans| && 0.0 < slow && SpeedsWithin(spans, slow, fast)
    ensures RatesWithin(PiecesFrom(spans, duration, i, cursor), 1.0 / fast, 1.0 / slow)
    decreases |spans| - i
  {
    RateIsBounded(spans[i], slow, fast);
    if i + 1 < |spans| {
      RateIsBounded(spans[i + 1], slow, fast);
      var half, boundary := Half(spans[i], spans[i + 1]), spans[i].end;
      PieceRates(spans, duration, i + 1, boundary + half, slow, fast);
    }
  }

  /** The output time of source time `t`. */
  function Mapped(spans: seq<Span>, duration: real, t: real): real
    requires Covering(spans, duration)
  {
    MapTiles(spans, duration);
    Sum(PiecesFrom(spans, duration, 0, 0.0), t)
  }

  /**
  Time stays in order: the source time `elapsed` between two moments is played at
  rates between `lo`, that of the fastest speed, and `hi`, that of the slowest.
   */
  lemma {:induction false} TimeStaysOrdered(spans: seq<Span>, duration: real, s: real, t: real, elapsed: real,
                         slow: real, fast: real, lo: real, hi: real)
    requires Covering(spans, duration) && 0.0 <= s <= t <= duration && elapsed == t - s
    requires 0.0 < slow <= fast && SpeedsWithin(spans, slow, fast) && lo == 1.0 / fast && hi == 1.0 / slow
    ensures lo * elapsed <= Mapped(spans, duration, t) - Mapped(spans, duration, s) <= hi * elapsed
  {
    MapTiles(spans, duration);
    PieceRates(spans, duration, 0, 0.0, slow, fast);
    SumIsBounded(PiecesFrom(spans, duration, 0, 0.0), 0.0, duration, s, t, lo, hi, elapsed);
  }

  /** So the map is strictly increasing: no speed exceeds 128. */
  lemma {:induction false} MapIncreases(spans: seq<Span>, duration: real, s: real, t: real)
    requires Covering(spans, duration) && 0.0 <= s < t <= duration
    ensures Mapped(spans, duration, s) < Mapped(spans, duration, t)
  {
    forall i | 0 <= i < |spans| ensures 1.0 <= spans[i].speed <= 128.0 { assert SpanOk(spans[i], duration); }
    TimeStaysOrdered(spans, duration, s, t, t - s, 1.0, 128.0, 1.0 / 128.0, 1.0);
  }

  // ----- the unsmoothed map -----

  /** The source time between `from` and `to` that has passed at `t`. */
  function Passed(t: real, from: real, to: real): real { Clip(t, from, to) - from }

  /** The output time from `cursor` on, in the i-th span, if speed changed abruptly. */
  function Unsmoothed(spans: seq<Span>, i: nat, cursor: real, t: real): real
    requires i < |spans| && forall k :: 0 <= k < |spans| ==> spans[k].speed > 0.0
    decreases |spans| - i
  {
    Rate(spans[i]) * Passed(t, cursor, spans[i].end) + After(spans, i, t)
  }

  /** The output time after the i-th span. */
  function After(spans: seq<Span>, i: nat, t: real): real
    requires i < |spans| && forall k :: 0 <= k < |spans| ==> spans[k].speed > 0.0
    decreases |spans| - i, 0
  {
    if i + 1 == |spans| then 0.0 else Unsmoothed(spans, i + 1, spans[i + 1].start, t)
  }

  /** `t` lies inside no ramp. */
  predicate OffRamps(spans: seq<Span>, t: real) {
    forall i, j :: 0 <= i && j == i + 1 < |spans| ==>
      t <= spans[i].end - Half(spans[i], spans[j]) || t >= spans[i].end + Half(spans[i], spans[j])
  }

  lemma Distributes(r: real, c: real, d: real, total: real)
    requires total == c + d
    ensures r * total == r * c + r * d
  {
  }

  lemma FlatAt(p: Piece, u: real, passed: real)
    requires p.r0 == p.r1 && passed == (p.b - p.a) * u
    ensures PartAt(p, u) == p.r0 * passed
  {
    var l := p.b - p.a;
    assert (p.r1 - p.r0) * Ease(u) == 0.0;
    assert l * (p.r0 * u) == p.r0 * (l * u);
  }

  /** A piece of constant speed adds its rate times the source time passed. */
  lemma FlatPart(p: Piece, t: real, passed: real)
    requires p.a < p.b && p.r0 == p.r1 && passed == Passed(t, p.a, p.b)
    ensures Part(p, t) == p.r0 * passed
  {
    ProgressCovers(p, t);
    FlatAt(p, Progress(p, t), passed);
  }

  // ----- how a ramp departs from the abrupt change -----

  /** How far into a ramp of the given half width `t` is, from its nearer end, over its length. */
  function Depth(boundary: real, half: real, t: real): real
    requires half > 0.0
  {
    var d := if t <= boundary then boundary - t else t - boundary;
    if d >= half then 0.0 else (half - d) / (half + half)
  }

  function Bend(change: real, half: real, e: real): real { (half + half) * (change * e) }

  /** What a ramp adds at `t` beyond what an abrupt change from `r0` to `r1` would have. */
  function Departure(r0: real, r1: real, boundary: real, half: real, t: real): real
    requires half > 0.0
  {
    Bend(r1 - r0, half, Ease(Depth(boundary, half, t)))
  }

  lemma EaseMirrors(u: real)
    ensures Ease(u) == Ease(1.0 - u) + u - 0.5
  {
    var v := 1.0 - u;
    assert v * v == 1.0 - 2.0 * u + u * u;
    assert v * v * v == 1.0 - 3.0 * u + 3.0 * (u * u) - u * u * u;
    assert v * v * v * v == 1.0 - 4.0 * u + 6.0 * (u * u) - 4.0 * (u * u * u) + u * u * u * u;
  }

  lemma ProgressEnds(p: Piece, t: real)
    requires p.a < p.b
    ensures (t <= p.a ==> Progress(p, t) == 0.0) && (t >= p.b ==> Progress(p, t) == 1.0)
    ensures p.a <= t <= p.b ==> Progress(p, t) == (t - p.a) / (p.b - p.a)
  {
    QuotientTimes(t - p.a, p.b - p.a);
  }

  lemma EaseEnds()
    ensures Ease(0.0) == 0.0 && Ease(1.0) == 0.5
  {
  }

  /** On the way in, the curve adds its own height. */
  lemma BlendIn(half: real, r0: real, r1: real, u: real, c: real)
    requires c == (half + half) * u
    ensures Blend(half + half, r0, r1, u, Ease(u)) == r0 * c + Bend(r1 - r0, half, Ease(u))
  {
    var l := half + half;
    assert l * (r0 * u + (r1 - r0) * Ease(u)) == l * (r0 * u) + l * ((r1 - r0) * Ease(u));
    assert l * (r0 * u) == r0 * (l * u);
  }

  /** On the way out, the height of its mirror image. */
  lemma BlendOut(half: real, r0: real, r1: real, u: real, d: real)
    requires half + d == (half + half) * u
    ensures Blend(half + half, r0, r1, u, Ease(u)) == r0 * half + r1 * d + Bend(r1 - r0, half, Ease(1.0 - u))
  {
    EaseMirrors(u);
    BlendOutAs(half, r0, r1, u, d, Ease(u), Ease(1.0 - u));
  }

  lemma BlendOutAs(half: real, r0: real, r1: real, u: real, d: real, e: real, m: real)
    requires half + d == (half + half) * u && e == m + u - 0.5
    ensures Blend(half + half, r0, r1, u, e) == r0 * half + r1 * d + Bend(r1 - r0, half, m)
  {
    var l, k := half + half, r1 - r0;
    assert l * (r0 * u + k * e) == l * (r0 * u) + l * (k * e);
    assert l * (r0 * u) == r0 * (l * u);
    assert l * (k * e) == l * (k * m) + k * (l * u) - k * half;
    assert k * (l * u) == k * half + k * d;
    assert r0 * (l * u) == r0 * half + r0 * d;
  }

  lemma DepthIs(boundary: real, half: real, t: real, u: real)
    requires half > 0.0 && boundary - half <= t <= boundary + half && u == (t - (boundary - half)) / (half + half)
    ensures t <= boundary ==> Depth(boundary, half, t) == u
    ensures t >= boundary ==> Depth(boundary, half, t) == 1.0 - u
  {
    var l := half + half;
    assert l / l == 1.0;
    assert (l - (t - (boundary - half))) / l == l / l - (t - (boundary - half)) / l;
  }

  lemma RampIn(p: Piece, t: real, boundary: real, half: real, c: real, u: real)
    requires half > 0.0 && p.a == boundary - half && p.b == boundary + half && t <= boundary
    requires c == Passed(t, p.a, boundary) && u == Progress(p, t)
    ensures Part(p, t) == p.r0 * c + Departure(p.r0, p.r1, boundary, half, t)
  {
    ProgressCovers(p, t);
    ProgressEnds(p, t);
    if p.a <= t { DepthIs(boundary, half, t, u); }
    BlendIn(half, p.r0, p.r1, u, c);
  }

  lemma RampOut(p: Piece, t: real, boundary: real, half: real, d: real, u: real)
    requires half > 0.0 && p.a == boundary - half && p.b == boundary + half && t > boundary
    requires d == Passed(t, boundary, p.b) && u == Progress(p, t)
    ensures Part(p, t) == p.r0 * half + p.r1 * d + Departure(p.r0, p.r1, boundary, half, t)
  {
    ProgressCovers(p, t);
    ProgressEnds(p, t);
    if t <= p.b { DepthIs(boundary, half, t, u); }
    BlendOut(half, p.r0, p.r1, u, d);
  }

  /** A ramp adds what the two speeds would have added on their sides of the boundary, and its departure. */
  lemma RampPart(p: Piece, t: real, boundary: real, half: real, c: real, d: real)
    requires half > 0.0 && p.a == boundary - half && p.b == boundary + half
    requires c == Passed(t, p.a, boundary) && d == Passed(t, boundary, p.b)
    ensures Part(p, t) == p.r0 * c + p.r1 * d + Departure(p.r0, p.r1, boundary, half, t)
  {
    if t <= boundary {
      TimesZero(p.r1, d);
      RampIn(p, t, boundary, half, c, Progress(p, t));
    } else {
      RampOut(p, t, boundary, half, d, Progress(p, t));
    }
  }

  lemma {:induction false} OneSpan(spans: seq<Span>, i: nat, cursor: real, t: real, r: real, passed: real)
    requires i < |spans| && forall k :: 0 <= k < |spans| ==> spans[k].speed > 0.0
    requires r == Rate(spans[i]) && passed == Passed(t, cursor, spans[i].end)
    ensures Unsmoothed(spans, i, cursor, t) == r * passed + After(spans, i, t)
  {
  }

  lemma PlayedAdds(r: real, passed: real, remaining: real, all: real, after: real, x: real, y: real)
    requires all == passed + remaining && x == r * all + after && y == r * remaining + after
    ensures x == r * passed + y
  {
    Distributes(r, passed, remaining, all);
  }

  lemma {:induction false} ChangesOfCursor(spans: seq<Span>, i: nat, cursor: real, later: real, t: real, r: real,
                                           passed: real)
    requires i < |spans| && (forall k :: 0 <= k < |spans| ==> spans[k].speed > 0.0) && cursor <= later <= spans[i].end
    requires r == Rate(spans[i]) && passed == Passed(t, cursor, later)
    ensures Unsmoothed(spans, i, cursor, t) == r * passed + Unsmoothed(spans, i, later, t)
  {
    var remaining, all := Passed(t, later, spans[i].end), Passed(t, cursor, spans[i].end);
    ClipSplits(t, cursor, later, spans[i].end);
    OneSpan(spans, i, cursor, t, r, all);
    OneSpan(spans, i, later, t, r, remaining);
    PlayedAdds(r, passed, remaining, all, After(spans, i, t), Unsmoothed(spans, i, cursor, t),
               Unsmoothed(spans, i, later, t));
  }

  /** A piece of constant speed and the ramp after it add what the two speeds would have added, and a departure. */
  lemma PairPlayed(flat: Piece, ramp: Piece, t: real, boundary: real, half: real, r: real, next: real,
                   passed: real, c: real, whole: real, d: real)
    requires half > 0.0 && flat.a < flat.b == ramp.a == boundary - half && ramp.b == boundary + half
    requires flat.r0 == flat.r1 == ramp.r0 == r && ramp.r1 == next
    requires passed == Passed(t, flat.a, flat.b) && c == Passed(t, ramp.a, boundary)
    requires whole == passed + c && d == Passed(t, boundary, ramp.b)
    ensures Part(flat, t) + Part(ramp, t) == r * whole + next * d + Departure(r, next, boundary, half, t)
  {
    var x := FlatShare(flat, t, r, passed);
    var y, z := RampShare(ramp, t, boundary, half, r, next, c, d);
    PairAdds(r, next, passed, c, d, whole, x, y, z);
  }

  lemma FlatShare(flat: Piece, t: real, r: real, passed: real) returns (x: real)
    requires flat.a < flat.b && flat.r0 == flat.r1 == r && passed == Passed(t, flat.a, flat.b)
    ensures x == Part(flat, t) == r * passed
  {
    FlatPart(flat, t, passed);
    x := Part(flat, t);
  }

  lemma RampShare(ramp: Piece, t: real, boundary: real, half: real, r: real, next: real, c: real, d: real)
    returns (y: real, z: real)
    requires half > 0.0 && ramp == Piece(boundary - half, boundary + half, r, next)
    requires c == Passed(t, ramp.a, boundary) && d == Passed(t, boundary, ramp.b)
    ensures y == Part(ramp, t) && z == Departure(r, next, boundary, half, t) && y == r * c + next * d + z
  {
    RampPart(ramp, t, boundary, half, c, d);
    y, z := Part(ramp, t), Departure(r, next, boundary, half, t);
  }

  lemma PairAdds(r: real, next: real, passed: real, c: real, d: real, whole: real, x: real, y: real, z: real)
    requires x == r * passed && y == r * c + next * d + z && whole == passed + c
    ensures x + y == r * whole + next * d + z
  {
    Distributes(r, passed, c, whole);
  }

  lemma {:induction false} StepPlayed(spans: seq<Span>, i: nat, t: real, flat: Piece, ramp: Piece, half: real,
                   r: real, next: real, whole: real, d: real)
    requires i + 1 < |spans| && forall k :: 0 <= k < |spans| ==> spans[k].speed > 0.0
    requires half > 0.0 && flat.a < flat.b == ramp.a == spans[i].end - half && ramp.b == spans[i].end + half
    requires spans[i].end == spans[i + 1].start && ramp.b <= spans[i + 1].end
    requires flat.r0 == flat.r1 == ramp.r0 == r == Rate(spans[i]) && ramp.r1 == next == Rate(spans[i + 1])
    requires whole == Passed(t, flat.a, spans[i].end) && d == Passed(t, spans[i].end, ramp.b)
    ensures Part(flat, t) + Part(ramp, t) + Unsmoothed(spans, i + 1, ramp.b, t)
            == Unsmoothed(spans, i, flat.a, t) + Departure(r, next, spans[i].end, half, t)
  {
    ClipSplits(t, flat.a, flat.b, spans[i].end);
    PairPlayed(flat, ramp, t, spans[i].end, half, r, next, Passed(t, flat.a, flat.b), Passed(t, ramp.a, spans[i].end),
               whole, d);
    ChangesOfCursor(spans, i + 1, spans[i].end, ramp.b, t, next, d);
    OneSpan(spans, i, flat.a, t, r, whole);
  }

  /** What the i-th ramp adds at `t`. */
  function DepartureAt(spans: seq<Span>, i: nat, t: real): real
    requires i + 1 < |spans| && Half(spans[i], spans[i + 1]) > 0.0 && spans[i].speed > 0.0 && spans[i + 1].speed > 0.0
  {
    Departure(Rate(spans[i]), Rate(spans[i + 1]), spans[i].end, Half(spans[i], spans[i + 1]), t)
  }

  predicate Wide(spans: seq<Span>) {
    && (forall k :: 0 <= k < |spans| ==> spans[k].speed > 0.0)
    && (forall k, l :: 0 <= k && l == k + 1 < |spans| ==> Half(spans[k], spans[l]) > 0.0)
  }

  lemma {:induction false} CoveringIsWide(spans: seq<Span>, duration: real)
    requires Covering(spans, duration)
    ensures Wide(spans)
  {
    SpeedsArePositive(spans, spans[|spans| - 1].end, duration);
    forall k, l | 0 <= k && l == k + 1 < |spans| ensures Half(spans[k], spans[l]) > 0.0 {
      HalfIsSmall(spans, spans[|spans| - 1].end, duration, k);
    }
  }

  /** What the ramps from the i-th on add at `t`. */
  function Departures(spans: seq<Span>, i: nat, t: real): real
    requires i < |spans| && Wide(spans)
    decreases |spans| - i
  {
    if i + 1 == |spans| then 0.0 else DepartureAt(spans, i, t) + Departures(spans, i + 1, t)
  }

  lemma {:induction false} StepDeparts(spans: seq<Span>, duration: real, i: nat, cursor: real, t: real, flat: Piece,
                                       ramp: Piece)
    requires Covering(spans, duration) && i + 1 < |spans| && EarlyIn(spans, i, cursor) && Wide(spans)
    requires flat.a == cursor && flat.b == ramp.a == spans[i].end - Half(spans[i], spans[i + 1])
    requires ramp.b == spans[i].end + Half(spans[i], spans[i + 1])
    requires flat.r0 == flat.r1 == ramp.r0 == Rate(spans[i]) && ramp.r1 == Rate(spans[i + 1])
    ensures flat.a < flat.b && ramp.a < ramp.b
    ensures Part(flat, t) + Part(ramp, t) + Unsmoothed(spans, i + 1, ramp.b, t)
            == Unsmoothed(spans, i, cursor, t) + DepartureAt(spans, i, t)
  {
    HalfIsSmall(spans, spans[|spans| - 1].end, duration, i);
    GuardHolds(spans, spans[|spans| - 1].end, duration, i, cursor);
    assert SpanOk(spans[i + 1], duration) && spans[i].end == spans[i + 1].start;
    StepPlayed(spans, i, t, flat, ramp, Half(spans[i], spans[i + 1]), flat.r0, ramp.r1,
               Passed(t, cursor, spans[i].end), Passed(t, spans[i].end, ramp.b));
  }

  lemma {:induction false} LastPlayed(spans: seq<Span>, duration: real, i: nat, cursor: real, t: real, last: Piece,
                                      passed: real)
    requires i + 1 == |spans| && (forall k :: 0 <= k < |spans| ==> spans[k].speed > 0.0) && cursor < duration
    requires last.a == cursor && last.b == duration && last.r0 == last.r1 == Rate(spans[i])
    requires spans[i].end == duration || (t <= spans[i].end <= duration && cursor <= spans[i].end)
    requires passed == Passed(t, cursor, spans[i].end)
    ensures Part(last, t) == Unsmoothed(spans, i, cursor, t)
  {
    FlatPart(last, t, passed);
    OneSpan(spans, i, cursor, t, last.r0, passed);
  }

  lemma SumTwo(p: Piece, q: Piece, rest: seq<Piece>, t: real)
    requires p.a < p.b && q.a < q.b && AllPositive(rest)
    ensures AllPositive([p] + ([q] + rest)) && Sum([p] + ([q] + rest), t) == Part(p, t) + Part(q, t) + Sum(rest, t)
  {
    SumCons(q, rest, t);
    SumCons(p, [q] + rest, t);
  }

  lemma {:induction false} SumDeparts(spans: seq<Span>, duration: real, i: nat, cursor: real, t: real)
    requires Covering(spans, duration) && i < |spans| && EarlyIn(spans, i, cursor) && Wide(spans)
    requires t <= spans[|spans| - 1].end || spans[|spans| - 1].end == duration
    ensures AllPositive(PiecesFrom(spans, duration, i, cursor))
    ensures Sum(PiecesFrom(spans, duration, i, cursor), t) == Unsmoothed(spans, i, cursor, t) + Departures(spans, i, t)
    decreases |spans| - i
  {
    assert SpanOk(spans[i], duration);
    if i + 1 == |spans| {
      var last := LastPiece(spans, duration, i, cursor);
      SumCons(last, [], t);
      LastPlayed(spans, duration, i, cursor, t, last, Passed(t, cursor, spans[i].end));
    } else {
      HalfIsSmall(spans, spans[|spans| - 1].end, duration, i);
      var flat, ramp, rest := PiecesUnfold(spans, duration, i, cursor);
      SumDeparts(spans, duration, i + 1, ramp.b, t);
      StepDeparts(spans, duration, i, cursor, t, flat, ramp);
      SumTwo(flat, ramp, rest, t);
    }
  }

  /** At every time the map is the unsmoothed one and what the ramps add. */
  lemma {:induction false} MapDeparts(spans: seq<Span>, duration: real, t: real)
    requires Covering(spans, duration) && Wide(spans)
    requires t <= spans[|spans| - 1].end || spans[|spans| - 1].end == duration
    ensures Mapped(spans, duration, t) == Unsmoothed(spans, 0, 0.0, t) + Departures(spans, 0, t)
  {
    assert SpanOk(spans[0], duration);
    SumDeparts(spans, duration, 0, 0.0, t);
  }

  /** Outside its own stretch a ramp adds nothing. */
  lemma {:induction false} OutsideRamp(spans: seq<Span>, i: nat, t: real)
    requires i + 1 < |spans| && Wide(spans)
    requires var half := Half(spans[i], spans[i + 1]); t <= spans[i].end - half || t >= spans[i].end + half
    ensures DepartureAt(spans, i, t) == 0.0
  {
    EaseEnds();
    assert Depth(spans[i].end, Half(spans[i], spans[i + 1]), t) == 0.0;
  }

  lemma {:induction false} NoDepartures(spans: seq<Span>, i: nat, t: real)
    requires i < |spans| && Wide(spans) && OffRamps(spans, t)
    ensures Departures(spans, i, t) == 0.0
    decreases |spans| - i
  {
    if i + 1 < |spans| {
      OutsideRamp(spans, i, t);
      NoDepartures(spans, i + 1, t);
    }
  }

  /** Off the ramps the map is the unsmoothed one. */
  lemma {:induction false} OffRampsIsUnsmoothed(spans: seq<Span>, duration: real, t: real)
    requires Covering(spans, duration) && OffRamps(spans, t)
    requires t <= spans[|spans| - 1].end || spans[|spans| - 1].end == duration
    ensures Mapped(spans, duration, t) == Unsmoothed(spans, 0, 0.0, t)
  {
    CoveringIsWide(spans, duration);
    MapDeparts(spans, duration, t);
    NoDepartures(spans, 0, t);
  }

  // ----- the total -----

  /** The spans from the i-th on, each at its own speed. */
  function Total(spans: seq<Span>, i: nat): real
    requires i <= |spans| && forall k :: 0 <= k < |spans| ==> spans[k].speed > 0.0
    decreases |spans| - i
  {
    if i == |spans| then 0.0 else (spans[i].end - spans[i].start) / spans[i].speed + Total(spans, i + 1)
  }

  lemma RateTimes(s: Span, r: real, length: real)
    requires s.speed > 0.0 && r == Rate(s)
    ensures r * length == length / s.speed
  {
  }

  lemma {:induction false} UnsmoothedTotal(spans: seq<Span>, duration: real, i: nat)
    requires Covering(spans, duration) && i < |spans|
    ensures Unsmoothed(spans, i, spans[i].start, duration) == Total(spans, i)
    decreases |spans| - i
  {
    assert SpanOk(spans[i], duration);
    var length, r := spans[i].end - spans[i].start, Rate(spans[i]);
    OneSpan(spans, i, spans[i].start, duration, r, length);
    RateTimes(spans[i], r, length);
    if i + 1 < |spans| { UnsmoothedTotal(spans, duration, i + 1); }
  }

  lemma {:induction false} EndIsOffRamps(spans: seq<Span>, duration: real)
    requires Covering(spans, duration)
    ensures OffRamps(spans, duration)
  {
    forall i, j | 0 <= i && j == i + 1 < |spans| ensures duration >= spans[i].end + Half(spans[i], spans[j]) {
      HalfIsSmall(spans, spans[|spans| - 1].end, duration, i);
      assert SpanOk(spans[j], duration);
    }
  }

  /** The recording lasts as long as its spans do at their own speeds: the ramps cost nothing. */
  lemma {:induction false} TotalIsKept(spans: seq<Span>, duration: real)
    requires Covering(spans, duration) && spans[|spans| - 1].end == duration
    ensures Mapped(spans, duration, duration) == Total(spans, 0)
  {
    EndIsOffRamps(spans, duration);
    OffRampsIsUnsmoothed(spans, duration, duration);
    UnsmoothedTotal(spans, duration, 0);
  }

  // ----- computing the map -----

  /** `mapped`. */
  method MapTime(pieces: seq<Piece>, time: real) returns (result: real)
    requires AllPositive(pieces)
    ensures result == Sum(pieces, time)
  {
    result := 0.0;
    var i := 0;
    assert pieces[0..] == pieces;
    while i < |pieces|
      invariant 0 <= i <= |pieces| && result + Sum(pieces[i..], time) == Sum(pieces, time)
    {
      var p := pieces[i];
      assert pieces[i..][0] == p && pieces[i..][1..] == pieces[i + 1..];
      var part := PiecePart(p, time);
      result := result + part;
      i := i + 1;
    }
  }

  method PiecePart(p: Piece, time: real) returns (part: real)
    requires p.a < p.b
    ensures part == Part(p, time)
  {
    var u := (time - p.a) / (p.b - p.a);
    u := if u > 1.0 then 1.0 else u;
    u := if u < 0.0 then 0.0 else u;
    part := (p.b - p.a) * (p.r0 * u + (p.r1 - p.r0) * (u * u * u - u * u * u * u / 2.0));
  }

  /** The whole constructor and `mapped`: what the runs make of a source time. */
  method Retime(duration: real, runs: seq<Run>, time: real) returns (r: Option<real>, ghost spans: seq<Span>)
    ensures r.None? <==> !Acceptable(duration, runs, 0, 0.0)
    ensures r.Some? ==> Covering(spans, duration) && |spans| == |runs| && r.value == Mapped(spans, duration, time)
    ensures r.Some? ==> forall i :: 0 <= i < |runs| ==>
              spans[i].speed == runs[i].speed
              && spans[i].end == if runs[i].end.None? then duration else runs[i].end.value
  {
    var read := ReadSpans(duration, runs);
    if read.None? { return None, []; }
    spans := read.value;
    MapTiles(spans, duration);
    var pieces := BuildPieces(read.value, duration);
    var result := MapTime(pieces, time);
    r := Some(result);
  }

  // ----- the emitted formula -----

  /** Formulas over the source time, as the filter reads them. */
  datatype Expr =
    | Source
    | Num(value: real)
    | Plus(left: Expr, right: Expr)
    | Minus(left: Expr, right: Expr)
    | Times(left: Expr, right: Expr)
    | Over(left: Expr, divisor: real)
    | Clipped(inner: Expr, lo: real, hi: real)
    | Power(inner: Expr, exponent: nat)

  function Pow(x: real, n: nat): real { if n == 0 then 1.0 else x * Pow(x, n - 1) }

  function Eval(e: Expr, t: real): real {
    match e
    case Source => t
    case Num(value) => value
    case Plus(l, r) => Eval(l, t) + Eval(r, t)
    case Minus(l, r) => Eval(l, t) - Eval(r, t)
    case Times(l, r) => Eval(l, t) * Eval(r, t)
    case Over(l, divisor) => if divisor == 0.0 then 0.0 else Eval(l, t) / divisor
    case Clipped(x, lo, hi) => Clip(Eval(x, t), lo, hi)
    case Power(x, n) => Pow(Eval(x, t), n)
  }

  function ProgressTerm(p: Piece): Expr { Clipped(Over(Minus(Source, Num(p.a)), p.b - p.a), 0.0, 1.0) }

  function EaseTerm(u: Expr): Expr { Minus(Power(u, 3), Times(Num(0.5), Power(u, 4))) }

  function BlendTerm(l: real, r0: real, d: real, u: Expr, ease: Expr): Expr {
    Times(Num(l), Plus(Times(Num(r0), u), Times(Num(d), ease)))
  }

  function RampTerm(p: Piece): Expr {
    BlendTerm(p.b - p.a, p.r0, p.r1 - p.r0, ProgressTerm(p), EaseTerm(ProgressTerm(p)))
  }

  function FlatTerm(p: Piece): Expr { Times(Clipped(Minus(Source, Num(p.a)), 0.0, p.b - p.a), Num(p.r0)) }

  function TermOf(p: Piece): Expr { if p.r0 == p.r1 then FlatTerm(p) else RampTerm(p) }

  function EvalSum(terms: seq<Expr>, t: real): real {
    if terms == [] then 0.0 else EvalSum(terms[..|terms| - 1], t) + Eval(terms[|terms| - 1], t)
  }

  lemma PowIs(u: real)
    ensures Pow(u, 3) == u * u * u && Pow(u, 4) == u * u * u * u
  {
    assert Pow(u, 1) == u;
    assert Pow(u, 2) == u * u;
    assert Pow(u, 3) == u * (u * u);
  }

  lemma ProgressTermIs(p: Piece, t: real)
    requires p.a < p.b
    ensures Eval(ProgressTerm(p), t) == Progress(p, t)
  {
    assert Eval(Minus(Source, Num(p.a)), t) == t - p.a;
  }

  lemma EaseTermIs(e: Expr, t: real)
    ensures Eval(EaseTerm(e), t) == Ease(Eval(e, t))
  {
    assert Eval(Times(Num(0.5), Power(e, 4)), t) == 0.5 * Pow(Eval(e, t), 4);
    PowIs(Eval(e, t));
  }

  lemma TimesNum(v: real, e: Expr, t: real, x: real)
    requires x == Eval(e, t)
    ensures Eval(Times(Num(v), e), t) == v * x
  {
  }

  lemma BlendTermIs(l: real, r0: real, d: real, u: Expr, ease: Expr, t: real, x: real, y: real, z: real)
    requires x == Eval(u, t) && y == Eval(ease, t) && z == r0 * x + d * y
    ensures Eval(BlendTerm(l, r0, d, u, ease), t) == l * z
  {
    TimesNum(r0, u, t, x);
    TimesNum(d, ease, t, y);
    TimesNum(l, Plus(Times(Num(r0), u), Times(Num(d), ease)), t, z);
  }

  lemma RampTermIs(p: Piece, t: real)
    requires p.a < p.b
    ensures Eval(RampTerm(p), t) == Part(p, t)
  {
    var u, x := ProgressTerm(p), Progress(p, t);
    ProgressTermIs(p, t);
    EaseTermIs(u, t);
    BlendTermIs(p.b - p.a, p.r0, p.r1 - p.r0, u, EaseTerm(u), t, x, Ease(x), p.r0 * x + (p.r1 - p.r0) * Ease(x));
  }

  lemma FlatTermIs(p: Piece, t: real)
    requires p.a < p.b && p.r0 == p.r1
    ensures Eval(FlatTerm(p), t) == Part(p, t)
  {
    var passed := Passed(t, p.a, p.b);
    FlatPart(p, t, passed);
    assert Eval(Minus(Source, Num(p.a)), t) == t - p.a;
    assert Eval(Clipped(Minus(Source, Num(p.a)), 0.0, p.b - p.a), t) == passed;
  }

  lemma {:induction false} SumSnoc(ps: seq<Piece>, p: Piece, t: real)
    requires AllPositive(ps) && p.a < p.b
    ensures AllPositive(ps + [p]) && Sum(ps + [p], t) == Sum(ps, t) + Part(p, t)
  {
    if ps != [] {
      SumSnoc(ps[1..], p, t);
      assert (ps + [p])[1..] == ps[1..] + [p];
    } else {
      assert ([] + [p])[1..] == [];
    }
  }

  /** `expression`: the emitted formula has the value of the map at every source time. */
  method Expression(pieces: seq<Piece>) returns (terms: seq<Expr>)
    requires AllPositive(pieces)
    ensures |terms| == |pieces| && forall t :: EvalSum(terms, t) == Sum(pieces, t)
  {
    terms := [];
    var i := 0;
    while i < |pieces|
      invariant 0 <= i <= |pieces| && |terms| == i
      invariant forall t :: EvalSum(terms, t) == Sum(pieces[..i], t)
    {
      var p := pieces[i];
      var term := if p.r0 == p.r1 then FlatTerm(p) else RampTerm(p);
      ExtendFormula(terms, term, pieces, i);
      terms := terms + [term];
      i := i + 1;
    }
    assert pieces[..|pieces|] == pieces;
  }

  lemma ExtendFormula(terms: seq<Expr>, term: Expr, pieces: seq<Piece>, i: nat)
    requires AllPositive(pieces) && i < |pieces| && term == TermOf(pieces[i])
    requires forall t :: EvalSum(terms, t) == Sum(pieces[..i], t)
    ensures forall t :: EvalSum(terms + [term], t) == Sum(pieces[..i + 1], t)
  {
    forall t ensures EvalSum(terms + [term], t) == Sum(pieces[..i + 1], t) {
      var p := pieces[i];
      if p.r0 == p.r1 { FlatTermIs(p, t); } else { RampTermIs(p, t); }
      assert (terms + [term])[..|terms|] == terms;
      SumSnoc(pieces[..i], p, t);
      assert pieces[..i + 1] == pieces[..i] + [p];
    }
  }
}
