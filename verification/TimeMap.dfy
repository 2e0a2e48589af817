/**
The time map of a recording played at several speeds: pieces of constant speed
joined by smooth ramps. Times are exact reals.
 */
module TimeMap {
  import opened Common
  import opened SmoothStep

  const TOLERANCE: real := 0.000001
  const MAX_HALF: real := 0.6

  datatype Run = Run(end: Option<real>, speed: real)
  datatype Span = Span(start: real, end: real, speed: real)

  /** From `a` to `b` the rate, output time over source time, goes from `r0` to `r1`. */
  datatype Piece = Piece(a: real, b: real, r0: real, r1: real)

  // ----- spans -----

  predicate SpanOk(s: Span, duration: real) { s.start < s.end <= duration && 1.0 <= s.speed <= 128.0 }

  /** The spans follow each other from 0 to `end`. */
  predicate Chained(spans: seq<Span>, end: real, duration: real) {
    && (forall i :: 0 <= i < |spans| ==> SpanOk(spans[i], duration))
    && (forall i, j :: 0 <= i && j == i + 1 < |spans| ==> spans[i].end == spans[j].start)
    && (if spans == [] then end == 0.0 else spans[0].start == 0.0 && spans[|spans| - 1].end == end)
  }

  predicate Covering(spans: seq<Span>, duration: real) {
    spans != [] && Chained(spans, spans[|spans| - 1].end, duration) && duration - spans[|spans| - 1].end <= TOLERANCE
  }

  /** The spans of the runs, or `None` where the constructor raises. */
  method ReadSpans(duration: real, runs: seq<Run>) returns (r: Option<seq<Span>>)
    ensures r.Some? ==> Covering(r.value, duration) && |r.value| == |runs|
    ensures r.Some? ==> forall i :: 0 <= i < |runs| ==>
              r.value[i].speed == runs[i].speed
              && r.value[i].end == if runs[i].end.None? then duration else runs[i].end.value
    ensures r.None? <==> !Acceptable(duration, runs, 0, 0.0)
  {
    var spans: seq<Span>, start, i := [], 0.0, 0;
    while i < |runs|
      invariant 0 <= i <= |runs| && |spans| == i && Chained(spans, start, duration)
      invariant forall k :: 0 <= k < i ==>
                  spans[k].speed == runs[k].speed
                  && spans[k].end == if runs[k].end.None? then duration else runs[k].end.value
      invariant Acceptable(duration, runs, 0, 0.0) == Acceptable(duration, runs, i, start)
    {
      var end := if runs[i].end.None? then duration else runs[i].end.value;
      if !(start < end <= duration) || !(1.0 <= runs[i].speed <= 128.0) { return None; }
      spans := spans + [Span(start, end, runs[i].speed)];
      start, i := end, i + 1;
    }
    if spans == [] || duration - start > TOLERANCE { return None; }
    r := Some(spans);
  }

  /** The runs from the i-th on increase within the source and reach its end. */
  predicate Acceptable(duration: real, runs: seq<Run>, i: nat, start: real)
    requires i <= |runs|
    decreases |runs| - i
  {
    if i == |runs| then i > 0 && duration - start <= TOLERANCE
    else
      var end := if runs[i].end.None? then duration else runs[i].end.value;
      start < end <= duration && 1.0 <= runs[i].speed <= 128.0 && Acceptable(duration, runs, i + 1, end)
  }

  /** Where the i-th run ends, and the one before it. */
  function EndOf(duration: real, runs: seq<Run>, i: int): real
    requires -1 <= i < |runs|
  {
    if i == -1 then 0.0 else if runs[i].end.None? then duration else runs[i].end.value
  }

  predicate RunOk(duration: real, runs: seq<Run>, i: nat)
    requires i < |runs|
  {
    && EndOf(duration, runs, i - 1) < EndOf(duration, runs, i) <= duration
    && 1.0 <= runs[i].speed <= 128.0
  }

  lemma {:induction false} AcceptableFrom(duration: real, runs: seq<Run>, i: nat)
    requires i <= |runs|
    ensures Acceptable(duration, runs, i, EndOf(duration, runs, i - 1))
            <==> (forall k :: i <= k < |runs| ==> RunOk(duration, runs, k))
                 && |runs| > 0 && duration - EndOf(duration, runs, |runs| - 1) <= 0.000001
    decreases |runs| - i
  {
    if i < |runs| {
      AcceptableFrom(duration, runs, i + 1);
      assert (forall k :: i <= k < |runs| ==> RunOk(duration, runs, k))
          <==> RunOk(duration, runs, i) && forall k :: i + 1 <= k < |runs| ==> RunOk(duration, runs, k);
    }
  }

  /** Runs are accepted exactly if each ends later than the one before, within the source, and the last at its end. */
  lemma AcceptedExactly(duration: real, runs: seq<Run>)
    ensures Acceptable(duration, runs, 0, 0.0)
            <==> (forall k :: 0 <= k < |runs| ==> RunOk(duration, runs, k))
                 && |runs| > 0 && duration - EndOf(duration, runs, |runs| - 1) <= 0.000001
  {
    AcceptableFrom(duration, runs, 0);
  }

  // ----- pieces -----

  function Min3(x: real, y: real, z: real): real {
    var m := if y < x then y else x; if z < m then z else m
  }

  function Half(left: Span, right: Span): real {
    Min3(MAX_HALF, (left.end - left.start) / 4.0, (right.end - right.start) / 4.0)
  }

  function Rate(s: Span): real
    requires s.speed > 0.0
  {
    1.0 / s.speed
  }

  /** The pieces from `cursor` on, in the i-th span. */
  function PiecesFrom(spans: seq<Span>, duration: real, i: nat, cursor: real): seq<Piece>
    requires i < |spans| && forall k :: 0 <= k < |spans| ==> spans[k].speed > 0.0
    decreases |spans| - i
  {
    var rate := Rate(spans[i]);
    if i + 1 == |spans| then [Piece(cursor, duration, rate, rate)]
    else
      var half, boundary := Half(spans[i], spans[i + 1]), spans[i].end;
      [Piece(cursor, boundary - half, rate, rate)]
      + ([Piece(boundary - half, boundary + half, rate, Rate(spans[i + 1]))]
         + PiecesFrom(spans, duration, i + 1, boundary + half))
  }

  /** `cursor` lies in the first quarter of the i-th span. */
  predicate EarlyIn(spans: seq<Span>, i: nat, cursor: real)
    requires i < |spans|
  {
    spans[i].start <= cursor <= spans[i].start + (spans[i].end - spans[i].start) / 4.0
  }

  lemma HalfIsSmall(spans: seq<Span>, end: real, duration: real, i: nat)
    requires i + 1 < |spans| && Chained(spans, end, duration)
    ensures var half := Half(spans[i], spans[i + 1]);
            && 0.0 < half <= (spans[i].end - spans[i].start) / 4.0
            && EarlyIn(spans, i + 1, spans[i].end + half)
  {
    assert SpanOk(spans[i], duration) && SpanOk(spans[i + 1], duration) && spans[i].end == spans[i + 1].start;
  }

  /** The guard before each piece of constant speed always holds. */
  lemma GuardHolds(spans: seq<Span>, end: real, duration: real, i: nat, cursor: real)
    requires i + 1 < |spans| && Chained(spans, end, duration) && EarlyIn(spans, i, cursor)
    ensures spans[i].end - Half(spans[i], spans[i + 1]) > cursor
  {
    HalfIsSmall(spans, end, duration, i);
    assert SpanOk(spans[i], duration);
  }

  /** Two more pieces are built. */
  lemma BuildNext(spans: seq<Span>, duration: real, i: nat, cursor: real, done: seq<Piece>, flat: Piece, ramp: Piece)
    requires i + 1 < |spans| && forall k :: 0 <= k < |spans| ==> spans[k].speed > 0.0
    requires var half, boundary, rate := Half(spans[i], spans[i + 1]), spans[i].end, Rate(spans[i]);
             && flat == Piece(cursor, boundary - half, rate, rate)
             && ramp == Piece(boundary - half, boundary + half, rate, Rate(spans[i + 1]))
    ensures done + PiecesFrom(spans, duration, i, cursor)
            == done + [flat] + [ramp] + PiecesFrom(spans, duration, i + 1, ramp.b)
  {
    var rest := PiecesFrom(spans, duration, i + 1, ramp.b);
    assert done + ([flat] + ([ramp] + rest)) == done + [flat] + [ramp] + rest;
  }

  lemma SpeedsArePositive(spans: seq<Span>, end: real, duration: real)
    requires Chained(spans, end, duration)
    ensures forall k :: 0 <= k < |spans| ==> spans[k].speed > 0.0
  {
    forall k | 0 <= k < |spans| ensures spans[k].speed > 0.0 { assert SpanOk(spans[k], duration); }
  }

  /** The pieces of a covering list of spans. */
  method BuildPieces(spans: seq<Span>, duration: real) returns (pieces: seq<Piece>)
    requires Covering(spans, duration)
    ensures pieces == PiecesFrom(spans, duration, 0, 0.0)
  {
    ghost var end := spans[|spans| - 1].end;
    pieces := [];
    var cursor, previous := 0.0, 1.0 / spans[0].speed;
    var i := 0;
    SpeedsArePositive(spans, end, duration);
    assert SpanOk(spans[0], duration);
    ghost var all := PiecesFrom(spans, duration, 0, 0.0);
    assert [] + all == all;
    while i + 1 < |spans|
      invariant 0 <= i < |spans| && EarlyIn(spans, i, cursor) && previous == Rate(spans[i])
      invariant all == pieces + PiecesFrom(spans, duration, i, cursor)
    {
      var left, right := spans[i], spans[i + 1];
      var boundary := left.end;
      var half := Min3(MAX_HALF, (left.end - left.start) / 4.0, (right.end - right.start) / 4.0);
      GuardHolds(spans, end, duration, i, cursor);
      HalfIsSmall(spans, end, duration, i);
      BuildNext(spans, duration, i, cursor, pieces, Piece(cursor, boundary - half, previous, previous),
                Piece(boundary - half, boundary + half, previous, 1.0 / right.speed));
      if boundary - half > cursor {
        pieces := pieces + [Piece(cursor, boundary - half, previous, previous)];
      }
      var following := 1.0 / right.speed;
      pieces := pieces + [Piece(boundary - half, boundary + half, previous, following)];
      cursor, previous := boundary + half, following;
      i := i + 1;
    }
    pieces := pieces + [Piece(cursor, duration, previous, previous)];
  }
}
