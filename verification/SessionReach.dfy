/**
What an observed session can do when the provider answers: every submission it
accepted is pasted, submitted, acknowledged and leaves the queue, one after the other.
 */
module SessionReach {
  import opened Common
  import opened DeliveryRecord
  import opened DeliveryWorker
  import opened DeliveryLaws
  import opened DeliveryProtocol
  import opened DeliverySafety
  import opened DeliveryReplay
  import opened DeliveryChart
  import opened DeliveryStart
  import opened Observation
  import opened SessionDesk
  import opened SessionProtocol
  import opened SessionSafety
  import opened SessionOrder
  import opened SessionRace
  import opened SessionChoice
  import R = DeliveryReach
  import T = DeliveryTable

  // ----- the front is begun -----

  /** Nothing is on record or under way, a submission waits, and the provider is idle. */
  ghost predicate IsPoised(f: Config, x: Session) {
    && SessionInv(f, x) && Unsaturated(x.system) && x.system.core.deliveries == map[] && x.system.queue == []
    && x.head < |x.accepted| && !x.desk.hookPending && AgentIs(x, Idle)
  }

  /** Apart from what the k-th worker does, nothing changes but the record and the queue of events. */
  ghost predicate Along(x: Session, k: nat, y: Session) {
    && y.desk == x.desk && y.accepted == x.accepted && y.head == x.head && y.entry == x.entry
    && |y.system.workers| == |x.system.workers| && y.system.fates == x.system.fates
    && forall i :: 0 <= i < |x.system.workers| && i != k ==> y.system.workers[i] == x.system.workers[i]
  }

  /** The k-th delivery is on record for the front, unconfirmed, and its worker is where the course says. */
  ghost predicate InHand(f: Config, x: Session, k: nat, c: R.Course, state: State) {
    && SessionInv(f, x) && Unsaturated(x.system) && Held(x.system.core, f.id, k)
    && x.system.core.deliveries[f.id].state == state
    && (state.WritingPaste? ==> x.system.core.deliveries[f.id].confirmation.None?)
    && R.Stands(x.system, k, c) && k < |x.entry| && x.entry[k] == x.head < |x.accepted|
    && !x.desk.hookPending
  }

  lemma PoisedDispatches(f: Config, x: Session) returns (l: Label)
    requires IsPoised(f, x)
    ensures Possible(f, x, Dispatches(WILLING)) && LabelOf(f, x, Dispatches(WILLING)) == Some(l)
    ensures l.Begins? && l.sid == f.id && l.epoch == f.epoch && l.terminal == WILLING
    ensures Allows(x.system.core, f.id, f.epoch) && Fits(x.system.core, f.id)
  {
    ChoosesExactly(f, x.desk, x.system.core);
    l := LabelOf(f, x, Dispatches(WILLING)).value;
  }

  lemma PoisedBegins(f: Config, x: Session, y: Session, k: nat, c: R.Course)
    requires IsPoised(f, x) && |x.system.workers| + 1 < U64_MAX && k == |x.system.workers|
    requires Possible(f, x, Dispatches(WILLING)) && y == Act(f, x, Dispatches(WILLING))
    requires k < |y.system.workers| && k < |y.system.core.signals|
    requires c == R.Course(y.system.workers[k], y.system.core.signals[k], [])
    ensures Calmly(f, x, Dispatches(WILLING), y) && InHand(f, y, k, c, WritingPaste) && R.Willing(c)
    ensures c.signals.ack.Open? && y.system.queue == [] && y.entry == x.entry + [x.head] && |y.system.workers| == k + 1
    ensures y.desk == x.desk && y.accepted == x.accepted && y.head == x.head
    ensures forall i :: 0 <= i < k ==> y.system.workers[i] == x.system.workers[i]
  {
    var l := PoisedDispatches(f, x);
    DispatchingKeeps(f, x, Dispatches(WILLING), l, y);
    DispatchActs(f, x, Dispatches(WILLING), l, y);
    BeginStarts(x.system, l, y.system);
    BeginOvertakesNobody(x.system, l, y.system);
    assert WorkerOk(c.worker, c.signals);
    forall i | 0 <= i < k ensures y.system.workers[i] == x.system.workers[i] { StepFrame(x.system, l, i); }
  }

  // ----- its worker submits -----

  /** The reports of the k-th worker, as events under way. */
  ghost function EventsOf(f: Config, k: nat, sent: seq<(Outcome, Diagnostics)>): seq<Event> {
    seq(|sent|, i requires 0 <= i < |sent| => Event(f.id, f.epoch, T.IdOf(k), sent[i].0, sent[i].1))
  }

  /** The k-th delivery is in hand, and what its worker reported is all that is under way. */
  ghost predicate InTransit(f: Config, x: Session, k: nat, c: R.Course) {
    InHand(f, x, k, c, WritingPaste) && x.system.queue == EventsOf(f, k, c.sent)
  }

  lemma WorkMoves(f: Config, x: Session, k: nat, r: Reply, y: Session)
    requires SessionInv(f, x) && Unsaturated(x.system) && k < |x.system.workers| && y == Act(f, x, Works(k, r))
    ensures Calmly(f, x, Works(k, r), y) && SessionInv(f, y) && Along(x, k, y)
    ensures y.system == Step(x.system, WorkerMoves(k, r)) && y.system.core.deliveries == x.system.core.deliveries
  {
    ActKeeps(f, x, Works(k, r));
    FatesStay(x.system, y.system);
  }

  lemma EventsGrow(f: Config, k: nat, sent: seq<(Outcome, Diagnostics)>, last: (Outcome, Diagnostics))
    ensures EventsOf(f, k, sent + [last]) == EventsOf(f, k, sent) + [Event(f.id, f.epoch, T.IdOf(k), last.0, last.1)]
  {
  }

  lemma WorkReports(f: Config, s: System, k: nat, c: R.Course, r: Reply)
    requires WellFormed(s) && R.Stands(s, k, c) && c.worker.session == f.id && c.worker.epoch == f.epoch
    requires s.queue == EventsOf(f, k, c.sent)
    ensures R.Stands(Step(s, WorkerMoves(k, r)), k, R.Onward(c, r))
    ensures Step(s, WorkerMoves(k, r)).queue == EventsOf(f, k, R.Onward(c, r).sent)
  {
    var m := Move(c.worker, c.signals, r);
    MoveContinues(c.worker, c.signals, r);
    if m.sent.Some? { EventsGrow(f, k, c.sent, m.sent.value); }
  }

  lemma WorkOnce(f: Config, x: Session, k: nat, c: R.Course, r: Reply, y: Session)
    requires InTransit(f, x, k, c) && y == Act(f, x, Works(k, r))
    ensures Calmly(f, x, Works(k, r), y) && InTransit(f, y, k, R.Onward(c, r)) && Along(x, k, y)
  {
    WorkMoves(f, x, k, r, y);
    assert LinkOk(f, x, k);
    WorkReports(f, x.system, k, c, r);
  }

  lemma AlongFrom(x: Session, k: nat, y: Session, z: Session)
    requires Along(x, k, y) && Along(y, k, z)
    ensures Along(x, k, z)
  {
  }

  /** The worker alone goes where the answers lead it. */
  lemma {:induction false} WorksOn(f: Config, xs: seq<Session>, acts: seq<Action>, k: nat, c: R.Course, rs: seq<Reply>)
    returns (ys: seq<Session>, bs: seq<Action>)
    requires IsSessionRun(f, xs, acts) && InTransit(f, xs[|acts|], k, c)
    ensures GoesOn(f, xs, acts, ys, bs) && InTransit(f, ys[|bs|], k, R.Answered(c, rs))
    ensures Along(xs[|acts|], k, ys[|bs|])
  {
    ys, bs := xs, acts;
    if rs != [] {
      ys, bs := WorksOn(f, xs, acts, k, c, rs[..|rs| - 1]);
      var r := rs[|rs| - 1];
      var y := Act(f, ys[|bs|], Works(k, r));
      WorkOnce(f, ys[|bs|], k, R.Answered(c, rs[..|rs| - 1]), r, y);
      AlongFrom(xs[|acts|], k, ys[|bs|], y);
      OneMore(f, xs, acts, ys, bs, Works(k, r), y);
      ys, bs := ys + [y], bs + [Works(k, r)];
    }
  }

  /** The worker of the front has pressed Enter, and its report of it is under way. */
  ghost predicate HasPressed(f: Config, x: Session, k: nat, c: R.Course) {
    && InTransit(f, x, k, c) && |c.sent| == 1 && R.IsSubmitted(c.sent[0]) && c.worker.trace == Submits(1)
    && !InWindow(c.worker.pc)
  }

  lemma AnswersToSubmit(c: R.Course) returns (d: R.Course, rs: seq<Reply>)
    requires R.Willing(c) && c.sent == []
    ensures R.Answered(c, rs) == d && |d.sent| == 1 && R.IsSubmitted(d.sent[0]) && d.worker.trace == Submits(1)
    ensures !InWindow(d.worker.pc)
  {
    d := R.WillingSubmits(c);
    rs :| R.Answered(c, rs) == d;
  }

  lemma SubmitsFront(f: Config, xs: seq<Session>, acts: seq<Action>, k: nat, c: R.Course)
    returns (ys: seq<Session>, bs: seq<Action>, d: R.Course)
    requires IsSessionRun(f, xs, acts) && InTransit(f, xs[|acts|], k, c) && R.Willing(c) && c.sent == []
    ensures GoesOn(f, xs, acts, ys, bs) && HasPressed(f, ys[|bs|], k, d) && Along(xs[|acts|], k, ys[|bs|])
  {
    var rs: seq<Reply>;
    d, rs := AnswersToSubmit(c);
    ys, bs := WorksOn(f, xs, acts, k, c, rs);
  }

  // ----- the report is received, and the turn acknowledged -----

  /** The step leaves the workers alone, and the table with the one record. */
  ghost predicate Onwards(x: Session, y: Session) {
    y.system.workers == x.system.workers && y.entry == x.entry && y.head == x.head && y.accepted == x.accepted
  }

  lemma ReceivesMoves(f: Config, x: Session, y: Session)
    requires SessionInv(f, x) && Unsaturated(x.system) && x.system.queue != [] && y == Act(f, x, ReceivesEvent)
    ensures Calmly(f, x, ReceivesEvent, y) && SessionInv(f, y) && Onwards(x, y) && y.desk == x.desk
    ensures Next(x.system, Receives, y.system) && y.system.queue == x.system.queue[1..]
  {
    MovingKeeps(f, x, ReceivesEvent, Receives, y);
    MovingActs(f, x, ReceivesEvent, Receives, y);
    FatesStay(x.system, y.system);
    forall i | 0 <= i < |x.system.workers| ensures y.system.workers[i] == x.system.workers[i] {
      StepFrame(x.system, Receives, i);
    }
  }

  /** The front awaits its acknowledgement. */
  ghost predicate IsAwaited(f: Config, x: Session, k: nat) {
    && SessionInv(f, x) && Unsaturated(x.system) && Held(x.system.core, f.id, k) && x.system.queue == []
    && x.system.core.deliveries[f.id].state.AwaitingProviderAck?
    && k < |x.entry| && x.entry[k] == x.head && x.system.workers[k].trace == Submits(1)
    && !InWindow(x.system.workers[k].pc) && !x.desk.hookPending
  }

  lemma ReportsOfFront(f: Config, x: Session, k: nat, c: R.Course)
    requires HasPressed(f, x, k, c)
    ensures |x.system.queue| == 1 && Enabled(x.system, Receives) && f.id in x.system.core.deliveries
    ensures NewsAbout(x.system, Receives, f.id) == Report(Submitted, c.sent[0].1)
  {
    assert RecordLinked(x.system, f.id);
  }

  lemma ReportAwaits(f: Config, s: System, m: Diagnostics, t: System)
    requires Inv(s) && Next(s, Receives, t) && RecordLinked(s, f.id) && s.core.deliveries[f.id].state.WritingPaste?
    requires s.core.deliveries[f.id].confirmation.None? && NewsAbout(s, Receives, f.id) == Report(Submitted, m)
    ensures Held(t.core, f.id, s.core.deliveries[f.id].cell) && t.core.deliveries[f.id].state.AwaitingProviderAck?
  {
    NewsStepIsCharted(s, Receives, t, f.id, T.SlotOf(s.core, f.id), Report(Submitted, m));
    NewsIsPut(s, Receives, f.id, t.core);
  }

  lemma PressedIsAwaited(f: Config, x: Session, k: nat, c: R.Course, y: Session)
    requires HasPressed(f, x, k, c) && SessionInv(f, y) && Onwards(x, y) && y.desk == x.desk
    requires |x.system.queue| == 1 && y.system.queue == x.system.queue[1..]
    requires Held(y.system.core, f.id, k) && y.system.core.deliveries[f.id].state.AwaitingProviderAck?
    ensures IsAwaited(f, y, k)
  {
  }

  lemma ReceivesReport(f: Config, x: Session, k: nat, c: R.Course, y: Session)
    requires HasPressed(f, x, k, c) && Possible(f, x, ReceivesEvent) && y == Act(f, x, ReceivesEvent)
    ensures Calmly(f, x, ReceivesEvent, y) && IsAwaited(f, y, k) && Onwards(x, y) && y.desk == x.desk
  {
    ReportsOfFront(f, x, k, c);
    ReceivesMoves(f, x, y);
    assert RecordLinked(x.system, f.id);
    ReportAwaits(f, x.system, c.sent[0].1, y.system);
    PressedIsAwaited(f, x, k, c, y);
  }

  /** The front is acknowledged. */
  ghost predicate IsAnswered(f: Config, x: Session, k: nat) {
    && SessionInv(f, x) && Unsaturated(x.system) && Held(x.system.core, f.id, k) && x.system.queue == []
    && x.system.core.deliveries[f.id].state.Confirmed?
    && k < |x.entry| && x.entry[k] == x.head && x.system.workers[k].trace == Submits(1)
    && !InWindow(x.system.workers[k].pc) && !x.desk.hookPending
  }

  lemma TurnConfirms(f: Config, s: System, l: Label, t: System)
    requires Inv(s) && Next(s, l, t) && RecordLinked(s, f.id) && s.core.deliveries[f.id].state.AwaitingProviderAck?
    requires l.Acknowledges? && l.sid == f.id && l.epoch == s.core.deliveries[f.id].epoch
    requires l.sequence > s.core.deliveries[f.id].baseline
    ensures Held(t.core, f.id, s.core.deliveries[f.id].cell) && t.core.deliveries[f.id].state.Confirmed?
    ensures t.queue == s.queue
  {
    NewsStepIsCharted(s, l, t, f.id, T.SlotOf(s.core, f.id), Turn(l.sequence, l.activity));
    NewsIsPut(s, l, f.id, t.core);
  }

  lemma HearsTurn(f: Config, x: Session, k: nat, a: Action, y: Session)
    requires IsAwaited(f, x, k) && Sequence(x.desk) + 1 <= U64_MAX
    requires a == Prompted(f.provider) && Possible(f, x, a) && y == Act(f, x, a)
    ensures Calmly(f, x, a, y) && IsAnswered(f, y, k) && Onwards(x, y) && y.desk == DeskAfter(f, x, a)
  {
    AsideKeeps(f, x, a, y);
    assert RecordLinked(x.system, f.id);
    TurnConfirms(f, x.system, LabelOf(f, x, a).value, y.system);
  }

  /** The front has left the queue. */
  ghost predicate HasLeft(f: Config, x: Session, k: nat, y: Session) {
    && SessionInv(f, y) && Unsaturated(y.system) && y.system.core.deliveries == map[] && y.system.queue == []
    && y.head == x.head + 1 && y.accepted == x.accepted && y.entry == x.entry
    && y.system.workers == x.system.workers && !y.desk.hookPending
  }

  lemma SettlesFront(f: Config, x: Session, k: nat, y: Session)
    requires IsAnswered(f, x, k) && Possible(f, x, Settles) && y == Act(f, x, Settles)
    ensures Calmly(f, x, Settles, y) && HasLeft(f, x, k, y) && y.desk.observation == x.desk.observation
  {
    FrontIsOnRecord(f, x);
    RemovingKeeps(f, x, Settles, y);
    RemovalOvertakesNobody(x.system, f.id, y.system);
  }

  lemma HearsEnd(f: Config, x: Session, a: Action, y: Session)
    requires SessionInv(f, x) && Unsaturated(x.system) && x.system.core.deliveries == map[] && x.system.queue == []
    requires a == Ended(f.provider) && Possible(f, x, a) && y == Act(f, x, a)
    ensures Calmly(f, x, a, y) && SessionInv(f, y) && y.system == x.system && y.entry == x.entry && y.head == x.head
    ensures y.accepted == x.accepted && y.desk == DeskAfter(f, x, a)
  {
    AsideKeeps(f, x, a, y);
    UnchangedStep(x.system, LabelOf(f, x, a).value);
  }

  // ----- one submission after the other -----

  /** The front was delivered: a new worker, with nobody else moved, pressed Enter once for it. */
  ghost predicate Delivers(f: Config, x: Session, y: Session) {
    && SessionInv(f, y) && Unsaturated(y.system) && y.system.core.deliveries == map[] && y.system.queue == []
    && y.accepted == x.accepted && y.head == x.head + 1 && y.entry == x.entry + [x.head]
    && |y.system.workers| == |x.system.workers| + 1 == |y.entry|
    && (forall i :: 0 <= i < |x.system.workers| ==> y.system.workers[i] == x.system.workers[i])
    && y.system.workers[|x.system.workers|].trace == Submits(1)
    && !y.desk.hookPending && AgentIs(y, Idle) && Sequence(y.desk) <= Sequence(x.desk) + 2
  }

  lemma PressesFront(f: Config, xs: seq<Session>, acts: seq<Action>, k: nat)
    returns (ys: seq<Session>, bs: seq<Action>, d: R.Course)
    requires IsSessionRun(f, xs, acts) && IsPoised(f, xs[|acts|]) && |xs[|acts|].system.workers| + 1 < U64_MAX
    requires k == |xs[|acts|].system.workers|
    ensures GoesOn(f, xs, acts, ys, bs) && HasPressed(f, ys[|bs|], k, d)
    ensures var x, y := xs[|acts|], ys[|bs|];
            && y.desk == x.desk && y.accepted == x.accepted && y.head == x.head && y.entry == x.entry + [x.head]
            && |y.system.workers| == k + 1 && forall i :: 0 <= i < k ==> y.system.workers[i] == x.system.workers[i]
  {
    var x := xs[|acts|];
    var _ := PoisedDispatches(f, x);
    var y := Act(f, x, Dispatches(WILLING));
    BeginsOne(f, x, y);
    var c := R.Course(y.system.workers[k], y.system.core.signals[k], []);
    PoisedBegins(f, x, y, k, c);
    GoOn(f, xs, acts, Dispatches(WILLING), y);
    var zs, ds := xs + [y], acts + [Dispatches(WILLING)];
    ys, bs, d := SubmitsFront(f, zs, ds, k, c);
    GoesOnFrom(f, xs, acts, zs, ds, ys, bs);
  }

  lemma BeginsOne(f: Config, x: Session, y: Session)
    requires IsPoised(f, x) && Possible(f, x, Dispatches(WILLING)) && y == Act(f, x, Dispatches(WILLING))
    ensures |y.system.workers| == |y.system.core.signals| == |x.system.workers| + 1
  {
    var l := PoisedDispatches(f, x);
    BeginStarts(x.system, l, y.system);
  }

  /** The states a session goes through from the report of the submit to the end of the turn. */
  lemma TurnFollows(f: Config, x: Session, k: nat, c: R.Course) returns (y: Session, z: Session, v: Session, w: Session)
    requires HasPressed(f, x, k, c) && Sequence(x.desk) + 2 <= U64_MAX
    ensures Calmly(f, x, ReceivesEvent, y) && Calmly(f, y, Prompted(f.provider), z)
    ensures Calmly(f, z, Settles, v) && Calmly(f, v, Ended(f.provider), w)
    ensures HasLeft(f, x, k, w) && AgentIs(w, Idle) && Sequence(w.desk) <= Sequence(x.desk) + 2
  {
    ReportsOfFront(f, x, k, c);
    y := Act(f, x, ReceivesEvent);
    ReceivesReport(f, x, k, c, y);
    z := Act(f, y, Prompted(f.provider));
    HearsTurn(f, y, k, Prompted(f.provider), z);
    v := Act(f, z, Settles);
    SettlesFront(f, z, k, v);
    w := Act(f, v, Ended(f.provider));
    HearsEnd(f, v, Ended(f.provider), w);
    TurnGoesIdle(f, x.desk, v.desk, w.desk);
  }

  lemma TurnGoesIdle(f: Config, k: Desk, l: Desk, m: Desk)
    requires Sequence(k) + 2 <= U64_MAX && !k.hookPending
    requires l.observation == ObserveFrom(k, PromptSubmitted, Via(f.provider), 0).observation && !l.hookPending
    requires m == ObserveFrom(l, Stopped, Via(f.provider), 0)
    ensures m.observation.Some? && m.observation.value.state.Idle? && !m.hookPending && Sequence(m) <= Sequence(k) + 2
  {
  }

  lemma TwoMore(f: Config, xs: seq<Session>, acts: seq<Action>, ys: seq<Session>, bs: seq<Action>, a: Action,
                y: Session, b: Action, z: Session) returns (zs: seq<Session>, cs: seq<Action>)
    requires GoesOn(f, xs, acts, ys, bs) && Calmly(f, ys[|bs|], a, y) && Calmly(f, y, b, z)
    ensures GoesOn(f, xs, acts, zs, cs) && zs[|cs|] == z
  {
    OneMore(f, xs, acts, ys, bs, a, y);
    OneMore(f, xs, acts, ys + [y], bs + [a], b, z);
    zs, cs := ys + [y] + [z], bs + [a] + [b];
  }

  lemma FirstTwo(f: Config, xs: seq<Session>, acts: seq<Action>, a: Action, y: Session, b: Action, z: Session)
    returns (ys: seq<Session>, bs: seq<Action>)
    requires IsSessionRun(f, xs, acts) && Calmly(f, xs[|acts|], a, y) && Calmly(f, y, b, z)
    ensures GoesOn(f, xs, acts, ys, bs) && ys[|bs|] == z
  {
    GoOn(f, xs, acts, a, y);
    OneMore(f, xs, acts, xs + [y], acts + [a], b, z);
    ys, bs := xs + [y] + [z], acts + [a] + [b];
  }

  lemma TurnGoesOver(f: Config, xs: seq<Session>, acts: seq<Action>, k: nat, c: R.Course)
    returns (ys: seq<Session>, bs: seq<Action>)
    requires IsSessionRun(f, xs, acts) && HasPressed(f, xs[|acts|], k, c) && Sequence(xs[|acts|].desk) + 2 <= U64_MAX
    ensures GoesOn(f, xs, acts, ys, bs) && HasLeft(f, xs[|acts|], k, ys[|bs|]) && AgentIs(ys[|bs|], Idle)
    ensures Sequence(ys[|bs|].desk) <= Sequence(xs[|acts|].desk) + 2
  {
    var y, z, v, w := TurnFollows(f, xs[|acts|], k, c);
    ys, bs := FirstTwo(f, xs, acts, ReceivesEvent, y, Prompted(f.provider), z);
    ys, bs := TwoMore(f, xs, acts, ys, bs, Settles, v, Ended(f.provider), w);
  }

  /** The front submission can be pasted, submitted, acknowledged and leave the queue. */
  lemma FrontIsDelivered(f: Config, xs: seq<Session>, acts: seq<Action>) returns (ys: seq<Session>, bs: seq<Action>)
    requires IsSessionRun(f, xs, acts) && IsPoised(f, xs[|acts|])
    requires |xs[|acts|].system.workers| + 1 < U64_MAX && Sequence(xs[|acts|].desk) + 2 <= U64_MAX
    ensures GoesOn(f, xs, acts, ys, bs) && Delivers(f, xs[|acts|], ys[|bs|])
  {
    var k := |xs[|acts|].system.workers|;
    var zs, ds, c := PressesFront(f, xs, acts, k);
    ys, bs := TurnGoesOver(f, zs, ds, k, c);
    GoesOnFrom(f, xs, acts, zs, ds, ys, bs);
  }

  /** The j-th accepted submission was pasted and submitted once by a worker of its own. */
  ghost predicate IsDelivered(x: Session, j: nat) {
    exists k :: 0 <= k < |x.entry| && k < |x.system.workers| && x.entry[k] == j
                && x.system.workers[k].trace == Submits(1)
  }

  lemma StaysDelivered(f: Config, x: Session, y: Session, j: nat)
    requires Delivers(f, x, y) && |x.entry| == |x.system.workers|
    ensures IsDelivered(x, j) ==> IsDelivered(y, j)
    ensures IsDelivered(y, x.head)
  {
    if IsDelivered(x, j) {
      var k :| 0 <= k < |x.entry| && k < |x.system.workers| && x.entry[k] == j
               && x.system.workers[k].trace == Submits(1);
      assert y.entry[k] == j && y.system.workers[k].trace == Submits(1);
    }
    assert y.entry[|x.entry|] == x.head;
  }

  /** The session is between two submissions, or has none left. */
  ghost predicate IsBetween(f: Config, x: Session) {
    && SessionInv(f, x) && Unsaturated(x.system) && x.system.core.deliveries == map[] && x.system.queue == []
    && !x.desk.hookPending && AgentIs(x, Idle)
  }

  ghost predicate DeliveredFrom(x: Session, i: nat) { forall j :: i <= j < x.head ==> IsDelivered(x, j) }

  lemma DeliveredOneMore(f: Config, x: Session, y: Session, i: nat)
    requires Delivers(f, x, y) && |x.entry| == |x.system.workers| && DeliveredFrom(x, i)
    ensures DeliveredFrom(y, i)
  {
    forall j | i <= j < y.head ensures IsDelivered(y, j) { StaysDelivered(f, x, y, j); }
  }

  /**
  Every submission in the queue can be delivered: pasted and submitted once, in
  order, until the queue is empty, with nobody overtaken on the way.
   */
  lemma {:induction false} QueueDrains(f: Config, xs: seq<Session>, acts: seq<Action>, i: nat)
    returns (ys: seq<Session>, bs: seq<Action>)
    requires IsSessionRun(f, xs, acts) && IsBetween(f, xs[|acts|]) && DeliveredFrom(xs[|acts|], i)
    requires var x := xs[|acts|];
             var left := |x.accepted| - x.head;
             |x.system.workers| + left < U64_MAX && Sequence(x.desk) + 2 * left <= U64_MAX
    ensures GoesOn(f, xs, acts, ys, bs) && ys[|bs|].accepted == xs[|acts|].accepted
    ensures ys[|bs|].head == |ys[|bs|].accepted| && ys[|bs|].desk.pending == [] && DeliveredFrom(ys[|bs|], i)
    decreases |xs[|acts|].accepted| - xs[|acts|].head
  {
    var x := xs[|acts|];
    if x.head == |x.accepted| {
      ys, bs := xs, acts;
    } else {
      var zs, ds := FrontIsDelivered(f, xs, acts);
      DeliveredOneMore(f, x, zs[|ds|], i);
      ys, bs := QueueDrains(f, zs, ds, i);
      GoesOnFrom(f, xs, acts, zs, ds, ys, bs);
    }
  }
}
