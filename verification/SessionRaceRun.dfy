/**
The race around a paste happens: with a composer to wait for, an observed session
pastes its only submission twice.
 */
module SessionRaceRun {
  import opened Common
  import opened DeliveryRecord
  import opened DeliveryWorker
  import opened DeliveryLaws
  import opened DeliveryProtocol
  import opened DeliverySafety
  import opened DeliveryReplay
  import opened Observation
  import opened SessionDesk
  import opened SessionProtocol
  import opened SessionSafety
  import opened SessionOrder
  import T = DeliveryTable
  import opened SessionRace

  /** One worker, past its check or on its way there, for the only submission. */
  ghost predicate OneWorker(f: Config, x: Session, pc: Pc, state: State, agent: AgentState) {
    && SessionInv(f, x) && |x.system.workers| == 1 && x.accepted == [PROMPT] && x.head == 0 && x.entry == [0]
    && x.system.workers[0].pc == pc && x.system.fates[0].None? && !x.system.core.signals[0].pasteStarted
    && x.system.core.signals[0].cancel == state.Blocked?
    && Held(x.system.core, f.id, 0) && x.system.core.deliveries[f.id].epoch == f.epoch
    && x.system.core.deliveries[f.id].state == state
    && (state.Blocked? ==> x.system.core.deliveries[f.id].failure == Some(ComposerUnavailable))
    && !x.desk.hookPending && AgentIs(x, agent) && x.desk.observation.value.sequence < 10
  }

  lemma FirstQueued(f: Config, x: Session)
    requires x == Act(f, FIRST, Enqueues(PROMPT))
    ensures Calmly(f, FIRST, Enqueues(PROMPT), x) && SessionInv(f, x)
    ensures x == Session(EMPTY_DESK.(pending := [PROMPT]), INITIAL, [PROMPT], 0, [])
  {
    AsideKeeps(f, FIRST, Enqueues(PROMPT), x);
  }

  lemma FirstIdle(f: Config, x: Session, y: Session)
    requires SessionInv(f, x) && x == Session(EMPTY_DESK.(pending := [PROMPT]), INITIAL, [PROMPT], 0, [])
    requires !f.provider.Other? && y == Act(f, x, Ended(f.provider))
    ensures Calmly(f, x, Ended(f.provider), y) && Ready(f, y) && Sequence(y.desk) == 1
    ensures y.system == INITIAL && y.accepted == [PROMPT] && y.head == 0 && y.entry == []
  {
    UnchangedStep(INITIAL, Progresses(f.id, f.epoch, 1));
    AsideKeeps(f, x, Ended(f.provider), y);
  }

  lemma FirstReady(f: Config) returns (xs: seq<Session>, acts: seq<Action>)
    requires !f.provider.Other?
    ensures GoesOn(f, [FIRST], [], xs, acts) && Ready(f, xs[|acts|]) && xs[|acts|].system == INITIAL
    ensures xs[|acts|].accepted == [PROMPT] && xs[|acts|].head == 0 && xs[|acts|].entry == []
    ensures Sequence(xs[|acts|].desk) == 1
  {
    var x := Act(f, FIRST, Enqueues(PROMPT));
    FirstQueued(f, x);
    GoOn(f, [FIRST], [], Enqueues(PROMPT), x);
    var y := Act(f, x, Ended(f.provider));
    FirstIdle(f, x, y);
    xs, acts := [FIRST] + [x], [] + [Enqueues(PROMPT)];
    OneMore(f, [FIRST], [], xs, acts, Ended(f.provider), y);
    xs, acts := xs + [y], acts + [Ended(f.provider)];
  }

  lemma FirstWorker(f: Config, x: Session, y: Session)
    requires Ready(f, x) && x.system == INITIAL && x.accepted == [PROMPT] && x.head == 0 && x.entry == []
    requires Sequence(x.desk) == 1 && Possible(f, x, Dispatches(WILLING)) && y == Act(f, x, Dispatches(WILLING))
    ensures Calmly(f, x, Dispatches(WILLING), y) && OneWorker(f, y, Pasting(WaitReady), WritingPaste, Idle)
  {
    FrontLaunches(f, x, y);
    BeginDecided(f, x);
    BeginOvertakesNobody(x.system, BeginLabel(f, x), y.system);
    assert RecordLinked(y.system, f.id);
  }

  ghost predicate Waits(f: Config, x: Session) { OneWorker(f, x, Pasting(WaitReady), WritingPaste, Idle) }

  ghost predicate IsChecking(f: Config, x: Session) { OneWorker(f, x, Pasting(PasteCheck), WritingPaste, Idle) }

  lemma WorkerChecks(f: Config, x: Session, y: Session)
    requires Waits(f, x) || IsChecking(f, x)
    requires y == Act(f, x, Works(0, FINE))
    ensures Calmly(f, x, Works(0, FINE), y) && y.desk == x.desk
    ensures if Waits(f, x) then IsChecking(f, y) else OneWorker(f, y, Pasting(PasteMark), WritingPaste, Idle)
  {
    WorkStep(f, x, 0, y);
    FatesStay(x.system, y.system);
  }

  /** Progress before any submit was receipted, or on a blocked record, changes no record. */
  lemma ProgressChangesNothing(s: System, l: Label)
    requires Inv(s) && l.Progresses?
    requires l.sid in s.core.deliveries ==>
               s.core.deliveries[l.sid].state.WritingPaste? || s.core.deliveries[l.sid].state.Blocked?
    ensures Step(s, l) == s
  {
    if l.sid in s.core.deliveries { T.PutSame(s.core, l.sid); }
    assert CoreAfter(s, l) == s.core;
    UnchangedStep(s, l);
  }

  function Asked(p: Provider): Action { Observes(PermissionAsked, Via(p), 0, None) }

  /** The provider asks for input when it was idle, and goes idle after that. */
  predicate Alternates(p: Provider, before: AgentState, a: Action) {
    (before.Idle? && a == Asked(p)) || (before.AwaitingInput? && a == Ended(p))
  }

  lemma SignalledDesk(p: Provider, k: Desk, before: AgentState, a: Action, d: Desk)
    requires k.observation.Some? && k.observation.value.state == before && k.observation.value.sequence < 9
    requires Alternates(p, before, a) && d == ObserveFrom(k, a.signal, a.source, a.at)
    ensures d.observation.Some? && d.observation.value.state == (if before.Idle? then AwaitingInput else Idle)
    ensures d.observation.value.sequence == k.observation.value.sequence + 1
    ensures d.hookPending == k.hookPending && d.pending == k.pending
  {
  }

  lemma SignalActs(f: Config, x: Session, a: Action, y: Session)
    requires Inv(x.system) && Possible(f, x, a) && y == Act(f, x, a)
    requires a == Asked(f.provider) || a == Ended(f.provider)
    requires |x.entry| == |x.system.workers|
    requires f.id in x.system.core.deliveries ==>
               x.system.core.deliveries[f.id].state.WritingPaste? || x.system.core.deliveries[f.id].state.Blocked?
    ensures y == x.(desk := ObserveFrom(x.desk, a.signal, a.source, a.at))
  {
    ProgressChangesNothing(x.system, LabelOf(f, x, a).value);
  }

  lemma ProviderSignals(f: Config, x: Session, pc: Pc, state: State, before: AgentState, a: Action, y: Session)
    requires OneWorker(f, x, pc, state, before) && (state.WritingPaste? || state.Blocked?)
    requires Alternates(f.provider, before, a) && x.desk.observation.value.sequence < 9 && y == Act(f, x, a)
    ensures Calmly(f, x, a, y) && OneWorker(f, y, pc, state, if before.Idle? then AwaitingInput else Idle)
    ensures y.desk.observation.value.sequence == x.desk.observation.value.sequence + 1
  {
    ActKeeps(f, x, a);
    SignalActs(f, x, a, y);
    SignalledDesk(f.provider, x.desk, before, a, y.desk);
    FatesStay(x.system, y.system);
  }

  lemma BlockDecided(f: Config, x: Session)
    requires OneWorker(f, x, Pasting(PasteMark), WritingPaste, AwaitingInput)
    ensures x.desk.pending == [PROMPT] && Possible(f, x, Dispatches(WILLING))
    ensures var l := LabelOf(f, x, Dispatches(WILLING));
            && l.Some? && l.value.Blocks? && l.value.sid == f.id && l.value.epoch == f.epoch
            && Touches(x.system, l.value).Some?
  {
  }

  /** The provider asks for input: the delivery is cancelled in place, its worker past the check. */
  lemma CoreBlocks(f: Config, x: Session, y: Session)
    requires OneWorker(f, x, Pasting(PasteMark), WritingPaste, AwaitingInput)
    requires Possible(f, x, Dispatches(WILLING)) && y == Act(f, x, Dispatches(WILLING))
    ensures Calmly(f, x, Dispatches(WILLING), y) && y.desk == x.desk
    ensures OneWorker(f, y, Pasting(PasteMark), Blocked, AwaitingInput)
  {
    BlockDecided(f, x);
    var l := LabelOf(f, x, Dispatches(WILLING)).value;
    DispatchingKeeps(f, x, Dispatches(WILLING), l, y);
    DispatchActs(f, x, Dispatches(WILLING), l, y);
    TouchOk(x.system, l);
    PutStep(x.system, l, f.id, Touches(x.system, l).value.1);
    FatesStay(x.system, y.system);
  }

  /** The provider is idle again: the submission begins anew, and overtakes its own first delivery. */
  lemma CoreBeginsAgain(f: Config, x: Session, y: Session)
    requires OneWorker(f, x, Pasting(PasteMark), Blocked, Idle) && !f.provider.Other?
    requires Possible(f, x, Dispatches(WILLING)) && y == Act(f, x, Dispatches(WILLING))
    ensures Takes(f, x, Dispatches(WILLING)) && Overtakes(x.system, y.system, 0)
    ensures Racing(f, y, 0, 1) && y.entry == [0, 0]
  {
    FrontLaunches(f, x, y);
    InsertSupersedes(x.system, BeginLabel(f, x), y.system.core, 0);
  }

  lemma ToTheWindow(f: Config) returns (xs: seq<Session>, acts: seq<Action>)
    requires !f.provider.Other?
    ensures GoesOn(f, [FIRST], [], xs, acts) && OneWorker(f, xs[|acts|], Pasting(PasteMark), WritingPaste, Idle)
    ensures Sequence(xs[|acts|].desk) == 1
  {
    xs, acts := BeginsFirst(f);
    xs, acts := Checks(f, xs, acts);
    xs, acts := Checks(f, xs, acts);
  }

  lemma BeginsFirst(f: Config) returns (xs: seq<Session>, acts: seq<Action>)
    requires !f.provider.Other?
    ensures GoesOn(f, [FIRST], [], xs, acts) && OneWorker(f, xs[|acts|], Pasting(WaitReady), WritingPaste, Idle)
    ensures Sequence(xs[|acts|].desk) == 1
  {
    xs, acts := FirstReady(f);
    var y := Act(f, xs[|acts|], Dispatches(WILLING));
    FirstWorker(f, xs[|acts|], y);
    OneMore(f, [FIRST], [], xs, acts, Dispatches(WILLING), y);
    xs, acts := xs + [y], acts + [Dispatches(WILLING)];
  }

  lemma Checks(f: Config, xs: seq<Session>, acts: seq<Action>) returns (ys: seq<Session>, bs: seq<Action>)
    requires GoesOn(f, [FIRST], [], xs, acts) && (Waits(f, xs[|acts|]) || IsChecking(f, xs[|acts|]))
    ensures GoesOn(f, [FIRST], [], ys, bs) && ys[|bs|].desk == xs[|acts|].desk
    ensures if Waits(f, xs[|acts|]) then IsChecking(f, ys[|bs|])
            else OneWorker(f, ys[|bs|], Pasting(PasteMark), WritingPaste, Idle)
  {
    var y := Act(f, xs[|acts|], Works(0, FINE));
    WorkerChecks(f, xs[|acts|], y);
    OneMore(f, [FIRST], [], xs, acts, Works(0, FINE), y);
    ys, bs := xs + [y], acts + [Works(0, FINE)];
  }

  lemma Hears(f: Config, xs: seq<Session>, acts: seq<Action>, state: State, before: AgentState, a: Action)
    returns (ys: seq<Session>, bs: seq<Action>)
    requires GoesOn(f, [FIRST], [], xs, acts) && OneWorker(f, xs[|acts|], Pasting(PasteMark), state, before)
    requires (state.WritingPaste? || state.Blocked?) && Sequence(xs[|acts|].desk) < 9
    requires Alternates(f.provider, before, a)
    ensures GoesOn(f, [FIRST], [], ys, bs) && Sequence(ys[|bs|].desk) == Sequence(xs[|acts|].desk) + 1
    ensures OneWorker(f, ys[|bs|], Pasting(PasteMark), state, if before.Idle? then AwaitingInput else Idle)
  {
    var y := Act(f, xs[|acts|], a);
    ProviderSignals(f, xs[|acts|], Pasting(PasteMark), state, before, a, y);
    OneMore(f, [FIRST], [], xs, acts, a, y);
    ys, bs := xs + [y], acts + [a];
  }

  lemma CancelledInWindow(f: Config) returns (xs: seq<Session>, acts: seq<Action>)
    requires !f.provider.Other?
    ensures GoesOn(f, [FIRST], [], xs, acts) && OneWorker(f, xs[|acts|], Pasting(PasteMark), Blocked, Idle)
  {
    xs, acts := ToTheWindow(f);
    xs, acts := Hears(f, xs, acts, WritingPaste, Idle, Asked(f.provider));
    BlockDecided(f, xs[|acts|]);
    var y := Act(f, xs[|acts|], Dispatches(WILLING));
    CoreBlocks(f, xs[|acts|], y);
    OneMore(f, [FIRST], [], xs, acts, Dispatches(WILLING), y);
    xs, acts := xs + [y], acts + [Dispatches(WILLING)];
    xs, acts := Hears(f, xs, acts, Blocked, AwaitingInput, Ended(f.provider));
  }

  /** The n-th action overtakes somebody, and no other one does. */
  ghost predicate OvertakesOnce(xs: seq<Session>, acts: seq<Action>, n: nat) {
    && n < |acts| == |xs| - 1 && OvertakenAt(xs, n)
    && forall i :: 0 <= i < |acts| && i != n ==> CalmlyAt(xs, acts, i)
  }

  lemma BeginsAgain(f: Config, xs: seq<Session>, acts: seq<Action>) returns (ys: seq<Session>, bs: seq<Action>)
    requires GoesOn(f, [FIRST], [], xs, acts) && OneWorker(f, xs[|acts|], Pasting(PasteMark), Blocked, Idle)
    requires !f.provider.Other?
    ensures IsSessionRun(f, ys, bs) && |bs| == |acts| + 1 && OvertakesOnce(ys, bs, |acts|)
    ensures Racing(f, ys[|bs|], 0, 1) && ys[|bs|].entry == [0, 0]
  {
    var y := Act(f, xs[|acts|], Dispatches(WILLING));
    CoreBeginsAgain(f, xs[|acts|], y);
    ExtendSession(f, xs, acts, Dispatches(WILLING), y);
    ys, bs := xs + [y], acts + [Dispatches(WILLING)];
    forall i | 0 <= i < |acts| ensures CalmlyAt(ys, bs, i) { CalmStays(xs, acts, ys, bs, i); }
  }

  lemma StillOnce(f: Config, xs: seq<Session>, acts: seq<Action>, ys: seq<Session>, bs: seq<Action>, n: nat)
    requires GoesOn(f, xs, acts, ys, bs) && OvertakesOnce(xs, acts, n)
    ensures OvertakesOnce(ys, bs, n)
  {
    assert ys[n] == xs[n] && ys[n + 1] == xs[n + 1];
    forall i | 0 <= i < |bs| && i != n ensures CalmlyAt(ys, bs, i) {
      if i < |acts| { CalmStays(xs, acts, ys, bs, i); }
    }
  }

  lemma ToTheRace(f: Config) returns (ys: seq<Session>, bs: seq<Action>, n: nat)
    requires !f.provider.Other?
    ensures IsSessionRun(f, ys, bs) && |bs| == n + 1 && OvertakesOnce(ys, bs, n)
    ensures Racing(f, ys[|bs|], 0, 1) && ys[|bs|].entry == [0, 0]
  {
    var xs, acts := CancelledInWindow(f);
    ys, bs := BeginsAgain(f, xs, acts);
    n := |acts|;
  }

  /** With a composer to wait for, a session pastes its only submission twice, overtaking once. */
  lemma PastesTwice(f: Config) returns (xs: seq<Session>, acts: seq<Action>, n: nat, i: nat, j: nat)
    requires !f.provider.Other?
    ensures IsSessionRun(f, xs, acts) && n < i < j < |acts| && OvertakesOnce(xs, acts, n)
    ensures PastesAt(xs, i, 1) && PastesAt(xs, j, 0) && xs[i + 1].entry == xs[j + 1].entry == [0, 0]
  {
    var ys, bs, m := ToTheRace(f);
    xs, acts, i, j := BothPaste(f, ys, bs, 0, 1);
    n := m;
    StillOnce(f, ys, bs, xs, acts, n);
  }
}
