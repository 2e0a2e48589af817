/**
What holds of every run of an observed session: of its queue, of the record of
its front, and of the evidence on which a submission is settled.
 */
module SessionSafety {
  import opened Common
  import opened DeliveryRecord
  import opened DeliveryWorker
  import opened DeliveryLaws
  import opened DeliveryProtocol
  import opened DeliverySafety
  import opened DeliveryReplay
  import opened Observation
  import opened SessionDesk
  import opened SessionProtocol
  import T = DeliveryTable

  // ----- steps that keep the record where it is -----

  predicate Stays(d: Delivery, e: Delivery) { e.cell == d.cell && e.epoch == d.epoch && e.baseline == d.baseline }

  ghost predicate InPlace(s: System, t: System) {
    && t.fates == s.fates && |t.workers| == |s.workers|
    && (forall sid :: sid in t.core.deliveries ==>
          sid in s.core.deliveries && Stays(s.core.deliveries[sid], t.core.deliveries[sid]))
  }

  lemma TouchKeepsEpoch(s: System, l: Label)
    requires T.Valid(s.core) && Enabled(s, l) && Touches(s, l).Some? && !l.ChangesEpoch?
    ensures Touches(s, l).value.1.record.epoch == s.core.deliveries[Touches(s, l).value.0].epoch
  {
  }

  lemma TouchInPlace(s: System, l: Label)
    requires Inv(s) && Enabled(s, l) && Touches(s, l).Some? && !l.ChangesEpoch?
    ensures InPlace(s, Step(s, l))
  {
    TouchOk(s, l);
    TouchKeepsEpoch(s, l);
    var (sid, x) := Touches(s, l).value;
    PutStep(s, l, sid, x);
  }

  lemma MoveInPlace(s: System, l: Label)
    requires Inv(s) && Enabled(s, l) && l.WorkerMoves?
    ensures InPlace(s, Step(s, l))
  {
  }

  lemma Untouched(s: System, l: Label)
    requires T.Valid(s.core) && Enabled(s, l) && Touches(s, l).None?
    requires l.Receives? || l.Acknowledges? || l.Progresses?
    ensures CoreAfter(s, l) == s.core
  {
  }

  lemma UnchangedInPlace(s: System, l: Label, t: System)
    requires Inv(s) && Enabled(s, l) && t == CoreStep(s, l, s.core)
    ensures InPlace(s, t)
  {
    UnchangedStep(s, l);
  }

  lemma StepInPlace(s: System, l: Label)
    requires Inv(s) && Enabled(s, l)
    requires l.WorkerMoves? || l.Receives? || l.Acknowledges? || l.Progresses? || (Touches(s, l).Some? && l.Blocks?)
    ensures InPlace(s, Step(s, l))
  {
    if l.WorkerMoves? { MoveInPlace(s, l); }
    else if Touches(s, l).Some? { TouchInPlace(s, l); }
    else {
      Untouched(s, l);
      UnchangedInPlace(s, l, Step(s, l));
    }
  }

  // ----- the actions -----

  /** An action whose step keeps the record in place. */
  lemma InPlaceKeeps(f: Config, x: Session, l: Label, y: Session)
    requires SessionInv(f, x) && Advances(x.system, l, y.system) && InPlace(x.system, y.system) && Inv(y.system)
    requires y.accepted == x.accepted && y.head == x.head && y.entry == x.entry
    requires y.desk.pending == x.desk.pending && Sequence(x.desk) <= Sequence(y.desk)
    ensures SessionInv(f, y)
  {
    FollowsLinks(f, x, l, y);
  }

  lemma RemovesAll(f: Config, x: Session, t: System)
    requires Inv(x.system) && FrontOk(f, x) && t == Step(x.system, Removes(f.id))
    ensures t.core.deliveries == map[] && t.workers == x.system.workers
  {
    T.RemoveThins(x.system.core, f.id);
  }

  /** An action that drops the record. */
  lemma RemoveKeeps(f: Config, x: Session, y: Session)
    requires SessionInv(f, x) && Advances(x.system, Removes(f.id), y.system) && Inv(y.system)
    requires y.system.core.deliveries == map[] && y.system.workers == x.system.workers
    requires y.accepted == x.accepted && y.entry == x.entry && x.head <= y.head && QueueOk(y)
    ensures SessionInv(f, y)
  {
    FollowsLinks(f, x, Removes(f.id), y);
  }

  /** A dispatch leaves the table as it is, or puts the front submission on record. */
  ghost predicate Dispatched(s: System, l: Label, c: T.Core) {
    c == s.core ||
    ((l.Begins? || l.Blocks?) && T.Inserts(s.core, c, l.sid)
     && c.deliveries[l.sid].epoch == l.epoch && c.deliveries[l.sid].baseline == l.baseline)
  }

  lemma BeginDispatched(s: System, l: Label)
    requires WellFormed(s) && l.Begins?
    ensures Dispatched(s, l, CoreAfter(s, l))
  {
    T.BeginInserts(s.core, l.sid, l.epoch, l.baseline, l.submission, l.settlement, l.terminal);
  }

  lemma BlockDispatched(s: System, l: Label)
    requires WellFormed(s) && l.Blocks? && Touches(s, l).None?
    ensures Dispatched(s, l, CoreAfter(s, l))
  {
    if !(l.sid in s.core.deliveries && s.core.deliveries[l.sid].state.WritingPaste?) {
      T.BlockInserts(s.core, l.sid, l.epoch, l.baseline, l.submission, l.cause, l.notification);
    }
  }

  lemma DispatchedFront(f: Config, x: Session, l: Label, y: Session)
    requires SessionInv(f, x) && Carries(f, x, l) && Dispatched(x.system, l, y.system.core)
    requires y.accepted == x.accepted && y.head == x.head && y.desk == x.desk && l.baseline == Sequence(x.desk)
    requires |x.system.core.signals| == |x.entry| && |y.entry| == |y.system.core.signals|
    requires y.entry == if |y.entry| > |x.entry| then x.entry + [x.head] else x.entry
    ensures FrontOk(f, y)
  {
  }

  lemma DispatchKeeps(f: Config, x: Session, l: Label, y: Session)
    requires SessionInv(f, x) && Carries(f, x, l) && l.baseline == Sequence(x.desk) && Touches(x.system, l).None?
    requires y.system == Step(x.system, l) && Advances(x.system, l, y.system) && Inv(y.system)
    requires y.accepted == x.accepted && y.head == x.head && y.desk == x.desk
    requires y.entry == if |y.system.workers| > |x.entry| then x.entry + [x.head] else x.entry
    ensures SessionInv(f, y)
  {
    if l.Begins? { BeginDispatched(x.system, l); } else { BlockDispatched(x.system, l); }
    DispatchedFront(f, x, l, y);
    FollowsLinks(f, x, l, y);
  }

  /** The action can be taken, and fresh identities remain. */
  ghost predicate Takes(f: Config, x: Session, a: Action) { Possible(f, x, a) && Unsaturated(x.system) }

  lemma ActAdvances(f: Config, x: Session, a: Action, l: Label, y: Session)
    requires SessionInv(f, x) && Takes(f, x, a) && LabelOf(f, x, a) == Some(l) && y == Act(f, x, a)
    ensures y.system == Step(x.system, l) && Advances(x.system, l, y.system) && Inv(y.system)
  {
    StepAdvances(x.system, l);
  }

  lemma QuietKeeps(f: Config, x: Session, a: Action)
    requires SessionInv(f, x) && Takes(f, x, a) && LabelOf(f, x, a).None?
    ensures SessionInv(f, Act(f, x, a))
  {
    var y := Act(f, x, a);
    forall k | 0 <= k < |x.entry| ensures LinkOk(f, y, k) { assert LinkOk(f, x, k); }
  }

  lemma MovingActs(f: Config, x: Session, a: Action, l: Label, y: Session)
    requires Possible(f, x, a) && (a.Works? || a.ReceivesEvent? || a.Observes?)
    requires LabelOf(f, x, a) == Some(l) && y == Act(f, x, a)
    ensures l.WorkerMoves? || l.Receives? || l.Acknowledges? || l.Progresses?
    ensures y.accepted == x.accepted && y.head == x.head
    ensures y.entry == if |y.system.workers| > |x.entry| then x.entry + [x.head] else x.entry
    ensures y.desk.pending == x.desk.pending && Sequence(x.desk) <= Sequence(y.desk)
  {
  }

  lemma MovingKeeps(f: Config, x: Session, a: Action, l: Label, y: Session)
    requires SessionInv(f, x) && Takes(f, x, a) && LabelOf(f, x, a) == Some(l) && y == Act(f, x, a)
    requires a.Works? || a.ReceivesEvent? || a.Observes?
    ensures SessionInv(f, y) && InPlace(x.system, y.system)
  {
    MovingActs(f, x, a, l, y);
    ActAdvances(f, x, a, l, y);
    StepInPlace(x.system, l);
    InPlaceKeeps(f, x, l, y);
  }

  lemma RemovingKeeps(f: Config, x: Session, a: Action, y: Session)
    requires SessionInv(f, x) && Takes(f, x, a) && (a.Settles? || a.Closes?)
    requires LabelOf(f, x, a).Some? && y == Act(f, x, a)
    ensures SessionInv(f, y) && y.system.core.deliveries == map[] && y.system.workers == x.system.workers
  {
    ActAdvances(f, x, a, Removes(f.id), y);
    RemovesAll(f, x, y.system);
    RemoveKeeps(f, x, y);
  }

  lemma DispatchCarries(f: Config, x: Session, a: Action, l: Label)
    requires QueueOk(x) && Possible(f, x, a) && a.Dispatches? && LabelOf(f, x, a) == Some(l)
    ensures !FrontIsDone(f, x.desk, x.system.core) && Carries(f, x, l) && l.baseline == Sequence(x.desk)
  {
  }

  lemma DispatchActs(f: Config, x: Session, a: Action, l: Label, y: Session)
    requires QueueOk(x) && Possible(f, x, a) && a.Dispatches? && LabelOf(f, x, a) == Some(l) && y == Act(f, x, a)
    ensures !FrontIsDone(f, x.desk, x.system.core) && Carries(f, x, l) && l.baseline == Sequence(x.desk)
    ensures y.accepted == x.accepted && y.head == x.head && y.desk == x.desk
    ensures y.entry == if |y.system.workers| > |x.entry| then x.entry + [x.head] else x.entry
  {
    DispatchCarries(f, x, a, l);
  }

  lemma DispatchingKeeps(f: Config, x: Session, a: Action, l: Label, y: Session)
    requires SessionInv(f, x) && Takes(f, x, a) && LabelOf(f, x, a) == Some(l) && a.Dispatches? && y == Act(f, x, a)
    ensures SessionInv(f, y)
  {
    DispatchActs(f, x, a, l, y);
    ActAdvances(f, x, a, l, y);
    if Touches(x.system, l).Some? {
      StepInPlace(x.system, l);
      InPlaceKeeps(f, x, l, y);
    } else {
      DispatchKeeps(f, x, l, y);
    }
  }

  /** Every action keeps the session's invariant. */
  lemma ActKeeps(f: Config, x: Session, a: Action)
    requires SessionInv(f, x) && Takes(f, x, a)
    ensures SessionInv(f, Act(f, x, a))
  {
    var l := LabelOf(f, x, a);
    if l.None? { QuietKeeps(f, x, a); }
    else if a.Settles? || a.Closes? { RemovingKeeps(f, x, a, Act(f, x, a)); }
    else if a.Dispatches? { DispatchingKeeps(f, x, a, l.value, Act(f, x, a)); }
    else { MovingKeeps(f, x, a, l.value, Act(f, x, a)); }
  }

  // ----- runs -----

  ghost predicate ActsAt(f: Config, xs: seq<Session>, acts: seq<Action>, i: nat)
    requires i < |acts| && |xs| == |acts| + 1
  {
    Takes(f, xs[i], acts[i]) && xs[i + 1] == Act(f, xs[i], acts[i])
  }

  /** Any interleaving of the session's own actions and its workers' steps. */
  ghost predicate IsSessionRun(f: Config, xs: seq<Session>, acts: seq<Action>) {
    && |xs| == |acts| + 1 && xs[0] == FIRST
    && forall i :: 0 <= i < |acts| ==> ActsAt(f, xs, acts, i)
  }

  lemma SessionStep(f: Config, xs: seq<Session>, acts: seq<Action>, n: nat)
    requires IsSessionRun(f, xs, acts) && n < |acts| && SessionInv(f, xs[n])
    ensures SessionInv(f, xs[n + 1])
  {
    assert ActsAt(f, xs, acts, n);
    ActKeeps(f, xs[n], acts[n]);
  }

  /** At every moment the queue is what is left of the accepted submissions, and the only record is its front's. */
  lemma {:induction false} RunKeepsSession(f: Config, xs: seq<Session>, acts: seq<Action>, n: nat)
    requires IsSessionRun(f, xs, acts) && n < |xs|
    ensures SessionInv(f, xs[n])
  {
    if n > 0 {
      RunKeepsSession(f, xs, acts, n - 1);
      SessionStep(f, xs, acts, n - 1);
    }
  }

  /** What a session only ever adds to. */
  ghost predicate Grows(x: Session, y: Session) {
    && x.head <= y.head && x.accepted <= y.accepted && x.entry <= y.entry
    && |x.entry| == |x.system.workers| <= |y.system.workers|
    && forall k :: 0 <= k < |x.system.workers| && x.system.workers[k].Pasted() ==> y.system.workers[k].Pasted()
  }

  lemma ActGrows(f: Config, x: Session, a: Action, y: Session)
    requires SessionInv(f, x) && Takes(f, x, a) && y == Act(f, x, a)
    ensures Grows(x, y)
  {
    if LabelOf(f, x, a).Some? {
      ActAdvances(f, x, a, LabelOf(f, x, a).value, y);
      forall k | 0 <= k < |x.system.workers| && x.system.workers[k].Pasted() ensures y.system.workers[k].Pasted() {
        assert Same(x.system, y.system, k);
      }
    }
  }

  lemma SessionGrows1(f: Config, xs: seq<Session>, acts: seq<Action>, n: nat)
    requires IsSessionRun(f, xs, acts) && n < |acts|
    ensures Grows(xs[n], xs[n + 1])
  {
    RunKeepsSession(f, xs, acts, n);
    assert ActsAt(f, xs, acts, n);
    ActGrows(f, xs[n], acts[n], xs[n + 1]);
  }

  lemma {:induction false} SessionGrows(f: Config, xs: seq<Session>, acts: seq<Action>, i: nat, j: nat)
    requires IsSessionRun(f, xs, acts) && i <= j < |xs|
    ensures Grows(xs[i], xs[j])
    decreases j
  {
    if i < j {
      SessionGrows(f, xs, acts, i, j - 1);
      SessionGrows1(f, xs, acts, j - 1);
    } else {
      RunKeepsSession(f, xs, acts, i);
    }
  }

  // ----- the session and the protocol -----

  lemma ActIsStep(f: Config, x: Session, a: Action, y: Session)
    requires Takes(f, x, a) && y == Act(f, x, a)
    ensures var l := LabelOf(f, x, a); if l.None? then y.system == x.system else Next(x.system, l.value, y.system)
  {
  }

  lemma ProjectsOn(f: Config, x: Session, a: Action, y: Session, states: seq<System>, labels: seq<Label>)
    returns (ss: seq<System>, ls: seq<Label>)
    requires EndsIn(states, labels, x.system) && Takes(f, x, a) && y == Act(f, x, a)
    ensures EndsIn(ss, ls, y.system)
  {
    ActIsStep(f, x, a, y);
    ss, ls := states, labels;
    var l := LabelOf(f, x, a);
    if l.Some? {
      ExtendRun(states, labels, x.system, l.value, y.system);
      ss, ls := states + [y.system], labels + [l.value];
    }
  }

  /** What the session does to its deliveries is a run of the delivery protocol. */
  lemma {:induction false} Projects(f: Config, xs: seq<Session>, acts: seq<Action>, n: nat)
    returns (states: seq<System>, labels: seq<Label>)
    requires IsSessionRun(f, xs, acts) && n < |xs|
    ensures EndsIn(states, labels, xs[n].system)
    decreases n
  {
    if n == 0 {
      states, labels := [INITIAL], [];
    } else {
      states, labels := Projects(f, xs, acts, n - 1);
      assert ActsAt(f, xs, acts, n - 1);
      states, labels := ProjectsOn(f, xs[n - 1], acts[n - 1], xs[n], states, labels);
    }
  }

  lemma SettledOnRecord(f: Config, xs: seq<Session>, acts: seq<Action>, n: nat)
    requires IsSessionRun(f, xs, acts) && n < |acts| && acts[n].Settles? && xs[n + 1].head != xs[n].head
    ensures var x := xs[n];
            && Unsaturated(x.system) && x.head < |x.accepted| && xs[n + 1].head == x.head + 1
            && f.id in x.system.core.deliveries && x.system.core.deliveries[f.id].submission == x.accepted[x.head]
            && x.system.core.deliveries[f.id].state.AcceptsReplacement()
  {
    RunKeepsSession(f, xs, acts, n);
    assert ActsAt(f, xs, acts, n);
    FrontIsOnRecord(f, xs[n]);
  }

  /**
  A submission is settled only when the user was asked to repeat it, or on
  provider evidence newer than its delivery, brought while that was on record.
   */
  lemma SettledOnEvidence(f: Config, xs: seq<Session>, acts: seq<Action>, n: nat)
    returns (states: seq<System>, labels: seq<Label>, m: nat)
    requires IsSessionRun(f, xs, acts) && n < |acts| && acts[n].Settles? && xs[n + 1].head != xs[n].head
    ensures EndsIn(states, labels, xs[n].system) && f.id in xs[n].system.core.deliveries
    ensures var d := xs[n].system.core.deliveries[f.id];
            && xs[n].head < |xs[n].accepted| && d.submission == xs[n].accepted[xs[n].head]
            && (d.state.RequiresUserResubmit?
                || (m < |labels| && EvidenceAt(states, labels, m, f.id, d.cell, d.baseline)))
  {
    SettledOnRecord(f, xs, acts, n);
    states, labels := Projects(f, xs, acts, n);
    m := 0;
    if !xs[n].system.core.deliveries[f.id].state.RequiresUserResubmit? {
      m := AcknowledgedOnEvidence(states, labels, |labels|, f.id);
    }
  }

  /** Until the sequence saturates, every signal is newer than the delivery on record when it arrives. */
  lemma SignalsAreNew(f: Config, xs: seq<Session>, acts: seq<Action>, n: nat)
    requires IsSessionRun(f, xs, acts) && n < |xs| && f.id in xs[n].system.core.deliveries
    ensures xs[n].system.core.deliveries[f.id].baseline < NextSequence(xs[n].desk) || Sequence(xs[n].desk) >= U64_MAX
  {
    RunKeepsSession(f, xs, acts, n);
  }

  /** A worker starts only by a dispatch of the front submission, no hook unanswered, when the composer accepts. */
  lemma StartsWhenReady(f: Config, xs: seq<Session>, acts: seq<Action>, n: nat)
    requires IsSessionRun(f, xs, acts) && n < |acts|
    requires |xs[n + 1].system.workers| > |xs[n].system.workers|
    requires !xs[n + 1].system.workers[|xs[n].system.workers|].pc.NoWorker?
    ensures acts[n].Dispatches? && !xs[n].desk.hookPending && MayAccept(f.provider, xs[n].desk.observation)
    ensures xs[n].head < |xs[n].accepted|
    ensures xs[n + 1].system.workers[|xs[n].system.workers|].submission == xs[n].accepted[xs[n].head]
  {
    RunKeepsSession(f, xs, acts, n);
    assert ActsAt(f, xs, acts, n);
    var x, a := xs[n], acts[n];
    var l := LabelOf(f, x, a);
    assert l.Some?;
    StepGrowsByOne(x.system, l.value);
  }

  lemma RemovedSession(s: System, sid: SessionId, t: System)
    requires Inv(s) && Unsaturated(s) && t == Step(s, Removes(sid))
    ensures WellFormed(t) && sid !in t.core.deliveries
  {
    RemoveKeepsInv(s, Removes(sid));
    RemoveStep(s, sid);
    T.RemoveThins(s.core, sid);
  }

  /** After settling, whatever the workers do, a dispatch finds the front unsettled. */
  lemma SettlingEnablesDispatch(f: Config, x: Session, t: T.Terminal)
    requires Inv(x.system) && Takes(f, x, Settles)
    ensures Possible(f, Act(f, x, Settles), Dispatches(t))
  {
    if FrontIsDone(f, x.desk, x.system.core) { RemovedSession(x.system, f.id, Act(f, x, Settles).system); }
  }

  lemma WorkLeavesRecords(s: System, l: Label, t: System)
    requires Inv(s) && Unsaturated(s) && l.WorkerMoves? && Enabled(s, l) && t == Step(s, l)
    ensures WellFormed(t) && t.core.deliveries == s.core.deliveries
  {
    WorkerStepKeepsInv(s, l);
  }

  lemma WorkLeavesDesk(f: Config, x: Session, k: nat, r: Reply)
    requires Takes(f, x, Works(k, r))
    ensures Act(f, x, Works(k, r)).desk == x.desk && Act(f, x, Works(k, r)).system == Step(x.system, WorkerMoves(k, r))
  {
  }

  lemma WorkKeepsDispatch(f: Config, x: Session, t: T.Terminal, k: nat, r: Reply)
    requires Inv(x.system) && Takes(f, x, Works(k, r)) && Possible(f, x, Dispatches(t))
    ensures Possible(f, Act(f, x, Works(k, r)), Dispatches(t))
  {
    WorkLeavesDesk(f, x, k, r);
    WorkLeavesRecords(x.system, WorkerMoves(k, r), Act(f, x, Works(k, r)).system);
  }
}
