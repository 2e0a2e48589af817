/**
An observed session running against the delivery protocol, and what each of its
actions has to do with the operations of `ObservedSession`.
 */
module SessionProtocol {
  import opened Common
  import opened DeliveryRecord
  import opened DeliveryWorker
  import opened DeliveryLaws
  import opened DeliveryProtocol
  import opened DeliverySafety
  import opened DeliveryReplay
  import opened Observation
  import opened SessionDesk
  import T = DeliveryTable

  /**
  `accepted` are all submissions ever enqueued, `head` is the position in it of
  the front of the queue, and `entry[k]` the one the k-th delivery carries.
   */
  datatype Session = Session(desk: Desk, system: System, accepted: seq<Submission>, head: nat, entry: seq<nat>)

  const FIRST := Session(EMPTY_DESK, INITIAL, [], 0, [])

  /** `poll` receives events, settles, then dispatches; workers move at any time in between. */
  datatype Action =
    | Enqueues(submission: Submission)
    | Observes(signal: Signal, source: Source, at: nat, activity: Option<InputActivity>)
    | ReleasesHook
    | ReceivesEvent
    | Settles
    | Dispatches(terminal: T.Terminal)
    | Closes
    | Works(cell: nat, reply: Reply)

  function ObserveLabel(f: Config, k: Desk, signal: Signal, activity: Option<InputActivity>): Option<Label> {
    if signal.PromptSubmitted? then Some(Acknowledges(f.id, f.epoch, NextSequence(k), activity))
    else if IsProgress(signal) then Some(Progresses(f.id, f.epoch, NextSequence(k)))
    else None
  }

  function DecisionLabel(f: Config, k: Desk, d: Decision, t: T.Terminal): Option<Label>
    requires !d.Wait? ==> k.pending != []
  {
    match d
    case Wait => None
    case Block(cause) => Some(Blocks(f.id, f.epoch, Sequence(k), k.pending[0], cause, None))
    case Begin(settlement) => Some(Begins(f.id, f.epoch, Sequence(k), k.pending[0], settlement, t))
  }

  /** A dispatch finds the front of the queue unsettled. */
  ghost predicate Possible(f: Config, x: Session, a: Action) {
    && WellFormed(x.system)
    && (a.ReceivesEvent? ==> x.system.queue != [])
    && (a.Works? ==> a.cell < |x.system.workers|)
    && (a.Dispatches? ==> !FrontIsDone(f, x.desk, x.system.core))
  }

  /** The step of the delivery protocol that an action takes, if any. */
  ghost function LabelOf(f: Config, x: Session, a: Action): (l: Option<Label>)
    requires Possible(f, x, a)
    ensures l.Some? ==> Enabled(x.system, l.value)
  {
    match a
    case Enqueues(_) => None
    case Observes(signal, _, _, activity) => ObserveLabel(f, x.desk, signal, activity)
    case ReleasesHook => None
    case ReceivesEvent => Some(Receives)
    case Settles => if FrontIsDone(f, x.desk, x.system.core) then Some(Removes(f.id)) else None
    case Dispatches(t) => DecisionLabel(f, x.desk, Decide(f, x.desk, x.system.core), t)
    case Closes => Some(Removes(f.id))
    case Works(cell, reply) => Some(WorkerMoves(cell, reply))
  }

  ghost function DeskAfter(f: Config, x: Session, a: Action): Desk {
    match a
    case Enqueues(m) => Enqueue(x.desk, m).0
    case Observes(signal, source, at, _) => ObserveFrom(x.desk, signal, source, at)
    case ReleasesHook => x.desk.(hookPending := false)
    case Settles => if FrontIsDone(f, x.desk, x.system.core) then x.desk.(pending := x.desk.pending[1..]) else x.desk
    case Closes => x.desk.(pending := [])
    case _ => x.desk
  }

  /** How many accepted submissions have left the queue. */
  ghost function HeadAfter(f: Config, x: Session, a: Action): nat {
    if a.Closes? then |x.accepted|
    else if a.Settles? && FrontIsDone(f, x.desk, x.system.core) then x.head + 1
    else x.head
  }

  ghost function SystemAfter(x: Session, l: Option<Label>): System
    requires WellFormed(x.system) && (l.Some? ==> Enabled(x.system, l.value))
  {
    if l.None? then x.system else Step(x.system, l.value)
  }

  /** The session after an action; a delivery it begins carries the front submission. */
  ghost function Act(f: Config, x: Session, a: Action): Session
    requires Possible(f, x, a)
  {
    var t := SystemAfter(x, LabelOf(f, x, a));
    Session(DeskAfter(f, x, a), t,
            if a.Enqueues? && Enqueue(x.desk, a.submission).1 then x.accepted + [a.submission] else x.accepted,
            HeadAfter(f, x, a),
            if |t.workers| > |x.entry| then x.entry + [x.head] else x.entry)
  }

  /** The desk and the table after an operation of `ObservedSession`; a worker's step changes neither's records. */
  ghost function Operation(f: Config, k: Desk, c: T.Core, queue: seq<Event>, a: Action): (Desk, T.Core)
    requires T.Valid(c) && (a.ReceivesEvent? ==> queue != [])
  {
    match a
    case Enqueues(m) => (Enqueue(k, m).0, c)
    case Observes(signal, source, at, activity) =>
      (ObserveFrom(k, signal, source, at), Tell(f, c, NextSequence(k), signal, activity))
    case ReleasesHook => (k.(hookPending := false), c)
    case ReceivesEvent => (k, T.Apply(c, queue[0]).0)
    case Settles => SettleDesk(f, k, c)
    case Dispatches(t) => (k, DispatchTable(f, k, c, t))
    case Closes => (k.(pending := []), T.Remove(c, f.id))
    case Works(_, _) => (k, c)
  }

  /** The table after the protocol step an action takes is the one its operation leaves. */
  ghost predicate Agrees(f: Config, x: Session, a: Action)
    requires Possible(f, x, a) && !a.Works?
  {
    var l := LabelOf(f, x, a);
    Operation(f, x.desk, x.system.core, x.system.queue, a)
    == (DeskAfter(f, x, a), if l.None? then x.system.core else CoreAfter(x.system, l.value))
  }

  lemma PromptAgrees(f: Config, s: System, sequence: nat, activity: Option<InputActivity>)
    requires T.Valid(s.core)
    ensures CoreAfter(s, Acknowledges(f.id, f.epoch, sequence, activity))
            == Tell(f, s.core, sequence, PromptSubmitted, activity)
  {
  }

  lemma ProgressAgrees(f: Config, s: System, sequence: nat, signal: Signal, activity: Option<InputActivity>)
    requires T.Valid(s.core) && IsProgress(signal)
    ensures CoreAfter(s, Progresses(f.id, f.epoch, sequence)) == Tell(f, s.core, sequence, signal, activity)
  {
  }

  lemma ObserveAgrees(f: Config, x: Session, a: Action)
    requires Possible(f, x, a) && a.Observes?
    ensures Agrees(f, x, a)
  {
    if a.signal.PromptSubmitted? { PromptAgrees(f, x.system, NextSequence(x.desk), a.activity); }
    else if IsProgress(a.signal) { ProgressAgrees(f, x.system, NextSequence(x.desk), a.signal, a.activity); }
  }

  lemma DispatchAgrees(f: Config, x: Session, a: Action)
    requires Possible(f, x, a) && a.Dispatches?
    ensures Agrees(f, x, a)
  {
  }

  lemma ReceiptAgrees(f: Config, x: Session, a: Action)
    requires Possible(f, x, a) && a.ReceivesEvent?
    ensures Agrees(f, x, a)
  {
  }

  lemma RemovedIs(s: System, sid: SessionId)
    requires T.Valid(s.core)
    ensures CoreAfter(s, Removes(sid)) == T.Remove(s.core, sid)
  {
  }

  lemma SettledIs(f: Config, k: Desk, c: T.Core)
    requires T.Valid(c)
    ensures SettleDesk(f, k, c)
            == if FrontIsDone(f, k, c) then (k.(pending := k.pending[1..]), T.Remove(c, f.id)) else (k, c)
  {
  }

  lemma SettleAgrees(f: Config, x: Session, a: Action)
    requires Possible(f, x, a) && a.Settles?
    ensures Agrees(f, x, a)
  {
    RemovedIs(x.system, f.id);
    SettledIs(f, x.desk, x.system.core);
  }

  lemma CloseAgrees(f: Config, x: Session, a: Action)
    requires Possible(f, x, a) && a.Closes?
    ensures Agrees(f, x, a)
  {
    RemovedIs(x.system, f.id);
  }

  lemma DeskAgrees(f: Config, x: Session, a: Action)
    requires Possible(f, x, a) && (a.Enqueues? || a.ReleasesHook?)
    ensures Agrees(f, x, a)
  {
  }

  lemma OperationAgrees(f: Config, x: Session, a: Action)
    requires Possible(f, x, a) && !a.Works?
    ensures Agrees(f, x, a)
  {
    if a.Observes? { ObserveAgrees(f, x, a); }
    else if a.Dispatches? { DispatchAgrees(f, x, a); }
    else if a.ReceivesEvent? { ReceiptAgrees(f, x, a); }
    else if a.Settles? { SettleAgrees(f, x, a); }
    else if a.Closes? { CloseAgrees(f, x, a); }
    else { DeskAgrees(f, x, a); }
  }

  lemma StepCore(s: System, l: Label)
    requires WellFormed(s) && Enabled(s, l) && !l.WorkerMoves?
    ensures Step(s, l).core == CoreAfter(s, l)
  {
  }

  /** Each action is an operation of `ObservedSession`, or a worker's step. */
  lemma ActIsOperation(f: Config, x: Session, a: Action)
    requires Possible(f, x, a) && !a.Works?
    ensures (Act(f, x, a).desk, Act(f, x, a).system.core) == Operation(f, x.desk, x.system.core, x.system.queue, a)
  {
    OperationAgrees(f, x, a);
    var l := LabelOf(f, x, a);
    if l.Some? { StepCore(x.system, l.value); }
  }

  // ----- the invariant -----

  /** The k-th delivery carries an accepted submission that is the front of the queue or has left it. */
  ghost predicate LinkOk(f: Config, x: Session, k: nat)
    requires k < |x.entry| && k < |x.system.workers|
  {
    var w := x.system.workers[k];
    && w.session == f.id && w.epoch == f.epoch
    && x.entry[k] <= x.head && x.entry[k] < |x.accepted| && w.submission == x.accepted[x.entry[k]]
  }

  ghost predicate LinksOk(f: Config, x: Session) {
    |x.entry| == |x.system.workers| && forall k :: 0 <= k < |x.entry| ==> LinkOk(f, x, k)
  }

  /** The queue is what is left of the accepted submissions. */
  ghost predicate QueueOk(x: Session) { x.head <= |x.accepted| && x.desk.pending == x.accepted[x.head..] }

  /** The only record is for the front submission, and older than every signal to come. */
  ghost predicate FrontOk(f: Config, x: Session) {
    && (forall sid :: sid in x.system.core.deliveries ==> sid == f.id)
    && (f.id in x.system.core.deliveries ==>
          var d := x.system.core.deliveries[f.id];
          && d.epoch == f.epoch && d.baseline <= Sequence(x.desk) && d.cell < |x.entry| && x.entry[d.cell] == x.head
          && x.head < |x.accepted|)
  }

  ghost predicate SessionInv(f: Config, x: Session) { Inv(x.system) && LinksOk(f, x) && QueueOk(x) && FrontOk(f, x) }

  /** The record's submission is the front of the queue. */
  lemma FrontIsOnRecord(f: Config, x: Session)
    requires SessionInv(f, x) && f.id in x.system.core.deliveries
    ensures x.desk.pending != [] && x.system.core.deliveries[f.id].submission == x.desk.pending[0]
  {
    assert RecordLinked(x.system, f.id);
    assert LinkOk(f, x, x.system.core.deliveries[f.id].cell);
  }

  // ----- what the session relies on in each step of the delivery protocol -----

  /** The k-th worker stays itself, and its fate stays sealed. */
  ghost predicate Same(s: System, t: System, k: nat) {
    && k < |s.workers| <= |t.workers| && |s.workers| == |s.fates| && |t.workers| == |t.fates|
    && t.workers[k].session == s.workers[k].session && t.workers[k].epoch == s.workers[k].epoch
    && t.workers[k].submission == s.workers[k].submission
    && (s.workers[k].Pasted() ==> t.workers[k].Pasted())
    && (s.fates[k].Some? ==> t.fates[k] == s.fates[k])
  }

  ghost predicate Advances(s: System, l: Label, t: System) {
    && |s.workers| == |s.fates| && |t.workers| == |t.fates| && |s.workers| <= |t.workers| <= |s.workers| + 1
    && (forall k :: 0 <= k < |s.workers| ==> Same(s, t, k))
    && (|t.workers| > |s.workers| ==>
          && (l.Begins? || l.Blocks?) && t.workers[|s.workers|] == NewWorker(l, |s.workers|)
          && t.fates[|s.workers|].None?)
  }

  lemma FrameIsSame(s: System, l: Label, t: System, k: nat)
    requires Frame(s, l, t, k)
    ensures Same(s, t, k)
  {
    if t.workers[k] != s.workers[k] { MoveContinues(s.workers[k], s.core.signals[k], l.reply); }
  }

  lemma StepGrowsByOne(s: System, l: Label)
    requires WellFormed(s) && Enabled(s, l)
    ensures var t := Step(s, l);
            && |s.workers| <= |t.workers| <= |s.workers| + 1
            && (|t.workers| > |s.workers| ==>
                  && (l.Begins? || l.Blocks?) && t.workers[|s.workers|] == NewWorker(l, |s.workers|)
                  && |t.fates| > |s.workers| && t.fates[|s.workers|].None?)
  {
  }

  lemma StepAdvances(s: System, l: Label)
    requires Inv(s) && Enabled(s, l) && Unsaturated(s)
    ensures Advances(s, l, Step(s, l)) && Inv(Step(s, l))
  {
    var t := Step(s, l);
    StepKeepsInv(s, l);
    StepGrowsByOne(s, l);
    forall k | 0 <= k < |s.workers| ensures Same(s, t, k) { StepFrame(s, l, k); FrameIsSame(s, l, t, k); }
  }

  /** What the step began carries the front submission. */
  ghost predicate Carries(f: Config, x: Session, l: Label) {
    && (l.Begins? || l.Blocks?) && l.sid == f.id && l.epoch == f.epoch
    && x.head < |x.accepted| && l.submission == x.accepted[x.head]
  }

  /** What became of the entries. */
  ghost predicate Follows(f: Config, x: Session, l: Label, y: Session) {
    && Advances(x.system, l, y.system) && x.accepted <= y.accepted && x.head <= y.head
    && |x.entry| == |x.system.workers|
    && (if |y.system.workers| > |x.entry| then y.entry == x.entry + [x.head] && Carries(f, x, l)
        else y.entry == x.entry)
  }

  lemma FollowsLinks(f: Config, x: Session, l: Label, y: Session)
    requires LinksOk(f, x) && Follows(f, x, l, y)
    ensures LinksOk(f, y)
  {
    forall k | 0 <= k < |x.entry| ensures LinkOk(f, y, k) {
      assert LinkOk(f, x, k) && Same(x.system, y.system, k);
    }
  }
}
