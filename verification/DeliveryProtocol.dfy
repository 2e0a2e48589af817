/**
The delivery protocol: Core's table, one worker per delivery, and the event
channel between them. A run is any interleaving of the steps below; the shared
flags are read and written one at a time, sequentially consistently.
 */
module DeliveryProtocol {
  import opened Common
  import opened DeliveryRecord
  import opened DeliveryWorker
  import opened DeliveryLaws
  import T = DeliveryTable

  /** Why a delivery has no record any more, and the state that record was in. */
  datatype Fate = Superseded(state: State) | Removed(state: State) | Evicted(state: State)

  /** `workers[k]`, `core.signals[k]` and `fates[k]` belong to the k-th delivery. */
  datatype System = System(core: T.Core, workers: seq<Worker>, fates: seq<Option<Fate>>, queue: seq<Event>)

  const INITIAL := System(T.EMPTY_CORE, [], [], [])

  datatype Label =
    | WorkerMoves(cell: nat, reply: Reply)
    | Receives
    | Begins(sid: SessionId, epoch: nat, baseline: nat, submission: Submission, settlement: Settlement,
             terminal: T.Terminal)
    | Blocks(sid: SessionId, epoch: nat, baseline: nat, submission: Submission, cause: CancelCause,
             notification: Option<string>)
    | ChangesEpoch(sid: SessionId, epoch: nat)
    | Acknowledges(sid: SessionId, epoch: nat, sequence: nat, activity: Option<InputActivity>)
    | Progresses(sid: SessionId, epoch: nat, sequence: nat)
    | QueueProgresses(sid: SessionId, epoch: nat, sequence: nat)
    | Removes(sid: SessionId)

  ghost predicate WellFormed(s: System) {
    && T.Valid(s.core)
    && |s.workers| == |s.core.signals| == |s.fates|
    && (forall k :: 0 <= k < |s.workers| ==> s.workers[k].id == T.IdOf(k))
  }

  predicate Enabled(s: System, l: Label) {
    && (l.WorkerMoves? ==> l.cell < |s.workers| && |s.core.signals| == |s.workers|)
    && (l.Receives? ==> s.queue != [])
  }

  /** The k-th delivery is the one on record for its session. */
  predicate Held(c: T.Core, sid: SessionId, k: nat) { sid in c.deliveries && c.deliveries[sid].cell == k }

  /** What Core's part of a step makes of the table. */
  ghost function CoreAfter(s: System, l: Label): T.Core
    requires T.Valid(s.core) && Enabled(s, l) && !l.WorkerMoves?
  {
    match l
    case Receives => T.Apply(s.core, s.queue[0]).0
    case Begins(sid, epoch, baseline, m, settlement, t) => T.Begin(s.core, sid, epoch, baseline, m, settlement, t).0
    case Blocks(sid, epoch, baseline, m, cause, n) => T.Block(s.core, sid, epoch, baseline, m, cause, n).0
    case ChangesEpoch(sid, epoch) => T.ChangeEpoch(s.core, sid, epoch).0
    case Acknowledges(sid, epoch, sequence, a) => T.Acknowledge(s.core, sid, epoch, sequence, a).0
    case Progresses(sid, epoch, sequence) => T.Progress(s.core, sid, epoch, sequence).0
    case QueueProgresses(sid, epoch, sequence) => T.QueueProgress(s.core, sid, epoch, sequence).0
    case Removes(sid) => T.Remove(s.core, sid)
  }

  /** The worker that goes with a record a step inserts. */
  function NewWorker(l: Label, cell: nat): Worker
    requires l.Begins? || l.Blocks?
  {
    var launch := if l.Begins? then T.LaunchOf(l.settlement, l.terminal)
                  else T.Launch(Some(ComposerUnavailable), false, false);
    Worker(l.sid, l.epoch, T.IdOf(cell), l.submission, IsPersistentWake(l.submission),
           if l.Begins? then l.settlement else OutputActivity,
           if launch.failure.Some? then NoWorker
           else Pasting(if launch.pasteHanded then PasteReceipt else WaitReady),
           0, 0, 0, NO_DIAGNOSTICS, if launch.pasteHanded then PASTED else Start)
  }

  /** What became of the k-th delivery when a Core step left the table as `c`. */
  function FateAfter(s: System, l: Label, c: T.Core, k: nat): Option<Fate>
    requires k < |s.workers| && k < |s.fates|
  {
    var sid := s.workers[k].session;
    if s.fates[k].Some? || Held(c, sid, k) || sid !in s.core.deliveries then s.fates[k]
    else if l.Removes? then Some(Removed(s.core.deliveries[sid].state))
    else if (l.Begins? || l.Blocks?) && l.sid == sid then Some(Superseded(s.core.deliveries[sid].state))
    else Some(Evicted(s.core.deliveries[sid].state))
  }

  /** The system after the k-th worker's step `m`. */
  function AfterMove(s: System, k: nat, m: Moved): System
    requires k < |s.workers| == |s.core.signals|
  {
    var w := m.worker;
    s.(core := s.core.(signals := s.core.signals[k := m.signals]),
       workers := s.workers[k := w],
       queue := if m.sent.None? then s.queue
                else s.queue + [Event(w.session, w.epoch, w.id, m.sent.value.0, m.sent.value.1)])
  }

  function Fates(s: System, l: Label, c: T.Core): seq<Option<Fate>>
    requires |s.workers| == |s.fates|
  {
    seq(|s.fates|, k requires 0 <= k < |s.fates| => FateAfter(s, l, c, k))
  }

  /** The whole system after a Core step that leaves the table as `c`. */
  function CoreStep(s: System, l: Label, c: T.Core): System
    requires Enabled(s, l) && |s.workers| == |s.fates|
  {
    var grown := |c.signals| > |s.core.signals| && (l.Begins? || l.Blocks?);
    System(c,
           if grown then s.workers + [NewWorker(l, |s.workers|)] else s.workers,
           if grown then Fates(s, l, c) + [None] else Fates(s, l, c),
           if l.Receives? then s.queue[1..] else s.queue)
  }

  ghost function Step(s: System, l: Label): System
    requires WellFormed(s) && Enabled(s, l)
  {
    if l.WorkerMoves? then AfterMove(s, l.cell, Move(s.workers[l.cell], s.core.signals[l.cell], l.reply))
    else CoreStep(s, l, CoreAfter(s, l))
  }

  // ----- the invariant -----

  ghost predicate WorkersOk(workers: seq<Worker>, signals: seq<Signals>) {
    |workers| == |signals| && forall k :: 0 <= k < |workers| ==> WorkerOk(workers[k], signals[k])
  }

  /** An event on its way says only what its worker's trace bears out. */
  ghost predicate EventOk(workers: seq<Worker>, e: Event) {
    && 1 <= e.id <= |workers|
    && Truthful(e.outcome, e.diagnostics, workers[e.id - 1].trace)
    && !CanPaste(workers[e.id - 1].pc)
  }

  ghost predicate EventsOk(workers: seq<Worker>, queue: seq<Event>) {
    forall i :: 0 <= i < |queue| ==> EventOk(workers, queue[i])
  }

  ghost predicate RecordLinked(s: System, sid: SessionId) {
    sid in s.core.deliveries &&
    var k := s.core.deliveries[sid].cell;
    && k < |s.workers| == |s.core.signals| == |s.fates|
    && s.workers[k].session == sid && s.fates[k].None?
    && RecordOk(s.core.deliveries[sid], s.workers[k], s.core.signals[k])
  }

  ghost predicate RecordsOk(s: System) {
    forall sid :: sid in s.core.deliveries ==> RecordLinked(s, sid)
  }

  /** A delivery without a record can no longer start its paste. */
  ghost predicate FateOk(s: System, k: nat)
    requires k < |s.workers| == |s.core.signals| == |s.fates|
  {
    && (s.fates[k].None? ==> Held(s.core, s.workers[k].session, k))
    && (s.fates[k].Some? ==> s.core.signals[k].cancel || !CanPaste(s.workers[k].pc))
  }

  ghost predicate FatesOk(s: System) {
    && |s.workers| == |s.core.signals| == |s.fates|
    && forall k :: 0 <= k < |s.workers| ==> FateOk(s, k)
  }

  /** `|workers| <= U64_MAX`: the identity counter has not saturated. */
  ghost predicate Inv(s: System) {
    && WellFormed(s) && |s.workers| <= U64_MAX
    && WorkersOk(s.workers, s.core.signals)
    && RecordsOk(s)
    && FatesOk(s)
    && EventsOk(s.workers, s.queue)
  }

  // ----- steps that change one record in place -----

  ghost predicate PutPre(s: System, sid: SessionId, x: Slot) {
    && Inv(s) && sid in s.core.deliveries
    && x.record.id == s.core.deliveries[sid].id && x.record.cell == s.core.deliveries[sid].cell < |s.workers|
    && SlotOk(x, s.workers[x.record.cell])
    && FlagsGrow(s.core.signals[x.record.cell], x.signals)
  }

  ghost function AfterPut(s: System, sid: SessionId, x: Slot): System
    requires PutPre(s, sid, x)
  {
    s.(core := T.Put(s.core, sid, x))
  }

  lemma PutWellFormed(s: System, sid: SessionId, x: Slot)
    requires PutPre(s, sid, x)
    ensures WellFormed(AfterPut(s, sid, x))
  {
    T.PutKeepsValid(s.core, sid, x);
  }

  lemma PutRecords(s: System, sid: SessionId, x: Slot)
    requires PutPre(s, sid, x)
    ensures RecordsOk(AfterPut(s, sid, x))
  {
    var t := AfterPut(s, sid, x);
    assert RecordLinked(s, sid);
    forall other | other in t.core.deliveries ensures RecordLinked(t, other) {
      assert RecordLinked(s, other);
    }
  }

  lemma PutFates(s: System, sid: SessionId, x: Slot)
    requires PutPre(s, sid, x)
    ensures FatesOk(AfterPut(s, sid, x))
  {
    var t := AfterPut(s, sid, x);
    forall k | 0 <= k < |t.workers| ensures FateOk(t, k) {
      assert FateOk(s, k);
    }
  }

  lemma PutKeepsInv(s: System, sid: SessionId, x: Slot)
    requires PutPre(s, sid, x)
    ensures Inv(AfterPut(s, sid, x))
  {
    PutWellFormed(s, sid, x);
    PutRecords(s, sid, x);
    PutFates(s, sid, x);
  }

  /** The record a step changes in place, and what it becomes. */
  function Touches(s: System, l: Label): Option<(SessionId, Slot)>
    requires T.Valid(s.core) && Enabled(s, l)
  {
    var c := s.core;
    match l
    case Receives =>
      var e := s.queue[0];
      if !T.Addressed(c, e) then None
      else Some((e.session, Conclusion(Merge(T.SlotOf(c, e.session), e.diagnostics), e.outcome)))
    case Blocks(sid, epoch, _, _, cause, n) =>
      if T.InEpoch(c, sid, epoch) && c.deliveries[sid].state.WritingPaste?
      then Some((sid, CancelForComposer(T.SlotOf(c, sid), cause, n))) else None
    case ChangesEpoch(sid, epoch) =>
      if sid in c.deliveries && c.deliveries[sid].epoch != epoch
      then Some((sid, MoveEpoch(T.SlotOf(c, sid), epoch))) else None
    case Acknowledges(sid, epoch, sequence, a) =>
      if T.InEpoch(c, sid, epoch) then Some((sid, ConfirmSubmission(T.SlotOf(c, sid), sequence, a).0)) else None
    case Progresses(sid, epoch, sequence) =>
      if T.InEpoch(c, sid, epoch) then Some((sid, ConfirmProgress(T.SlotOf(c, sid), sequence).0)) else None
    case QueueProgresses(sid, epoch, sequence) =>
      if T.InEpoch(c, sid, epoch) then Some((sid, ConfirmQueueProgress(T.SlotOf(c, sid), sequence).0)) else None
    case WorkerMoves(_, _) => None
    case Begins(_, _, _, _, _, _) => None
    case Removes(_) => None
  }

  /** The provider evidence a step brings for one record. */
  function NewsFor(l: Label, sid: SessionId, epoch: nat): Option<nat> {
    if (l.Acknowledges? || l.QueueProgresses?) && l.sid == sid && l.epoch == epoch then Some(l.sequence) else None
  }

  lemma ReceivedOk(s: System)
    requires Inv(s) && s.queue != [] && T.Addressed(s.core, s.queue[0])
    ensures var e := s.queue[0];
            var x := T.SlotOf(s.core, e.session);
            OpOk(x, Conclusion(Merge(x, e.diagnostics), e.outcome), s.workers[x.record.cell], None)
  {
    var e := s.queue[0];
    assert RecordLinked(s, e.session);
    var x := T.SlotOf(s.core, e.session);
    var w := s.workers[x.record.cell];
    assert EventOk(s.workers, e) && e.id - 1 == x.record.cell;
    MergeOk(x, e.diagnostics, e.outcome, w);
    ConclusionOk(Merge(x, e.diagnostics), e.outcome, w);
  }

  ghost predicate LawfulTouch(s: System, l: Label, sid: SessionId, x: Slot)
    requires T.Valid(s.core) && Enabled(s, l) && !l.WorkerMoves?
  {
    && RecordLinked(s, sid)
    && x.record.cell == s.core.deliveries[sid].cell
    && CoreAfter(s, l) == T.Put(s.core, sid, x)
    && OpOk(T.SlotOf(s.core, sid), x, s.workers[s.core.deliveries[sid].cell],
            NewsFor(l, sid, s.core.deliveries[sid].epoch))
  }

  /** Every operation on a record in place is lawful, whenever it happens. */
  lemma TouchOk(s: System, l: Label)
    requires Inv(s) && Enabled(s, l) && Touches(s, l).Some?
    ensures LawfulTouch(s, l, Touches(s, l).value.0, Touches(s, l).value.1)
  {
    var (sid, x) := Touches(s, l).value;
    assert RecordLinked(s, sid);
    var y := T.SlotOf(s.core, sid);
    var w := s.workers[y.record.cell];
    match l
    case Receives => ReceivedOk(s);
    case Blocks(_, _, _, _, cause, n) => CancelForComposerOk(y, cause, n, w);
    case ChangesEpoch(_, epoch) => MoveEpochOk(y, epoch, w);
    case Acknowledges(_, _, sequence, a) => ConfirmSubmissionOk(y, sequence, a, w);
    case Progresses(_, _, sequence) => ConfirmProgressOk(y, sequence, w);
    case QueueProgresses(_, _, sequence) => ConfirmQueueProgressOk(y, sequence, w);
  }

  ghost function Popped(s: System, l: Label): seq<Event>
    requires Enabled(s, l)
  {
    if l.Receives? then s.queue[1..] else s.queue
  }

  lemma PutStep(s: System, l: Label, sid: SessionId, x: Slot)
    requires PutPre(s, sid, x) && Enabled(s, l)
    ensures CoreStep(s, l, T.Put(s.core, sid, x)) == AfterPut(s, sid, x).(queue := Popped(s, l))
  {
    var c := T.Put(s.core, sid, x);
    forall k | 0 <= k < |s.fates| ensures FateAfter(s, l, c, k) == s.fates[k] {
      assert FateOk(s, k);
    }
    assert Fates(s, l, c) == s.fates;
  }

  lemma PopKeepsInv(s: System, l: Label, t: System)
    requires Enabled(s, l) && Inv(t) && t.queue == s.queue
    ensures Inv(t.(queue := Popped(s, l)))
  {
    var u := t.(queue := Popped(s, l));
    assert forall sid :: sid in t.core.deliveries ==> RecordLinked(t, sid) && RecordLinked(u, sid);
    assert forall k :: 0 <= k < |t.workers| ==> FateOk(t, k) && FateOk(u, k);
  }

  lemma PutStepKeepsInv(s: System, l: Label, sid: SessionId, x: Slot)
    requires PutPre(s, sid, x) && Enabled(s, l)
    ensures Inv(CoreStep(s, l, T.Put(s.core, sid, x)))
  {
    PutStep(s, l, sid, x);
    PutKeepsInv(s, sid, x);
    PopKeepsInv(s, l, AfterPut(s, sid, x));
  }

  lemma TouchKeepsInv(s: System, l: Label)
    requires Inv(s) && Enabled(s, l) && Touches(s, l).Some?
    ensures Inv(Step(s, l))
  {
    TouchOk(s, l);
    var (sid, x) := Touches(s, l).value;
    PutStepKeepsInv(s, l, sid, x);
  }

  lemma UnchangedStep(s: System, l: Label)
    requires Inv(s) && Enabled(s, l)
    ensures CoreStep(s, l, s.core) == s.(queue := Popped(s, l)) && Inv(CoreStep(s, l, s.core))
  {
    forall k | 0 <= k < |s.fates| ensures FateAfter(s, l, s.core, k) == s.fates[k] {
      assert FateOk(s, k);
    }
    assert Fates(s, l, s.core) == s.fates;
    PopKeepsInv(s, l, s);
  }

  // ----- steps that drop records, and may insert one -----

  lemma AsideKeepsWorker(w: Worker, g: Signals, h: Signals)
    requires WorkerOk(w, g) && T.Aside(g, h)
    ensures WorkerOk(w, h)
  {
  }

  lemma AsideKeepsRecord(d: Delivery, w: Worker, g: Signals, h: Signals)
    requires RecordOk(d, w, g) && T.Aside(g, h)
    ensures RecordOk(d, w, h)
  {
  }

  /** A record is dropped only where its worker can no longer start a paste. */
  ghost predicate DropsSafely(s: System, l: Label, c: T.Core)
    requires Inv(s) && T.Thins(s.core, c)
  {
    forall sid :: sid in s.core.deliveries && !Held(c, sid, s.core.deliveries[sid].cell) ==>
      RecordLinked(s, sid)
      && (!s.core.deliveries[sid].state.WritingPaste? || c.signals[s.core.deliveries[sid].cell].cancel)
  }

  /** The record a step inserts is the only one that is not old, and starts lawfully. */
  ghost predicate GrowsSafely(s: System, l: Label, c: T.Core)
    requires Inv(s) && T.Thins(s.core, c)
  {
    if |c.signals| == |s.core.signals| then
      forall sid :: sid in c.deliveries ==> c.deliveries[sid].cell < |s.core.signals|
    else
      && (l.Begins? || l.Blocks?) && T.Inserts(s.core, c, l.sid) && |s.workers| < U64_MAX
      && WorkerOk(NewWorker(l, |s.workers|), c.signals[|s.workers|])
      && RecordOk(c.deliveries[l.sid], NewWorker(l, |s.workers|), c.signals[|s.workers|])
  }

  ghost predicate ThinPre(s: System, l: Label, c: T.Core) {
    && Inv(s) && Enabled(s, l) && !l.WorkerMoves? && T.Valid(c) && T.Thins(s.core, c)
    && DropsSafely(s, l, c) && GrowsSafely(s, l, c)
  }

  /** `t` extends the workers and fates of `s`, if at all, by a new worker on record. */
  ghost predicate Grown(s: System, l: Label, c: T.Core, t: System)
    requires Enabled(s, l)
  {
    && t.core == c && t.queue == Popped(s, l)
    && |t.workers| == |t.fates| == |c.signals| && |s.workers| == |s.fates| <= |t.workers| <= |s.workers| + 1
    && (forall k :: 0 <= k < |s.workers| ==> t.workers[k] == s.workers[k])
    && (forall k :: 0 <= k < |s.workers| ==> t.fates[k] == FateAfter(s, l, c, k))
    && (|t.workers| > |s.workers| ==>
          && (l.Begins? || l.Blocks?)
          && t.workers[|s.workers|] == NewWorker(l, |s.workers|) && t.fates[|s.workers|].None?)
  }

  lemma CoreStepGrows(s: System, l: Label, c: T.Core)
    requires Enabled(s, l) && |s.workers| == |s.fates| == |s.core.signals|
    requires |c.signals| == |s.workers| || (|c.signals| == |s.workers| + 1 && (l.Begins? || l.Blocks?))
    ensures Grown(s, l, c, CoreStep(s, l, c))
  {
  }

  lemma ThinWellFormed(s: System, l: Label, c: T.Core, t: System)
    requires WellFormed(s) && Enabled(s, l) && T.Valid(c) && Grown(s, l, c, t)
    ensures WellFormed(t)
  {
    forall k | 0 <= k < |t.workers| ensures t.workers[k].id == T.IdOf(k) {
      if k < |s.workers| { assert t.workers[k] == s.workers[k]; }
    }
  }

  lemma WorkersGrow(ws: seq<Worker>, gs: seq<Signals>, vs: seq<Worker>, hs: seq<Signals>)
    requires WorkersOk(ws, gs) && |vs| == |hs| && |ws| <= |vs| <= |ws| + 1
    requires forall k :: 0 <= k < |ws| ==> vs[k] == ws[k]
    requires forall k :: 0 <= k < |ws| ==> T.Aside(gs[k], hs[k])
    requires |vs| > |ws| ==> WorkerOk(vs[|ws|], hs[|ws|])
    ensures WorkersOk(vs, hs)
  {
    forall k | 0 <= k < |vs| ensures WorkerOk(vs[k], hs[k]) {
      if k < |ws| { AsideKeepsWorker(ws[k], gs[k], hs[k]); }
    }
  }

  lemma ThinRecord(s: System, l: Label, c: T.Core, t: System, sid: SessionId)
    requires ThinPre(s, l, c) && Grown(s, l, c, t) && sid in c.deliveries
    ensures RecordLinked(t, sid)
  {
    var k := c.deliveries[sid].cell;
    if k < |s.workers| {
      assert RecordLinked(s, sid);
      AsideKeepsRecord(c.deliveries[sid], s.workers[k], s.core.signals[k], c.signals[k]);
    }
  }

  ghost predicate FateAfterOk(s: System, l: Label, c: T.Core, k: nat)
    requires k < |s.workers| == |s.fates| <= |c.signals|
  {
    && (FateAfter(s, l, c, k).None? ==> Held(c, s.workers[k].session, k))
    && (FateAfter(s, l, c, k).Some? ==> c.signals[k].cancel || !CanPaste(s.workers[k].pc))
  }

  lemma DroppedCannotPaste(s: System, l: Label, c: T.Core, k: nat, sid: SessionId)
    requires Inv(s) && T.Thins(s.core, c) && DropsSafely(s, l, c) && k < |s.workers|
    requires Held(s.core, sid, k) && !Held(c, sid, k)
    ensures c.signals[k].cancel || !CanPaste(s.workers[k].pc)
  {
    assert RecordLinked(s, sid);
  }

  lemma ThinFate(s: System, l: Label, c: T.Core, k: nat)
    requires Inv(s) && T.Thins(s.core, c) && DropsSafely(s, l, c) && k < |s.workers|
    ensures FateAfterOk(s, l, c, k)
  {
    var sid := s.workers[k].session;
    assert FateOk(s, k) && T.Aside(s.core.signals[k], c.signals[k]);
    if s.fates[k].None? && !Held(c, sid, k) { DroppedCannotPaste(s, l, c, k, sid); }
  }

  lemma ThinFates(s: System, l: Label, c: T.Core, t: System)
    requires Enabled(s, l) && Grown(s, l, c, t)
    requires forall k :: 0 <= k < |s.workers| ==> FateAfterOk(s, l, c, k)
    requires |t.workers| > |s.workers| ==> Held(c, l.sid, |s.workers|)
    ensures FatesOk(t)
  {
    forall k | 0 <= k < |t.workers| ensures FateOk(t, k) {
      if k < |s.workers| { assert FateAfterOk(s, l, c, k); }
    }
  }

  lemma ThinKeepsInv(s: System, l: Label, c: T.Core, t: System)
    requires ThinPre(s, l, c) && t == CoreStep(s, l, c)
    ensures Inv(t)
  {
    CoreStepGrows(s, l, c);
    ThinWellFormed(s, l, c, t);
    WorkersGrow(s.workers, s.core.signals, t.workers, c.signals);
    forall k | 0 <= k < |s.workers| ensures FateAfterOk(s, l, c, k) { ThinFate(s, l, c, k); }
    ThinFates(s, l, c, t);
    forall sid | sid in t.core.deliveries ensures RecordLinked(t, sid) { ThinRecord(s, l, c, t, sid); }
    forall i | 0 <= i < |t.queue| ensures EventOk(t.workers, t.queue[i]) {
      assert EventOk(s.workers, if l.Receives? then s.queue[i + 1] else s.queue[i]);
    }
  }

  lemma RemovesSafely(s: System, l: Label, c: T.Core)
    requires Inv(s) && l.Removes? && T.Valid(c) && T.Thins(s.core, c) && |c.signals| == |s.core.signals|
    requires forall t :: t in c.deliveries <==> t in s.core.deliveries && t != l.sid
    requires l.sid in s.core.deliveries ==> c.signals[s.core.deliveries[l.sid].cell].cancel
    ensures DropsSafely(s, l, c) && GrowsSafely(s, l, c)
  {
  }

  lemma RemoveLeaves(s: System, l: Label, c: T.Core)
    requires WellFormed(s) && l.Removes? && c == T.Remove(s.core, l.sid)
    ensures CoreAfter(s, l) == c
  {
  }

  lemma RemoveIsCoreStep(s: System, l: Label, c: T.Core)
    requires WellFormed(s) && l.Removes? && c == T.Remove(s.core, l.sid)
    ensures Step(s, l) == CoreStep(s, l, c)
  {
    RemoveLeaves(s, l, c);
  }

  lemma RemoveDrops(s: System, l: Label) returns (c: T.Core)
    requires Inv(s) && l.Removes?
    ensures Step(s, l) == CoreStep(s, l, c)
    ensures T.Valid(c) && T.Thins(s.core, c) && DropsSafely(s, l, c) && GrowsSafely(s, l, c)
  {
    c := T.Remove(s.core, l.sid);
    RemoveIsCoreStep(s, l, c);
    T.RemoveThins(s.core, l.sid);
    RemovesSafely(s, l, c);
  }

  lemma RemoveKeepsInv(s: System, l: Label)
    requires Inv(s) && l.Removes?
    ensures Inv(Step(s, l))
  {
    var c := RemoveDrops(s, l);
    ThinKeepsInv(s, l, c, Step(s, l));
  }

  lemma InsertDropsSafely(s: System, l: Label, c: T.Core)
    requires Inv(s) && (l.Begins? || l.Blocks?) && T.Inserts(s.core, c, l.sid)
    requires l.sid in s.core.deliveries ==> !s.core.deliveries[l.sid].state.WritingPaste?
    ensures DropsSafely(s, l, c)
  {
  }

  lemma NewWorkerOk(c: T.Core, l: Label, k: nat)
    requires l.Begins? && T.Valid(c)
    ensures var x := T.FreshSlot(l.epoch, l.baseline, l.submission, l.settlement, l.terminal, T.Inherited(c, l.sid));
            var d := x.record.(id := c.nextId, cell := |c.signals|);
            SlotOk(Slot(d, x.signals), NewWorker(l, k))
  {
  }

  lemma NewBlockOk(c: T.Core, l: Label, k: nat)
    requires l.Blocks?
    ensures var d := T.BlockedRecord(l.epoch, l.baseline, l.submission, l.cause, l.notification);
            SlotOk(Slot(d.(id := c.nextId, cell := |c.signals|), Signals(true, false, false, Dropped)), NewWorker(l, k))
  {
  }

  /** A step that inserts a record, once what it inserts is known. */
  lemma InsertKeepsInv(s: System, l: Label, c: T.Core, x: Slot)
    requires Inv(s) && |s.workers| < U64_MAX && (l.Begins? || l.Blocks?) && T.Valid(c) && T.Inserts(s.core, c, l.sid)
    requires l.sid in s.core.deliveries ==> !s.core.deliveries[l.sid].state.WritingPaste?
    requires c.deliveries[l.sid] == x.record && c.signals[|s.workers|] == x.signals
    requires SlotOk(x, NewWorker(l, |s.workers|))
    ensures Inv(CoreStep(s, l, c))
  {
    InsertDropsSafely(s, l, c);
    ThinKeepsInv(s, l, c, CoreStep(s, l, c));
  }

  /** A record as it is inserted. */
  predicate IsNew(d: Delivery) {
    d.confirmation.None? && (d.state.WritingPaste? || d.state.Failed? || d.state.Blocked?)
  }

  /** What is left to know of a `begin` once its table is computed. */
  ghost predicate Began(s: System, l: Label, c: T.Core, accepted: bool)
    requires WellFormed(s) && l.Begins?
  {
    if accepted then
      && T.Valid(c) && T.Inserts(s.core, c, l.sid)
      && (l.sid in s.core.deliveries ==> !s.core.deliveries[l.sid].state.IsActive())
      && SlotOk(Slot(c.deliveries[l.sid], c.signals[|s.workers|]), NewWorker(l, |s.workers|))
      && IsNew(c.deliveries[l.sid])
    else c == s.core
  }

  lemma BeginBegan(s: System, l: Label)
    requires WellFormed(s) && l.Begins?
    ensures var (c, accepted) := T.Begin(s.core, l.sid, l.epoch, l.baseline, l.submission, l.settlement, l.terminal);
            Began(s, l, c, accepted)
  {
    T.BeginInserts(s.core, l.sid, l.epoch, l.baseline, l.submission, l.settlement, l.terminal);
    NewWorkerOk(s.core, l, |s.workers|);
  }

  lemma BeganKeepsInv(s: System, l: Label, c: T.Core, accepted: bool)
    requires Inv(s) && l.Begins? && |s.workers| < U64_MAX && Began(s, l, c, accepted)
    ensures Inv(CoreStep(s, l, c))
  {
    if accepted {
      InsertKeepsInv(s, l, c, Slot(c.deliveries[l.sid], c.signals[|s.workers|]));
    } else {
      UnchangedStep(s, l);
    }
  }

  lemma BeginKeepsInv(s: System, l: Label)
    requires Inv(s) && l.Begins? && |s.workers| < U64_MAX
    ensures Inv(Step(s, l))
  {
    var (c, accepted) := T.Begin(s.core, l.sid, l.epoch, l.baseline, l.submission, l.settlement, l.terminal);
    BeginBegan(s, l);
    BeganKeepsInv(s, l, c, accepted);
  }

  lemma BlockKeepsInv(s: System, l: Label)
    requires Inv(s) && l.Blocks? && Touches(s, l).None? && |s.workers| < U64_MAX
    ensures Inv(Step(s, l))
  {
    var (c, accepted) := T.Block(s.core, l.sid, l.epoch, l.baseline, l.submission, l.cause, l.notification);
    if l.sid in s.core.deliveries && s.core.deliveries[l.sid].state.WritingPaste? {
      UnchangedStep(s, l);
    } else {
      T.BlockInserts(s.core, l.sid, l.epoch, l.baseline, l.submission, l.cause, l.notification);
      if accepted {
        NewBlockOk(s.core, l, |s.workers|);
        InsertKeepsInv(s, l, c, Slot(c.deliveries[l.sid], c.signals[|s.workers|]));
      } else {
        UnchangedStep(s, l);
      }
    }
  }

  // ----- worker steps -----

  ghost predicate MovePre(s: System, k: nat, m: Moved) {
    && Inv(s) && k < |s.workers|
    && Continues(s.workers[k], s.core.signals[k], m) && MoveOk(s.workers[k], m)
  }

  /** What a worker's trace bears out, its longer trace does. */
  lemma MoveKeepsEvent(ws: seq<Worker>, g: Signals, k: nat, m: Moved, e: Event)
    requires k < |ws| && Continues(ws[k], g, m) && MoveOk(ws[k], m) && EventOk(ws, e)
    ensures EventOk(ws[k := m.worker], e)
  {
  }

  lemma MoveEvents(s: System, k: nat, m: Moved)
    requires MovePre(s, k, m)
    ensures var t := AfterMove(s, k, m); EventsOk(t.workers, t.queue)
  {
    var t := AfterMove(s, k, m);
    forall i | 0 <= i < |t.queue| ensures EventOk(t.workers, t.queue[i]) {
      if i < |s.queue| { MoveKeepsEvent(s.workers, s.core.signals[k], k, m, s.queue[i]); }
    }
  }

  lemma MoveRecords(s: System, k: nat, m: Moved)
    requires MovePre(s, k, m)
    ensures RecordsOk(AfterMove(s, k, m))
  {
    var t := AfterMove(s, k, m);
    forall sid | sid in t.core.deliveries ensures RecordLinked(t, sid) {
      assert RecordLinked(s, sid);
      var d := s.core.deliveries[sid];
      if d.cell == k { MoveKeepsRecord(d, s.workers[k], s.core.signals[k], m); }
    }
  }

  lemma MoveFates(s: System, k: nat, m: Moved)
    requires MovePre(s, k, m)
    ensures FatesOk(AfterMove(s, k, m))
  {
    var t := AfterMove(s, k, m);
    forall i | 0 <= i < |t.workers| ensures FateOk(t, i) {
      assert FateOk(s, i);
    }
  }

  lemma MoveKeepsInv(s: System, k: nat, m: Moved)
    requires MovePre(s, k, m)
    ensures Inv(AfterMove(s, k, m))
  {
    MoveEvents(s, k, m);
    MoveRecords(s, k, m);
    MoveFates(s, k, m);
  }

  lemma WorkerStepKeepsInv(s: System, l: Label)
    requires Inv(s) && Enabled(s, l) && l.WorkerMoves?
    ensures Inv(Step(s, l))
  {
    var m := Move(s.workers[l.cell], s.core.signals[l.cell], l.reply);
    MoveContinues(s.workers[l.cell], s.core.signals[l.cell], l.reply);
    MoveKeepsWorker(s.workers[l.cell], s.core.signals[l.cell], l.reply);
    MoveKeepsInv(s, l.cell, m);
  }

  lemma UntouchedKeepsInv(s: System, l: Label)
    requires Inv(s) && Enabled(s, l) && Touches(s, l).None?
    requires !l.WorkerMoves? && !l.Removes? && !l.Begins? && !l.Blocks?
    ensures Inv(Step(s, l))
  {
    assert CoreAfter(s, l) == s.core;
    UnchangedStep(s, l);
  }

  /** Every step of every component keeps the invariant, while fresh identities remain. */
  lemma StepKeepsInv(s: System, l: Label)
    requires Inv(s) && Enabled(s, l) && |s.workers| < U64_MAX
    ensures Inv(Step(s, l))
  {
    if l.WorkerMoves? { WorkerStepKeepsInv(s, l); }
    else if Touches(s, l).Some? { TouchKeepsInv(s, l); }
    else if l.Removes? { RemoveKeepsInv(s, l); }
    else if l.Begins? { BeginKeepsInv(s, l); }
    else if l.Blocks? { BlockKeepsInv(s, l); }
    else { UntouchedKeepsInv(s, l); }
  }

  /** A Core step that changes no record in place keeps some records and drops the others. */
  lemma CoreThins(s: System, l: Label)
    requires Inv(s) && Enabled(s, l) && !l.WorkerMoves? && Touches(s, l).None?
    ensures var c := CoreAfter(s, l);
            && T.Valid(c) && T.Thins(s.core, c)
            && (c == s.core || (l.Removes? && |c.signals| == |s.workers|)
                || ((l.Begins? || l.Blocks?) && T.Inserts(s.core, c, l.sid) && IsNew(c.deliveries[l.sid])
                    && (l.sid in s.core.deliveries ==> !s.core.deliveries[l.sid].state.IsActive())))
  {
    if l.Removes? { T.RemoveThins(s.core, l.sid); }
    else if l.Begins? { BeginBegan(s, l); }
    else if l.Blocks? && !(l.sid in s.core.deliveries && s.core.deliveries[l.sid].state.WritingPaste?) {
      T.BlockInserts(s.core, l.sid, l.epoch, l.baseline, l.submission, l.cause, l.notification);
    }
  }
}
