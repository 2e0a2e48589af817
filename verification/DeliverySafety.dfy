/**
What holds of every run of the delivery protocol: of the terminal writes of one
delivery, of the states its record goes through, and of the evidence behind them.
 */
module DeliverySafety {
  import opened Common
  import opened DeliveryRecord
  import opened DeliveryWorker
  import opened DeliveryLaws
  import opened DeliveryProtocol
  import T = DeliveryTable

  ghost predicate Next(s: System, l: Label, t: System) { WellFormed(s) && Enabled(s, l) && t == Step(s, l) }

  ghost predicate NextAt(states: seq<System>, labels: seq<Label>, i: nat)
    requires i < |labels| && |states| == |labels| + 1
  {
    Next(states[i], labels[i], states[i + 1])
  }

  /** Any interleaving of Core and its workers, from an empty table. */
  ghost predicate IsRun(states: seq<System>, labels: seq<Label>) {
    && |states| == |labels| + 1
    && states[0] == INITIAL
    && (forall i :: 0 <= i < |labels| ==> NextAt(states, labels, i))
  }

  /** Fewer than 2^64 - 1 deliveries were ever begun, so no two share an identity. */
  ghost predicate Unsaturated(s: System) { |s.workers| < U64_MAX }

  ghost predicate EndsIn(states: seq<System>, labels: seq<Label>, s: System) {
    IsRun(states, labels) && states[|labels|] == s
  }

  lemma NextIs(states: seq<System>, labels: seq<Label>, i: nat, s: System, l: Label, t: System)
    requires i < |labels| && |states| == |labels| + 1 && states[i] == s && labels[i] == l && states[i + 1] == t
    ensures NextAt(states, labels, i) == Next(s, l, t)
  {
  }

  lemma RunNext(states: seq<System>, labels: seq<Label>, i: nat)
    requires IsRun(states, labels) && i < |labels|
    ensures Next(states[i], labels[i], states[i + 1])
  {
    NextIs(states, labels, i, states[i], labels[i], states[i + 1]);
  }

  lemma NextKept(states: seq<System>, labels: seq<Label>, ss: seq<System>, ls: seq<Label>, i: nat)
    requires IsRun(states, labels) && i < |labels| < |ls| && |ss| == |ls| + 1
    requires ss[i] == states[i] && ls[i] == labels[i] && ss[i + 1] == states[i + 1]
    ensures NextAt(ss, ls, i)
  {
    RunNext(states, labels, i);
    NextIs(ss, ls, i, states[i], labels[i], states[i + 1]);
  }

  /** The run goes on with one more step. */
  lemma ExtendsAt(states: seq<System>, labels: seq<Label>, ss: seq<System>, ls: seq<Label>, i: nat)
    requires IsRun(states, labels) && |ls| == |labels| + 1 && |ss| == |states| + 1 && states <= ss && labels <= ls
    requires i < |ls| && Next(states[|labels|], ls[|labels|], ss[|ls|])
    ensures NextAt(ss, ls, i)
  {
    if i < |labels| {
      assert ss[i] == states[i] && ls[i] == labels[i] && ss[i + 1] == states[i + 1];
      NextKept(states, labels, ss, ls, i);
    } else {
      NextIs(ss, ls, i, states[i], ls[i], ss[i + 1]);
    }
  }

  lemma ExtendRun(states: seq<System>, labels: seq<Label>, s: System, l: Label, t: System)
    requires EndsIn(states, labels, s) && Next(s, l, t)
    ensures EndsIn(states + [t], labels + [l], t)
  {
    var ss, ls := states + [t], labels + [l];
    forall i | 0 <= i < |ls| ensures NextAt(ss, ls, i) { ExtendsAt(states, labels, ss, ls, i); }
  }

  lemma WorkersGrow1(states: seq<System>, labels: seq<Label>, i: nat)
    requires IsRun(states, labels) && i < |labels|
    ensures |states[i].workers| <= |states[i + 1].workers| <= |states[i].workers| + 1
  {
    assert NextAt(states, labels, i);
  }

  lemma {:induction false} WorkersGrowAlong(states: seq<System>, labels: seq<Label>, i: nat, j: nat)
    requires IsRun(states, labels) && i <= j < |states|
    ensures |states[i].workers| <= |states[j].workers|
    decreases j
  {
    if i < j {
      WorkersGrowAlong(states, labels, i, j - 1);
      WorkersGrow1(states, labels, j - 1);
    }
  }

  lemma InvStep(states: seq<System>, labels: seq<Label>, n: nat)
    requires IsRun(states, labels) && n < |labels| && Inv(states[n]) && Unsaturated(states[n])
    ensures Inv(states[n + 1])
  {
    assert NextAt(states, labels, n);
    StepKeepsInv(states[n], labels[n]);
  }

  /** The invariant holds at every moment of every run. */
  lemma {:induction false} RunKeepsInv(states: seq<System>, labels: seq<Label>, n: nat)
    requires IsRun(states, labels) && n < |states| && Unsaturated(states[n])
    ensures Inv(states[n])
  {
    if n > 0 {
      WorkersGrow1(states, labels, n - 1);
      RunKeepsInv(states, labels, n - 1);
      InvStep(states, labels, n - 1);
    }
  }

  // ----- terminal writes -----

  /** Whatever interleaves, one delivery's terminal writes are a paste and then a bounded number of submits. */
  lemma TerminalWritesHaveShape(states: seq<System>, labels: seq<Label>, n: nat, k: nat)
    requires IsRun(states, labels) && n < |states| && Unsaturated(states[n]) && k < |states[n].workers|
    ensures var w := states[n].workers[k]; Shape(w.trace, MaxSubmits(w.settlement, w.wake))
  {
    RunKeepsInv(states, labels, n);
    TracesHaveShape(states[n].workers[k]);
  }

  /** No step but a worker's own changes it, and none takes back a cancellation or a fate. */
  ghost predicate Frame(s: System, l: Label, t: System, k: nat) {
    && k < |s.workers| <= |t.workers|
    && |s.workers| == |s.core.signals| == |s.fates| && |t.workers| == |t.core.signals| == |t.fates|
    && (s.core.signals[k].cancel ==> t.core.signals[k].cancel)
    && (t.core.signals[k].ack.Open? ==> s.core.signals[k].ack.Open?)
    && (s.core.signals[k].submitReceipted ==> t.core.signals[k].submitReceipted)
    && (s.fates[k].Some? ==> t.fates[k] == s.fates[k])
    && (t.workers[k] == s.workers[k]
        || (l.WorkerMoves? && l.cell == k && t.workers[k] == Move(s.workers[k], s.core.signals[k], l.reply).worker))
  }

  lemma WorkerFrame(s: System, l: Label, k: nat)
    requires Inv(s) && Enabled(s, l) && k < |s.workers| && l.WorkerMoves?
    ensures Frame(s, l, Step(s, l), k)
  {
    MoveContinues(s.workers[l.cell], s.core.signals[l.cell], l.reply);
  }

  lemma PutFrame(s: System, l: Label, k: nat, sid: SessionId, x: Slot, t: System)
    requires PutPre(s, sid, x) && Enabled(s, l) && !l.WorkerMoves? && k < |s.workers|
    requires t == CoreStep(s, l, T.Put(s.core, sid, x))
    ensures Frame(s, l, t, k)
  {
    PutStep(s, l, sid, x);
  }

  lemma TouchFrame(s: System, l: Label, k: nat)
    requires Inv(s) && Enabled(s, l) && k < |s.workers| && Touches(s, l).Some?
    ensures Frame(s, l, Step(s, l), k)
  {
    TouchOk(s, l);
    var (sid, x) := Touches(s, l).value;
    PutFrame(s, l, k, sid, x, Step(s, l));
  }

  lemma ThinFrame(s: System, l: Label, c: T.Core, k: nat)
    requires Inv(s) && Enabled(s, l) && k < |s.workers| && T.Thins(s.core, c)
    requires |c.signals| == |s.workers| || (|c.signals| == |s.workers| + 1 && (l.Begins? || l.Blocks?))
    ensures Frame(s, l, CoreStep(s, l, c), k)
  {
    CoreStepGrows(s, l, c);
    assert T.Aside(s.core.signals[k], c.signals[k]);
  }

  lemma StepFrame(s: System, l: Label, k: nat)
    requires Inv(s) && Enabled(s, l) && k < |s.workers|
    ensures Frame(s, l, Step(s, l), k)
  {
    if l.WorkerMoves? { WorkerFrame(s, l, k); }
    else if Touches(s, l).Some? { TouchFrame(s, l, k); }
    else {
      CoreThins(s, l);
      ThinFrame(s, l, CoreAfter(s, l), k);
    }
  }

  lemma RunFrame(states: seq<System>, labels: seq<Label>, j: nat, k: nat)
    requires IsRun(states, labels) && j < |labels| && Unsaturated(states[j]) && k < |states[j].workers|
    ensures Frame(states[j], labels[j], states[j + 1], k)
  {
    RunKeepsInv(states, labels, j);
    assert NextAt(states, labels, j);
    StepFrame(states[j], labels[j], k);
  }

  lemma CancelledStep(s: System, l: Label, t: System, k: nat)
    requires Frame(s, l, t, k) && s.core.signals[k].cancel
    ensures t.core.signals[k].cancel
    ensures Writes(t.workers[k].trace) + Committed(t.workers[k].pc)
            <= Writes(s.workers[k].trace) + Committed(s.workers[k].pc)
  {
    if t.workers[k] != s.workers[k] {
      MoveContinues(s.workers[k], s.core.signals[k], l.reply);
    }
  }

  /** After its cancellation a worker hands the terminal at most the one write it had committed to. */
  lemma {:induction false} CancellationStopsWrites(states: seq<System>, labels: seq<Label>, i: nat, j: nat, k: nat)
    requires IsRun(states, labels) && i <= j < |states| && Unsaturated(states[j])
    requires k < |states[i].workers| <= |states[j].workers|
    requires k < |states[i].core.signals| && states[i].core.signals[k].cancel
    ensures k < |states[j].core.signals| && states[j].core.signals[k].cancel
    ensures var w, v := states[i].workers[k], states[j].workers[k];
            Writes(v.trace) + Committed(v.pc) <= Writes(w.trace) + Committed(w.pc) <= Writes(w.trace) + 1
    decreases j
  {
    if i < j {
      WorkersGrowAlong(states, labels, i, j - 1);
      WorkersGrow1(states, labels, j - 1);
      CancellationStopsWrites(states, labels, i, j - 1, k);
      RunFrame(states, labels, j - 1, k);
      CancelledStep(states[j - 1], labels[j - 1], states[j], k);
    }
  }

  // ----- records -----

  /** A record after a step is the one before it, lawfully changed, or one the step inserted. */
  ghost predicate RecordNext(s: System, l: Label, e: Delivery, sid: SessionId) {
    || (sid in s.core.deliveries
        && var d := s.core.deliveries[sid]; Lawful(d, e) && OnEvidence(d, e, NewsFor(l, sid, d.epoch)))
    || (e.cell == |s.workers| && IsNew(e))
  }

  lemma TouchedNext(s: System, l: Label, at: SessionId, x: Slot, sid: SessionId)
    requires Inv(s) && Enabled(s, l) && !l.WorkerMoves? && LawfulTouch(s, l, at, x) && sid in CoreAfter(s, l).deliveries
    ensures RecordNext(s, l, CoreAfter(s, l).deliveries[sid], sid)
  {
    if sid != at { KeptNext(s, l, s.core.deliveries[sid], sid); }
  }

  /** A record the step leaves alone. */
  lemma KeptNext(s: System, l: Label, d: Delivery, sid: SessionId)
    requires sid in s.core.deliveries && s.core.deliveries[sid] == d
    ensures RecordNext(s, l, d, sid)
  {
  }

  lemma InsertedNext(s: System, l: Label, c: T.Core, sid: SessionId)
    requires Inv(s) && T.Thins(s.core, c) && sid in c.deliveries
    requires c.deliveries[sid].cell >= |s.workers| ==> c.deliveries[sid].cell == |s.workers| && IsNew(c.deliveries[sid])
    ensures RecordNext(s, l, c.deliveries[sid], sid)
  {
  }

  lemma RecordStep(s: System, l: Label, sid: SessionId)
    requires Inv(s) && Enabled(s, l) && sid in Step(s, l).core.deliveries
    ensures RecordNext(s, l, Step(s, l).core.deliveries[sid], sid)
  {
    if l.WorkerMoves? {
    } else if Touches(s, l).Some? {
      TouchOk(s, l);
      TouchedNext(s, l, Touches(s, l).value.0, Touches(s, l).value.1, sid);
    } else {
      CoreThins(s, l);
      InsertedNext(s, l, CoreAfter(s, l), sid);
    }
  }

  lemma RunRecordStep(states: seq<System>, labels: seq<Label>, n: nat, sid: SessionId)
    requires IsRun(states, labels) && n < |labels| && Unsaturated(states[n]) && sid in states[n + 1].core.deliveries
    ensures RecordNext(states[n], labels[n], states[n + 1].core.deliveries[sid], sid)
  {
    RunKeepsInv(states, labels, n);
    assert NextAt(states, labels, n);
    RecordStep(states[n], labels[n], sid);
  }

  /**
  Between any two moments of a run a record that was already there has kept its
  identity, and with it its final state, its first failure and its receipts.
   */
  lemma {:induction false} RecordsKeep(states: seq<System>, labels: seq<Label>, i: nat, j: nat, sid: SessionId)
    requires IsRun(states, labels) && i <= j < |states| && Unsaturated(states[j])
    requires sid in states[j].core.deliveries && states[j].core.deliveries[sid].cell < |states[i].workers|
    ensures sid in states[i].core.deliveries
    ensures Keeps(states[i].core.deliveries[sid], states[j].core.deliveries[sid])
    decreases j
  {
    if i < j {
      WorkersGrow1(states, labels, j - 1);
      WorkersGrowAlong(states, labels, i, j - 1);
      RunRecordStep(states, labels, j - 1, sid);
      RecordsKeep(states, labels, i, j - 1, sid);
    }
  }

  /** The record of `sid` is the k-th delivery's. */
  ghost predicate OnRecord(s: System, sid: SessionId, k: nat) { Held(s.core, sid, k) && k < |s.workers| }

  /** The m-th step brought provider evidence for the k-th delivery, in the epoch that delivery started in. */
  ghost predicate EvidenceAt(states: seq<System>, labels: seq<Label>, m: nat, sid: SessionId, k: nat, baseline: nat)
    requires m < |labels| < |states|
  {
    && (labels[m].Acknowledges? || labels[m].QueueProgresses?) && labels[m].sid == sid
    && OnRecord(states[m], sid, k) && labels[m].epoch == states[m].workers[k].epoch
    && labels[m].sequence > baseline
  }

  lemma LinkedAt(states: seq<System>, labels: seq<Label>, n: nat, sid: SessionId)
    requires IsRun(states, labels) && n < |states| && Unsaturated(states[n]) && sid in states[n].core.deliveries
    ensures RecordLinked(states[n], sid)
  {
    RunKeepsInv(states, labels, n);
  }

  /** A record is acknowledged only on provider evidence newer than its baseline, brought in its own epoch. */
  lemma {:induction false} AcknowledgedOnEvidence(states: seq<System>, labels: seq<Label>, n: nat, sid: SessionId)
    returns (m: nat)
    requires IsRun(states, labels) && n < |states| && Unsaturated(states[n]) && sid in states[n].core.deliveries
    requires Acknowledged(states[n].core.deliveries[sid].state) || states[n].core.deliveries[sid].confirmation.Some?
    ensures m < n
    ensures var e := states[n].core.deliveries[sid];
            && EvidenceAt(states, labels, m, sid, e.cell, e.baseline)
            && (e.confirmation.Some? ==> labels[m].sequence == e.confirmation.value.0)
    decreases n
  {
    assert n > 0;
    WorkersGrow1(states, labels, n - 1);
    LinkedAt(states, labels, n, sid);
    RunRecordStep(states, labels, n - 1, sid);
    LinkedAt(states, labels, n - 1, sid);
    var d, e := states[n - 1].core.deliveries[sid], states[n].core.deliveries[sid];
    if e.confirmation.Some? && (d.confirmation.None? || e.confirmation.value.0 != d.confirmation.value.0) {
      m := n - 1;
    } else {
      m := AcknowledgedOnEvidence(states, labels, n - 1, sid);
    }
  }

  /** A record that is `Confirmed` has had its paste receipted, or was `ConfirmedUnattributed` before. */
  lemma {:induction false} ConfirmedIsAttributed(states: seq<System>, labels: seq<Label>, n: nat, sid: SessionId)
    returns (m: nat)
    requires IsRun(states, labels) && n < |states| && Unsaturated(states[n]) && sid in states[n].core.deliveries
    requires states[n].core.deliveries[sid].state.Confirmed?
    ensures var e := states[n].core.deliveries[sid];
            || (e.cell < |states[n].workers| && states[n].workers[e.cell].trace.Has(PasteReceipted))
            || (m < n && OnRecord(states[m], sid, e.cell)
                && states[m].core.deliveries[sid].state.ConfirmedUnattributed?)
    decreases n
  {
    assert n > 0;
    m := n - 1;
    WorkersGrow1(states, labels, n - 1);
    LinkedAt(states, labels, n, sid);
    RunRecordStep(states, labels, n - 1, sid);
    LinkedAt(states, labels, n - 1, sid);
    var d, e := states[n - 1].core.deliveries[sid], states[n].core.deliveries[sid];
    if d.state.Confirmed? {
      m := ConfirmedIsAttributed(states, labels, n - 1, sid);
      RunFrame(states, labels, n - 1, d.cell);
      ReceiptStays(states[n - 1], labels[n - 1], states[n], d.cell);
    }
  }

  lemma ReceiptStays(s: System, l: Label, t: System, k: nat)
    requires Frame(s, l, t, k)
    ensures s.workers[k].trace.Has(PasteReceipted) ==> t.workers[k].trace.Has(PasteReceipted)
  {
    if t.workers[k] != s.workers[k] { MoveContinues(s.workers[k], s.core.signals[k], l.reply); }
  }

  /** At every moment, a record that awaits its acknowledgement, or gave up on it, has a receipted submit. */
  lemma AwaitingMeansSubmitted(states: seq<System>, labels: seq<Label>, n: nat, sid: SessionId)
    requires IsRun(states, labels) && n < |states| && Unsaturated(states[n]) && sid in states[n].core.deliveries
    requires states[n].core.deliveries[sid].state.AwaitingProviderAck? || states[n].core.deliveries[sid].state.Stalled?
    ensures var k := states[n].core.deliveries[sid].cell;
            k < |states[n].workers| && states[n].workers[k].trace.Has(SubmitReceipted)
  {
    LinkedAt(states, labels, n, sid);
  }

  lemma QueueTouch(s: System, l: Label)
    requires Inv(s) && l.QueueProgresses? && CoreAfter(s, l) != s.core
    ensures RecordLinked(s, l.sid)
    ensures s.workers[s.core.deliveries[l.sid].cell].trace.Has(SubmitReceipted)
  {
    assert RecordLinked(s, l.sid);
    var x := T.SlotOf(s.core, l.sid);
    T.PutSame(s.core, l.sid);
    ConfirmQueueProgressOk(x, l.sequence, s.workers[x.record.cell]);
  }

  /** Queue progress is never credited before the submit it acknowledges was receipted. */
  lemma QueueProgressFollowsSubmit(states: seq<System>, labels: seq<Label>, n: nat)
    requires IsRun(states, labels) && n < |labels| && Unsaturated(states[n]) && labels[n].QueueProgresses?
    requires states[n + 1].core != states[n].core
    ensures var sid := labels[n].sid;
            && sid in states[n].core.deliveries && states[n].core.deliveries[sid].cell < |states[n].workers|
            && states[n].workers[states[n].core.deliveries[sid].cell].trace.Has(SubmitReceipted)
  {
    RunKeepsInv(states, labels, n);
    assert NextAt(states, labels, n);
    QueueTouch(states[n], labels[n]);
  }

  // ----- recovery -----

  /** The step brings a turn, in the record's epoch, that is credited to it. */
  predicate BringsRecovery(l: Label, sid: SessionId, d: Delivery) {
    l.Acknowledges? && l.sid == sid && l.epoch == d.epoch && Recovers(d, l.sequence, l.activity)
  }

  lemma TouchRecovers(s: System, l: Label, sid: SessionId, x: Slot)
    requires Inv(s) && Enabled(s, l) && Touches(s, l) == Some((sid, x))
    requires sid in s.core.deliveries && Rested(s.core.deliveries[sid])
    ensures x.record.state.Confirmed? <==> BringsRecovery(l, sid, s.core.deliveries[sid])
  {
    assert RecordLinked(s, sid);
    var y := T.SlotOf(s.core, sid);
    if l.Acknowledges? { TurnRecovers(y, l.sequence, l.activity); }
    else if l.Receives? { OthersDoNotRecover(y, s.queue[0].diagnostics, s.queue[0].outcome, 0, 0); }
    else if l.ChangesEpoch? { OthersDoNotRecover(y, NO_DIAGNOSTICS, Submitted, 0, l.epoch); }
    else if l.Progresses? || l.QueueProgresses? { OthersDoNotRecover(y, NO_DIAGNOSTICS, Submitted, l.sequence, 0); }
  }

  lemma UntouchedStays(s: System, l: Label, sid: SessionId)
    requires Inv(s) && Enabled(s, l) && !l.WorkerMoves? && Touches(s, l).None?
    requires sid in s.core.deliveries && sid in CoreAfter(s, l).deliveries
    requires CoreAfter(s, l).deliveries[sid].cell == s.core.deliveries[sid].cell
    ensures CoreAfter(s, l).deliveries[sid] == s.core.deliveries[sid]
    ensures !BringsRecovery(l, sid, s.core.deliveries[sid])
  {
    CoreThins(s, l);
  }

  lemma TouchedRecovers(s: System, l: Label, sid: SessionId, at: SessionId, x: Slot, c: T.Core)
    requires Inv(s) && Enabled(s, l) && Touches(s, l) == Some((at, x)) && at in s.core.deliveries
    requires x.record.cell < |s.core.signals| && c == T.Put(s.core, at, x)
    requires sid in s.core.deliveries && Rested(s.core.deliveries[sid])
    ensures sid in c.deliveries
    ensures c.deliveries[sid].state.Confirmed? <==> BringsRecovery(l, sid, s.core.deliveries[sid])
  {
    if at == sid { TouchRecovers(s, l, sid, x); }
  }

  lemma StepRecovers(s: System, l: Label, sid: SessionId, c: T.Core)
    requires Inv(s) && Enabled(s, l) && !l.WorkerMoves? && c == CoreAfter(s, l)
    requires sid in s.core.deliveries && Rested(s.core.deliveries[sid])
    requires sid in c.deliveries && c.deliveries[sid].cell == s.core.deliveries[sid].cell
    ensures c.deliveries[sid].state.Confirmed? <==> BringsRecovery(l, sid, s.core.deliveries[sid])
  {
    if Touches(s, l).Some? {
      TouchOk(s, l);
      TouchedRecovers(s, l, sid, Touches(s, l).value.0, Touches(s, l).value.1, c);
    } else {
      UntouchedStays(s, l, sid);
    }
  }

  /**
  In every run a record whose transport had failed becomes `Confirmed` exactly by
  a turn that is newer than it, after a failure that left the pasted text in an
  unchanged composer; and then its paste was receipted.
   */
  lemma RecoveryIsAttributed(states: seq<System>, labels: seq<Label>, n: nat, sid: SessionId)
    requires IsRun(states, labels) && n < |labels| && Unsaturated(states[n])
    requires sid in states[n].core.deliveries && Rested(states[n].core.deliveries[sid])
    requires sid in states[n + 1].core.deliveries
    requires states[n + 1].core.deliveries[sid].cell == states[n].core.deliveries[sid].cell
    ensures states[n + 1].core.deliveries[sid].state.Confirmed?
            <==> BringsRecovery(labels[n], sid, states[n].core.deliveries[sid])
    ensures BringsRecovery(labels[n], sid, states[n].core.deliveries[sid]) ==>
              && states[n].core.deliveries[sid].cell < |states[n].workers|
              && states[n].workers[states[n].core.deliveries[sid].cell].trace.Has(PasteReceipted)
  {
    RunKeepsInv(states, labels, n);
    LinkedAt(states, labels, n, sid);
    assert NextAt(states, labels, n);
    if !labels[n].WorkerMoves? { StepRecovers(states[n], labels[n], sid, CoreAfter(states[n], labels[n])); }
  }

  // ----- events -----

  /** The step is the k-th worker's, and sends the event. */
  ghost predicate Sends(s: System, l: Label, k: nat, e: Event) {
    && l.WorkerMoves? && l.cell == k && k < |s.workers| && k < |s.core.signals|
    && var w := Move(s.workers[k], s.core.signals[k], l.reply);
       && w.sent == Some((e.outcome, e.diagnostics))
       && e.session == w.worker.session && e.epoch == w.worker.epoch && e.id == k + 1
  }

  ghost predicate SendsAt(states: seq<System>, labels: seq<Label>, m: nat, k: nat, e: Event)
    requires m < |labels| < |states|
  {
    Sends(states[m], labels[m], k, e)
  }

  lemma MoveSends(s: System, l: Label, i: nat)
    requires Inv(s) && Enabled(s, l) && l.WorkerMoves? && i < |Step(s, l).queue| && i >= |s.queue|
    ensures Sends(s, l, l.cell, Step(s, l).queue[i])
  {
    MoveContinues(s.workers[l.cell], s.core.signals[l.cell], l.reply);
  }

  lemma QueueAfter(s: System, l: Label)
    requires WellFormed(s) && Enabled(s, l) && !l.WorkerMoves?
    ensures Step(s, l).queue == Popped(s, l)
  {
  }

  lemma EventFrom(s: System, l: Label, t: System, i: nat) returns (j: nat)
    requires Inv(s) && Next(s, l, t) && i < |t.queue|
    ensures if j < |s.queue| then s.queue[j] == t.queue[i]
            else t.queue[i].id > 0 && Sends(s, l, t.queue[i].id - 1, t.queue[i])
  {
    j := if l.Receives? then i + 1 else i;
    if !l.WorkerMoves? { QueueAfter(s, l); } else if i >= |s.queue| { MoveSends(s, l, i); }
  }

  /** An event under way was under way before, or is sent by the step. */
  lemma EventBefore(states: seq<System>, labels: seq<Label>, n: nat, i: nat) returns (j: nat)
    requires IsRun(states, labels) && n < |labels| && Unsaturated(states[n]) && i < |states[n + 1].queue|
    ensures if j < |states[n].queue| then states[n].queue[j] == states[n + 1].queue[i]
            else states[n + 1].queue[i].id > 0
                 && SendsAt(states, labels, n, states[n + 1].queue[i].id - 1, states[n + 1].queue[i])
  {
    RunKeepsInv(states, labels, n);
    assert NextAt(states, labels, n);
    j := EventFrom(states[n], labels[n], states[n + 1], i);
  }

  /** Every event under way was sent by the worker its identity names. */
  lemma {:induction false} EventWasSent(states: seq<System>, labels: seq<Label>, n: nat, i: nat) returns (m: nat)
    requires IsRun(states, labels) && n < |states| && Unsaturated(states[n]) && i < |states[n].queue|
    ensures m < n && states[n].queue[i].id > 0
    ensures SendsAt(states, labels, m, states[n].queue[i].id - 1, states[n].queue[i])
    decreases n
  {
    assert n > 0;
    WorkersGrow1(states, labels, n - 1);
    var j := EventBefore(states, labels, n - 1, i);
    if j < |states[n - 1].queue| { m := EventWasSent(states, labels, n - 1, j); } else { m := n - 1; }
  }

  /** However late it arrives, an event is applied to the delivery whose worker sent it, or to none. */
  lemma EventsReachTheirOwnRecord(states: seq<System>, labels: seq<Label>, n: nat) returns (m: nat)
    requires IsRun(states, labels) && n < |labels| && Unsaturated(states[n])
    requires labels[n].Receives? && states[n].queue != []
    ensures var e := states[n].queue[0];
            if T.Addressed(states[n].core, e)
            then m < n && SendsAt(states, labels, m, states[n].core.deliveries[e.session].cell, e)
            else states[n + 1] == states[n].(queue := states[n].queue[1..])
  {
    RunKeepsInv(states, labels, n);
    assert NextAt(states, labels, n);
    m := EventWasSent(states, labels, n, 0);
    if !T.Addressed(states[n].core, states[n].queue[0]) { UnchangedStep(states[n], labels[n]); }
    else { LinkedAt(states, labels, n, states[n].queue[0].session); }
  }

  /** Only an inactive record is ever evicted, and only one that asked for it is replaced. */
  lemma EvictionSparesActive(states: seq<System>, labels: seq<Label>, n: nat, k: nat)
    requires IsRun(states, labels) && n < |labels| && Unsaturated(states[n])
    requires k < |states[n].fates| && k < |states[n + 1].fates| && states[n].fates[k].None?
    requires states[n + 1].fates[k].Some? && !states[n + 1].fates[k].value.Removed?
    ensures !states[n + 1].fates[k].value.state.IsActive()
  {
    RunKeepsInv(states, labels, n);
    assert NextAt(states, labels, n);
    var s, l := states[n], labels[n];
    assert FateOk(s, k);
    if !l.WorkerMoves? {
      if Touches(s, l).Some? {
        TouchOk(s, l);
        PutStep(s, l, Touches(s, l).value.0, Touches(s, l).value.1);
      } else {
        ThinnedWasInactive(s, l, k);
      }
    }
  }

  lemma ThinnedWasInactive(s: System, l: Label, k: nat)
    requires Inv(s) && Enabled(s, l) && !l.WorkerMoves? && Touches(s, l).None? && k < |s.workers| && s.fates[k].None?
    requires FateAfter(s, l, CoreAfter(s, l), k).Some? && !FateAfter(s, l, CoreAfter(s, l), k).value.Removed?
    ensures !FateAfter(s, l, CoreAfter(s, l), k).value.state.IsActive()
  {
    assert FateOk(s, k);
    CoreThins(s, l);
  }
}
