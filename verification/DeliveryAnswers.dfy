/**
What a worker's reports and writes have to do with what it was answered, and how
an acknowledgement stops it.
 */
module DeliveryAnswers {
  import opened Common
  import opened DeliveryRecord
  import opened DeliveryWorker
  import opened DeliveryLaws
  import opened DeliveryProtocol
  import opened DeliverySafety
  import T = DeliveryTable

  // ----- failures -----

  /** The failure an outcome reports. */
  function FailureOf(o: Outcome): Option<Failure> {
    if o.BlockedBy? || o.FailedBy? || o.SubmitRetryFailed? then Some(o.failure) else None
  }

  /** The step decides on a report. */
  predicate Decides(w: Worker, m: Moved) { m.worker.pc.Reporting? && !w.pc.Reporting? }

  /** Failures after which the terminal still works are blocks, the others failures. */
  predicate Blocks(f: Failure) {
    f == ComposerUnavailable || f == ComposerNotReady || f == OutputDidNotSettle || f == UserInputInterleaved
  }

  /** Why a failure is reported: what was written so far, what the terminal answered, and whether Core cancelled. */
  ghost predicate IsDue(w: Worker, g: Signals, r: Reply, f: Failure) {
    match f
    case ComposerUnavailable => g.cancel && w.attempt == 0
    case ComposerNotReady => !g.cancel && w.trace == Start && w.pc == Pasting(ReadyFailed(TimedOut))
    case PasteWriteFailed => w.trace == PASTED && !r.answer.Fine?
    case OutputDidNotSettle =>
      && w.trace == RECEIPTED && w.pc != Settling(FirstWait)
      && (r.answer.Touched? || (w.pc == Settling(LateCheck) && (g.cancel || r.answer.TimedOut?)))
    case UserInputInterleaved =>
      && w.attempt > 0 && w.trace == Submits(w.attempt - 1)
      && (r.answer.TimedOut? || (r.answer.ReplyPending? && w.waits >= 8))
    case SubmitWriteFailed =>
      w.attempt > 0 && !r.answer.Fine? && (r.answer.Closed? ==> w.trace == Then(Submits(w.attempt - 1), SubmitHanded))
    case TerminalClosed => r.answer.Closed? || w.pc == Pasting(ReadyFailed(Closed))
    case TerminalUnavailable =>
      w.pc.Pasting? || (r.answer !in {Fine, Closed} && (w.pc.Settling? ==> !r.answer.TimedOut?))
    case _ => false
  }

  ghost predicate DueReport(w: Worker, g: Signals, r: Reply, m: Moved) {
    Decides(w, m) && FailureOf(m.worker.pc.outcome).Some? ==>
      var o := m.worker.pc.outcome;
      && IsDue(w, g, r, o.failure)
      && (o.SubmitRetryFailed? <==> w.attempt > 1)
      && (w.attempt <= 1 ==> (o.BlockedBy? <==> Blocks(o.failure)))
  }

  lemma PasteFailuresAreDue(w: Worker, g: Signals, r: Reply)
    requires AtPc(w) && w.pc.Pasting?
    ensures DueReport(w, g, r, MovePaste(w, g, r))
  {
  }

  lemma SettleFailuresAreDue(w: Worker, g: Signals, r: Reply)
    requires AtPc(w) && w.pc.Settling?
    ensures DueReport(w, g, r, MoveSettle(w, g, r))
  {
  }

  lemma SubmitFailuresAreDue(w: Worker, g: Signals, r: Reply)
    requires AtPc(w) && w.pc.Submitting?
    ensures DueReport(w, g, r, MoveSubmit(w, g, r))
  {
  }

  /** Every failure a worker reports is due, and of the right kind. */
  lemma FailuresAreDue(w: Worker, g: Signals, r: Reply)
    requires WorkerOk(w, g)
    ensures DueReport(w, g, r, Move(w, g, r))
  {
    match w.pc
    case Pasting(_) => PasteFailuresAreDue(w, g, r);
    case Settling(_) => SettleFailuresAreDue(w, g, r);
    case Submitting(_) => SubmitFailuresAreDue(w, g, r);
    case _ =>
  }

  /** What a worker at one of its checks does when it was cancelled. */
  function Halt(pc: Pc): Pc {
    if pc.Settling? && pc.settle.LateCheck? then Reporting(BlockedBy(OutputDidNotSettle))
    else if pc.Acking? then Done
    else if pc.Retrying? then Reporting(ProviderAckTimedOut)
    else if pc == Pasting(WaitReady) then Pasting(ReadyFailed(TimedOut))
    else Reporting(BlockedBy(ComposerUnavailable))
  }

  /** A worker at one of its checks notices that it was cancelled, and writes nothing more. */
  lemma CancelIsNoticed(w: Worker, g: Signals, r: Reply)
    requires g.cancel && (w.pc == Pasting(WaitReady) ==> !r.answer.Fine?)
    requires w.pc in {Pasting(WaitReady), Pasting(PasteCheck), Settling(CancelAfterPaste), Settling(LateCheck),
                      Settling(CancelBeforeSubmit), Acking(RetryGate), Retrying(RetryCancel)}
             || (w.pc.Pasting? && w.pc.paste.ReadyFailed?)
    ensures Move(w, g, r).worker.pc == Halt(w.pc) && Move(w, g, r).worker.trace == w.trace
  {
  }

  /** So does one whose composer the user touched while the paste was settling, or before a wake is submitted again. */
  lemma InterferenceIsNoticed(w: Worker, g: Signals, r: Reply)
    requires r.answer.Touched?
    requires w.pc in {Settling(LateCheck), Settling(LateWait)} || (w.pc == Retrying(RetryCancel) && w.wake)
    ensures Move(w, g, r).worker.trace == w.trace
    ensures Move(w, g, r).worker.pc
            == Reporting(if w.pc.Settling? then BlockedBy(OutputDidNotSettle) else ProviderAckTimedOut)
  {
  }

  /** A worker that nothing was heard for but a time-out goes on waiting for its paste to settle. */
  lemma SettlingIsPatient(w: Worker, g: Signals, r: Reply)
    requires w.pc in {Settling(FirstWait), Settling(LateWait)} && r.answer.TimedOut?
    ensures Move(w, g, r).worker.pc == Settling(LateCheck)
  {
  }

  /** A terminal that is gone is reported as closed, from wherever it is next called. */
  lemma ClosedIsReported(w: Worker, g: Signals, r: Reply)
    requires r.answer.Closed? && !g.cancel
    requires w.pc in {Pasting(PasteWrite), Settling(FirstWait), Settling(LateCheck), Settling(LateWait),
                      Submitting(SubmitWrite), Submitting(SubmitReplyWait)}
    ensures Move(w, g, r).worker.pc.Reporting? && FailureOf(Move(w, g, r).worker.pc.outcome) == Some(TerminalClosed)
  {
  }

  /** A receipt that does not come is reported as a failed write. */
  lemma MissingReceiptIsReported(w: Worker, g: Signals, r: Reply)
    requires !r.answer.Fine? && w.pc in {Pasting(PasteReceipt), Submitting(SubmitReceipt)}
    ensures Move(w, g, r).worker.pc.Reporting?
    ensures FailureOf(Move(w, g, r).worker.pc.outcome)
            == Some(if w.pc.Pasting? then PasteWriteFailed else SubmitWriteFailed)
  {
  }

  /** What is decided is reported once, with what was learned, and then the worker waits or is done. */
  lemma ReportsOnce(w: Worker, g: Signals, r: Reply)
    requires w.pc.Reporting?
    ensures var m := Move(w, g, r);
            && m.sent == Some((w.pc.outcome, w.learned.(activity := r.detail)))
            && m.worker.trace == w.trace && m.signals == g
            && !m.worker.pc.Reporting?
            && (m.worker.pc.Acking? <==> w.pc.outcome.Submitted? && !w.settlement.ProviderQueue?)
            && (m.worker.pc.Retrying? <==> w.pc.outcome.SubmitRetried?)
  {
  }

  // ----- what is reported -----

  /** What is known of an attempt under way: its number, its waits, and on the first pass how the paste settled. */
  ghost predicate KnowsAttempt(w: Worker, receipted: bool) {
    && w.waits <= 8 && (w.attempt == 1 ==> w.learned.evidence.Some?)
    && w.learned == (if w.attempt == 1 then Diagnostics(true, w.learned.evidence, receipted, 1, w.waits, 0)
                     else Diagnostics(false, None, receipted, w.attempt, w.waits, 0))
  }

  /** What a worker knows, and reports, at each point. */
  ghost predicate Knows(w: Worker) {
    match w.pc
    case NoWorker => true
    case Pasting(_) => w.learned == NO_DIAGNOSTICS
    case Settling(p) =>
      && w.learned == NO_DIAGNOSTICS.(pasteReceipted := true, evidence := w.learned.evidence)
      && (w.learned.evidence.Some? <==> p.CancelBeforeSubmit?)
    case Submitting(_) => KnowsAttempt(w, false)
    case Reporting(o) =>
      if o.ProviderAckTimedOut? then w.learned == NO_DIAGNOSTICS
      else if w.attempt > 0 then KnowsAttempt(w, o.Submitted? || o.SubmitRetried?)
      else w.learned == NO_DIAGNOSTICS.(pasteReceipted := w.trace.Has(PasteReceipted), evidence := w.learned.evidence)
           && (w.learned.evidence.Some? <==> w.trace.Has(Settled))
    case _ => true
  }

  lemma PasteKnows(w: Worker, g: Signals, r: Reply)
    requires AtPc(w) && Knows(w) && w.pc.Pasting?
    ensures Knows(MovePaste(w, g, r).worker)
  {
  }

  lemma SettleKnows(w: Worker, g: Signals, r: Reply)
    requires AtPc(w) && Knows(w) && w.pc.Settling?
    ensures Knows(MoveSettle(w, g, r).worker)
  {
  }

  lemma SubmitKnows(w: Worker, g: Signals, r: Reply)
    requires AtPc(w) && Knows(w) && w.pc.Submitting?
    ensures Knows(MoveSubmit(w, g, r).worker)
  {
  }

  lemma RetryKnows(w: Worker, g: Signals, r: Reply)
    requires AtPc(w) && Knows(w) && (w.pc.Acking? || w.pc.Retrying?)
    ensures Knows(Move(w, g, r).worker)
  {
  }

  lemma MoveKnows(w: Worker, g: Signals, r: Reply)
    requires AtPc(w) && Knows(w)
    ensures Knows(Move(w, g, r).worker)
  {
    match w.pc
    case Pasting(_) => PasteKnows(w, g, r);
    case Settling(_) => SettleKnows(w, g, r);
    case Submitting(_) => SubmitKnows(w, g, r);
    case Acking(_) => RetryKnows(w, g, r);
    case Retrying(_) => RetryKnows(w, g, r);
    case _ =>
  }

  /** How the paste settled is what the terminal answered when it did. */
  lemma EvidenceIsAnswered(w: Worker, g: Signals, r: Reply)
    ensures var v := Move(w, g, r).worker;
            if v.pc == Settling(CancelBeforeSubmit) then
              v.trace == Then(w.trace, Settled) && v.learned.evidence == Some(r.detail)
            else
              v.learned.evidence == w.learned.evidence || v.learned.evidence.None?
  {
  }

  lemma KnowsNext(s: System, l: Label, t: System, k: nat)
    requires Inv(s) && Next(s, l, t) && k < |t.workers| && (k < |s.workers| ==> Knows(s.workers[k]))
    ensures Knows(t.workers[k])
  {
    if k < |s.workers| {
      StepFrame(s, l, k);
      if t.workers[k] != s.workers[k] { MoveKnows(s.workers[k], s.core.signals[k], l.reply); }
    }
  }

  lemma KnowsAtStep(states: seq<System>, labels: seq<Label>, m: nat, k: nat)
    requires IsRun(states, labels) && m < |labels| && Unsaturated(states[m + 1]) && k < |states[m + 1].workers|
    requires k < |states[m].workers| ==> Knows(states[m].workers[k])
    ensures Knows(states[m + 1].workers[k])
  {
    WorkersGrow1(states, labels, m);
    RunNext(states, labels, m);
    RunKeepsInv(states, labels, m);
    KnowsNext(states[m], labels[m], states[m + 1], k);
  }

  /** In every run a worker knows, and reports, the attempt it makes, its waits and the receipts it was given. */
  lemma {:induction false} ReportsAreFull(states: seq<System>, labels: seq<Label>, n: nat, k: nat)
    requires IsRun(states, labels) && n < |states| && Unsaturated(states[n]) && k < |states[n].workers|
    ensures Knows(states[n].workers[k])
    decreases n
  {
    assert n > 0;
    WorkersGrow1(states, labels, n - 1);
    if k < |states[n - 1].workers| { ReportsAreFull(states, labels, n - 1, k); }
    KnowsAtStep(states, labels, n - 1, k);
  }

  // ----- writes need answers -----

  /** A worker records a mark only on the terminal's answer. */
  lemma MarksNeedAnswers(w: Worker, g: Signals, r: Reply)
    ensures Move(w, g, r).worker.trace != w.trace ==> r.answer.Fine?
  {
  }

  /** The step is the k-th worker's, answered well, and adds the mark. */
  ghost predicate Adds(s: System, l: Label, t: System, k: nat, mark: Mark) {
    && l.WorkerMoves? && l.cell == k && l.reply.answer.Fine? && k < |s.workers| && k < |t.workers|
    && t.workers[k].trace == Then(s.workers[k].trace, mark)
  }

  ghost predicate HasMark(s: System, k: nat, mark: Mark) { k < |s.workers| && s.workers[k].trace.Has(mark) }

  lemma MarkAdded(s: System, l: Label, t: System, k: nat, mark: Mark)
    requires Frame(s, l, t, k) && t.workers[k].trace.Has(mark) && !s.workers[k].trace.Has(mark)
    ensures l.WorkerMoves? && l.cell == k && l.reply.answer.Fine?
    ensures t.workers[k].trace == Then(s.workers[k].trace, mark)
  {
    MoveContinues(s.workers[k], s.core.signals[k], l.reply);
    MarksNeedAnswers(s.workers[k], s.core.signals[k], l.reply);
  }

  lemma NewTrace(s: System, l: Label, k: nat)
    requires WellFormed(s) && Enabled(s, l) && k >= |s.workers| && k < |Step(s, l).workers|
    ensures Step(s, l).workers[k].trace == Start || Step(s, l).workers[k].trace == PASTED
  {
  }

  lemma MarkBefore(s: System, l: Label, t: System, k: nat, mark: Mark)
    requires Inv(s) && Next(s, l, t) && HasMark(t, k, mark) && mark != PasteHanded
    ensures HasMark(s, k, mark) || Adds(s, l, t, k, mark)
  {
    if k < |s.workers| {
      StepFrame(s, l, k);
      if !HasMark(s, k, mark) { MarkAdded(s, l, t, k, mark); }
    } else {
      NewTrace(s, l, k);
    }
  }

  lemma MarkAtStep(states: seq<System>, labels: seq<Label>, m: nat, k: nat, mark: Mark)
    requires IsRun(states, labels) && m < |labels| && Unsaturated(states[m + 1])
    requires HasMark(states[m + 1], k, mark) && mark != PasteHanded
    ensures HasMark(states[m], k, mark) || Adds(states[m], labels[m], states[m + 1], k, mark)
  {
    WorkersGrow1(states, labels, m);
    RunNext(states, labels, m);
    RunKeepsInv(states, labels, m);
    MarkBefore(states[m], labels[m], states[m + 1], k, mark);
  }

  /**
  Whatever a worker was receipted, and whatever it wrote but a paste handed over
  as it began, it wrote or was receipted at a step at which the terminal said so.
   */
  lemma {:induction false} MarkWasAnswered(states: seq<System>, labels: seq<Label>, n: nat, k: nat, mark: Mark)
    returns (m: nat)
    requires IsRun(states, labels) && n < |states| && Unsaturated(states[n])
    requires HasMark(states[n], k, mark) && mark != PasteHanded
    ensures m < n && Adds(states[m], labels[m], states[m + 1], k, mark)
    decreases n
  {
    assert n > 0;
    m := n - 1;
    MarkAtStep(states, labels, m, k, mark);
    if HasMark(states[m], k, mark) {
      WorkersGrow1(states, labels, m);
      m := MarkWasAnswered(states, labels, m, k, mark);
    }
  }

  // ----- readiness -----

  /** Past the wait for the composer. */
  predicate IsReady(w: Worker) { w.Pasted() || (CanPaste(w.pc) && w.pc != Pasting(WaitReady)) }

  lemma BecomesReady(w: Worker, g: Signals, r: Reply)
    requires IsReady(Move(w, g, r).worker) && !IsReady(w)
    ensures w.pc == Pasting(WaitReady) && r.answer.Fine?
  {
    MoveContinues(w, g, r);
  }

  lemma StepBecomesReady(s: System, l: Label, t: System, k: nat)
    requires Frame(s, l, t, k) && IsReady(t.workers[k]) && !IsReady(s.workers[k])
    ensures l.WorkerMoves? && l.cell == k && l.reply.answer.Fine? && s.workers[k].pc == Pasting(WaitReady)
  {
    BecomesReady(s.workers[k], s.core.signals[k], l.reply);
  }

  lemma NewIsNotReady(s: System, l: Label, k: nat)
    requires WellFormed(s) && Enabled(s, l) && k >= |s.workers| && k < |Step(s, l).workers|
    requires Step(s, l).workers[k].settlement.IsComposer()
    ensures !IsReady(Step(s, l).workers[k])
  {
  }

  lemma SettlementStays(s: System, l: Label, t: System, k: nat)
    requires Frame(s, l, t, k)
    ensures t.workers[k].settlement == s.workers[k].settlement && t.workers[k].wake == s.workers[k].wake
  {
    if t.workers[k] != s.workers[k] { MoveContinues(s.workers[k], s.core.signals[k], l.reply); }
  }

  /** The step is the k-th worker's, whose composer is found ready. */
  ghost predicate FindsReady(s: System, l: Label, k: nat) {
    && l.WorkerMoves? && l.cell == k && l.reply.answer.Fine?
    && k < |s.workers| && s.workers[k].pc == Pasting(WaitReady)
  }

  ghost predicate WasReady(s: System, k: nat) {
    k < |s.workers| && s.workers[k].settlement.IsComposer() && IsReady(s.workers[k])
  }

  lemma ReadyBefore(s: System, l: Label, t: System, k: nat)
    requires Inv(s) && Next(s, l, t) && WasReady(t, k)
    ensures WasReady(s, k) || FindsReady(s, l, k)
  {
    if k < |s.workers| {
      StepFrame(s, l, k);
      SettlementStays(s, l, t, k);
      if !IsReady(s.workers[k]) { StepBecomesReady(s, l, t, k); }
    } else {
      NewIsNotReady(s, l, k);
    }
  }

  lemma ReadyAtStep(states: seq<System>, labels: seq<Label>, m: nat, k: nat)
    requires IsRun(states, labels) && m < |labels| && Unsaturated(states[m + 1]) && WasReady(states[m + 1], k)
    ensures WasReady(states[m], k) || FindsReady(states[m], labels[m], k)
  {
    WorkersGrow1(states, labels, m);
    RunNext(states, labels, m);
    RunKeepsInv(states, labels, m);
    ReadyBefore(states[m], labels[m], states[m + 1], k);
  }

  /** Nothing is pasted into a composer that was not found ready before. */
  lemma {:induction false} ReadyBeforePaste(states: seq<System>, labels: seq<Label>, n: nat, k: nat) returns (m: nat)
    requires IsRun(states, labels) && n < |states| && Unsaturated(states[n]) && WasReady(states[n], k)
    ensures m < n && FindsReady(states[m], labels[m], k)
    decreases n
  {
    assert n > 0;
    m := n - 1;
    ReadyAtStep(states, labels, m, k);
    if !FindsReady(states[m], labels[m], k) {
      WorkersGrow1(states, labels, m);
      m := ReadyBeforePaste(states, labels, m, k);
    }
  }

  // ----- acknowledgements -----

  /** A retry the worker is past the point of reconsidering. */
  function RetryCommitted(pc: Pc): nat {
    if pc == Retrying(RetryCancel) || pc == Submitting(SubmitWrite) || pc == Submitting(SubmitReplyWait) then 1 else 0
  }

  lemma ReceiptComesLate(w: Worker)
    requires AtPc(w) && w.trace.Has(SubmitReceipted)
    ensures !w.pc.Pasting? && !w.pc.Settling? && !w.pc.NoWorker? && w.attempt >= 1
    ensures w.pc.Submitting? ==> w.attempt >= 2
  {
    assert !SETTLED.Has(SubmitReceipted) && !RECEIPTED.Has(SubmitReceipted) && !PASTED.Has(SubmitReceipted);
    assert Submits(0) == SETTLED && !Then(SETTLED, SubmitHanded).Has(SubmitReceipted);
  }

  /** The step adds no write that was not already decided on. */
  ghost predicate Restrained(w: Worker, m: Moved) {
    && (w.trace.Has(SubmitReceipted) ==> m.worker.trace.Has(SubmitReceipted))
    && Writes(m.worker.trace) + RetryCommitted(m.worker.pc) <= Writes(w.trace) + RetryCommitted(w.pc)
  }

  lemma AckedSubmit(w: Worker, g: Signals, r: Reply)
    requires w.pc.Submitting?
    ensures Restrained(w, MoveSubmit(w, g, r))
  {
  }

  lemma AckedWait(w: Worker, g: Signals, r: Reply)
    requires w.pc.Acking? || w.pc.Reporting? || w.pc.Done? || w.pc.NoWorker?
    ensures Restrained(w, Move(w, g, r))
  {
  }

  lemma AckedRetry(w: Worker, g: Signals, r: Reply)
    requires w.pc.Retrying? && !g.ack.Open?
    ensures Restrained(w, MoveRetry(w, g, r))
  {
  }

  /** Once a submit was receipted and Core has acknowledged it, or stopped listening, nothing but that is written. */
  lemma AckedMove(w: Worker, g: Signals, r: Reply)
    requires WorkerOk(w, g) && !g.ack.Open? && w.trace.Has(SubmitReceipted)
    ensures Restrained(w, Move(w, g, r))
  {
    ReceiptComesLate(w);
    match w.pc
    case Submitting(_) => AckedSubmit(w, g, r);
    case Retrying(_) => AckedRetry(w, g, r);
    case _ => AckedWait(w, g, r);
  }

  lemma AckedStep(s: System, l: Label, t: System, k: nat)
    requires Frame(s, l, t, k) && WorkerOk(s.workers[k], s.core.signals[k])
    requires !s.core.signals[k].ack.Open? && s.workers[k].trace.Has(SubmitReceipted)
    ensures !t.core.signals[k].ack.Open? && t.workers[k].trace.Has(SubmitReceipted)
    ensures Writes(t.workers[k].trace) + RetryCommitted(t.workers[k].pc)
            <= Writes(s.workers[k].trace) + RetryCommitted(s.workers[k].pc)
  {
    if t.workers[k] != s.workers[k] { AckedMove(s.workers[k], s.core.signals[k], l.reply); }
  }

  /** The k-th worker has a receipted submit that Core acknowledged or no longer listens for. */
  ghost predicate IsAcked(s: System, k: nat) {
    && k < |s.workers| && k < |s.core.signals|
    && !s.core.signals[k].ack.Open? && s.workers[k].trace.Has(SubmitReceipted)
  }

  /** What it has written, and a retry it is about to write. */
  ghost function Spent(s: System, k: nat): nat
    requires k < |s.workers|
  {
    Writes(s.workers[k].trace) + RetryCommitted(s.workers[k].pc)
  }

  lemma AckedAtStep(states: seq<System>, labels: seq<Label>, m: nat, k: nat)
    requires IsRun(states, labels) && m < |labels| && Unsaturated(states[m + 1]) && IsAcked(states[m], k)
    ensures IsAcked(states[m + 1], k) && Spent(states[m + 1], k) <= Spent(states[m], k)
  {
    WorkersGrow1(states, labels, m);
    RunFrame(states, labels, m, k);
    RunKeepsInv(states, labels, m);
    AckedStep(states[m], labels[m], states[m + 1], k);
  }

  /** After its acknowledgement a submitted delivery is submitted again at most once, by a worker already about to. */
  lemma {:induction false} AcknowledgementStopsWrites(states: seq<System>, labels: seq<Label>, i: nat, j: nat, k: nat)
    requires IsRun(states, labels) && i <= j < |states| && Unsaturated(states[j]) && IsAcked(states[i], k)
    ensures IsAcked(states[j], k) && Spent(states[j], k) <= Spent(states[i], k)
    ensures Spent(states[i], k) <= Writes(states[i].workers[k].trace) + 1
    decreases j
  {
    if i < j {
      WorkersGrow1(states, labels, j - 1);
      AcknowledgementStopsWrites(states, labels, i, j - 1, k);
      AckedAtStep(states, labels, j - 1, k);
    }
  }

  // ----- retries -----

  /** A further attempt is due: for a wake within two minutes, or once for a composer that shows the text. */
  predicate RetryIsDue(w: Worker, r: Reply) {
    if w.pc == Acking(RetryEvidence) then w.wake || (w.settlement.IsComposer() && r.answer.Fine?)
    else w.pc == Retrying(WindowCheck) && w.wake && r.answer.Fine? && w.elapsed + r.milliseconds < 120_000
  }

  /** Submits are counted, and another attempt is decided on exactly when it is due. */
  lemma RetriesAreDue(w: Worker, g: Signals, r: Reply)
    requires AtPc(w) && w.attempt > 0
    ensures Move(w, g, r).worker.attempt == if RetryIsDue(w, r) then w.attempt + 1 else w.attempt
  {
  }
}
