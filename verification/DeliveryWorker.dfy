/**
The worker thread of one delivery, as a program counter over
`run_transport_delivery` and the retry loop of `begin`. Every read of a shared
flag, every terminal call and every event sent is a step of its own, so Core and
other workers may run between any two of them. What the terminal, the clock and
the channel answer is the `Reply` of the step.
 */
module DeliveryWorker {
  import opened Common
  import opened DeliveryRecord

  const MAX_PROTOCOL_REPLY_SETTLEMENT_WAITS: nat := 8
  const PROVIDER_ACK_AFTER_RETRY_TIMEOUT_MS: nat := 5_000
  const PERSISTENT_WAKE_SUBMIT_WINDOW_MS: nat := 120_000

  datatype Pc =
    | NoWorker             // a record without a thread
    | Pasting(paste: PasteStep)
    | Settling(settle: SettleStep)
    | Submitting(submit: SubmitStep)
    | Reporting(outcome: Outcome)
    | Acking(ack: AckStep)
    | Retrying(retry: RetryStep)
    | Done

  /** Composer readiness and the paste. */
  datatype PasteStep =
    | WaitReady            // wait_for_composer_ready
    | ReadyFailed(answer: Answer)
    | PasteCheck           // reads cancel_submit before the paste
    | PasteMark            // about to take the output snapshot and set paste_started
    | PasteWrite           // about to hand the paste over
    | PasteReceipt

  /** From the paste receipt to the first submit. */
  datatype SettleStep =
    | CancelAfterPaste
    | FirstWait
    | LateCheck            // wait_for_late_settlement, reading cancel_submit
    | LateWait
    | CancelBeforeSubmit

  /** `write_submit_attempt`. */
  datatype SubmitStep = SubmitWrite | SubmitReplyWait | SubmitReceipt

  /** Waiting for the acknowledgement of the first submit. */
  datatype AckStep =
    | AckWait
    | AckRecheck
    | RetryGate            // reads cancel_submit before the first retry
    | RetryEvidence

  /** In the retry loop, between two submits. */
  datatype RetryStep = RetryPoll | RetryCancel | RetryAckWait | WindowCheck

  datatype Answer = Fine | NotYet | TimedOut | Closed | Broken | ReplyPending | Touched

  datatype Reply = Reply(answer: Answer, milliseconds: nat, detail: nat)

  /** What the terminal was handed for one delivery, and what it reported back, in order. */
  datatype Mark = PasteHanded | PasteReceipted | Settled | SubmitHanded | SubmitReceipted

  /** The marks of one delivery, oldest innermost. */
  datatype Trace = Start | Then(before: Trace, last: Mark)
  {
    predicate Has(m: Mark) { Then? && (last == m || before.Has(m)) }
  }

  datatype Worker = Worker(
    session: SessionId, epoch: nat, id: nat, submission: Submission, wake: bool, settlement: Settlement,
    pc: Pc, attempt: nat, waits: nat, elapsed: nat, learned: Diagnostics, trace: Trace)
  {
    predicate Pasted() { trace.Has(PasteHanded) }
  }

  /** One worker step: the worker, the shared flags, and the report it sends, if any. */
  datatype Moved = Moved(worker: Worker, signals: Signals, sent: Option<(Outcome, Diagnostics)>)

  function Go(w: Worker, g: Signals, pc: Pc): Moved { Moved(w.(pc := pc), g, None) }

  function Marked(w: Worker, g: Signals, m: Mark, pc: Pc): Moved {
    Moved(w.(trace := Then(w.trace, m), pc := pc), g, None)
  }

  /** `SubmitAttemptFailure`: reported as an outcome of the first attempt or of a retry. */
  function SubmitFails(w: Worker, g: Signals, f: Failure, blocked: bool): Moved {
    Go(w, g, Reporting(if w.attempt > 1 then SubmitRetryFailed(f) else if blocked then BlockedBy(f) else FailedBy(f)))
  }

  function GiveUp(w: Worker, g: Signals): Moved {
    Go(w.(learned := NO_DIAGNOSTICS), g, Reporting(ProviderAckTimedOut))
  }

  /** What follows a report. */
  function AfterReport(w: Worker, o: Outcome): Pc {
    if o.Submitted? && !w.settlement.ProviderQueue? then Acking(AckWait)
    else if o.SubmitRetried? then Retrying(RetryAckWait)
    else Done
  }

  function TerminalFailure(a: Answer): Outcome {
    if a.Closed? then FailedBy(TerminalClosed) else FailedBy(TerminalUnavailable)
  }

  /** Between the read of `cancel_submit` and the paste it allowed. */
  predicate InWindow(pc: Pc) { pc == Pasting(PasteMark) || pc == Pasting(PasteWrite) }

  /** The worker may still hand a paste over. */
  predicate CanPaste(pc: Pc) { pc.Pasting? && !pc.paste.ReadyFailed? && !pc.paste.PasteReceipt? }

  /** Composer readiness and the paste. */
  function MovePaste(w: Worker, g: Signals, r: Reply): Moved
    requires w.pc.Pasting?
  {
    var a := r.answer;
    match w.pc.paste
    case WaitReady =>
      if a.Fine? then Go(w, g, Pasting(PasteCheck))
      else if g.cancel then Go(w, g, Pasting(ReadyFailed(TimedOut)))
      else if a.NotYet? then Go(w, g, Pasting(WaitReady))
      else Go(w, g, Pasting(ReadyFailed(a)))
    case ReadyFailed(why) =>
      Go(w, g, Reporting(if g.cancel then BlockedBy(ComposerUnavailable)
                      else if why.TimedOut? then BlockedBy(ComposerNotReady)
                      else TerminalFailure(why)))
    case PasteCheck =>
      if g.cancel then Go(w, g, Reporting(BlockedBy(ComposerUnavailable))) else Go(w, g, Pasting(PasteMark))
    case PasteMark =>
      if a.Fine? then Go(w, g.(pasteStarted := true), Pasting(PasteWrite))
      else Go(w, g, Reporting(FailedBy(TerminalUnavailable)))
    case PasteWrite =>
      if a.Fine? then Marked(w, g, PasteHanded, Pasting(PasteReceipt))
      else Go(w, g, Reporting(TerminalFailure(a)))
    case PasteReceipt =>
      if a.Fine? then
        Marked(w.(learned := w.learned.(pasteReceipted := true)), g, PasteReceipted, Settling(CancelAfterPaste))
      else Go(w, g, Reporting(FailedBy(PasteWriteFailed)))
  }

  /** Waiting for the paste to settle. */
  function MoveSettle(w: Worker, g: Signals, r: Reply): Moved
    requires w.pc.Settling?
  {
    var a := r.answer;
    match w.pc.settle
    case CancelAfterPaste =>
      if g.cancel then Go(w, g, Reporting(BlockedBy(ComposerUnavailable))) else Go(w, g, Settling(FirstWait))
    case FirstWait =>
      if a.Fine? then
        Marked(w.(learned := w.learned.(evidence := Some(r.detail))), g, Settled, Settling(CancelBeforeSubmit))
      else if a.TimedOut? then Go(w, g, Settling(LateCheck))
      else Go(w, g, Reporting(TerminalFailure(a)))
    case LateCheck =>
      if g.cancel || a.Touched? || a.TimedOut? then Go(w, g, Reporting(BlockedBy(OutputDidNotSettle)))
      else if a.Fine? then Go(w, g, Settling(LateWait))
      else Go(w, g, Reporting(TerminalFailure(a)))
    case LateWait =>
      if a.Fine? then
        Marked(w.(learned := w.learned.(evidence := Some(r.detail))), g, Settled, Settling(CancelBeforeSubmit))
      else if a.TimedOut? then Go(w, g, Settling(LateCheck))
      else if a.Touched? then Go(w, g, Reporting(BlockedBy(OutputDidNotSettle)))
      else Go(w, g, Reporting(TerminalFailure(a)))
    case CancelBeforeSubmit =>
      if g.cancel then Go(w, g, Reporting(BlockedBy(ComposerUnavailable)))
      else Go(w.(attempt := 1, waits := 0, learned := w.learned.(submitAttempts := Max(w.learned.submitAttempts, 1))),
              g, Submitting(SubmitWrite))
  }

  /** `write_submit_attempt`. */
  function MoveSubmit(w: Worker, g: Signals, r: Reply): Moved
    requires w.pc.Submitting?
  {
    var a := r.answer;
    match w.pc.submit
    case SubmitWrite =>
      if a.Fine? then Marked(w, g, SubmitHanded, Submitting(SubmitReceipt))
      else if a.Closed? then SubmitFails(w, g, TerminalClosed, false)
      else if a.ReplyPending? then
        if w.waits < MAX_PROTOCOL_REPLY_SETTLEMENT_WAITS then
          Go(w.(waits := w.waits + 1, learned := w.learned.(replyWaits := Min(w.learned.replyWaits + 1, U8_MAX))),
             g, Submitting(SubmitReplyWait))
        else SubmitFails(w, g, UserInputInterleaved, true)
      else SubmitFails(w, g, SubmitWriteFailed, false)
    case SubmitReplyWait =>
      if a.Fine? then Go(w, g, Submitting(SubmitWrite))
      else if a.TimedOut? then SubmitFails(w, g, UserInputInterleaved, true)
      else if a.Closed? then SubmitFails(w, g, TerminalClosed, false)
      else SubmitFails(w, g, TerminalUnavailable, false)
    case SubmitReceipt =>
      if a.Fine? then
        Marked(w.(learned := w.learned.(submitReceipted := true)), g.(submitReceipted := true), SubmitReceipted,
               Reporting(if w.attempt > 1 then SubmitRetried else Submitted))
      else SubmitFails(w, g, SubmitWriteFailed, false)
  }

  /** After a submit that was not yet acknowledged. */
  function MoveAck(w: Worker, g: Signals, r: Reply): Moved
    requires w.pc.Acking?
  {
    var a := r.answer;
    match w.pc.ack
    case AckWait =>
      if !g.ack.Open? then Go(w, g, Done)
      else if a.TimedOut? then Go(w, g, Acking(AckRecheck)) else Go(w, g, Acking(AckWait))
    case AckRecheck => if !g.ack.Open? then Go(w, g, Done) else Go(w, g, Acking(RetryGate))
    case RetryGate => if g.cancel then Go(w, g, Done) else Go(w, g, Acking(RetryEvidence))
    case RetryEvidence =>
      if w.wake || (w.settlement.IsComposer() && a.Fine?)
      then Go(w.(attempt := 2, elapsed := 0), g, Retrying(RetryPoll))
      else GiveUp(w, g)
  }

  /** The retry loop. */
  function MoveRetry(w: Worker, g: Signals, r: Reply): Moved
    requires w.pc.Retrying?
  {
    var a := r.answer;
    match w.pc.retry
    case RetryPoll => if !g.ack.Open? then Go(w, g, Done) else Go(w, g, Retrying(RetryCancel))
    case RetryCancel =>
      if g.cancel || (w.wake && !a.Fine?) then GiveUp(w, g)
      else Go(w.(waits := 0, learned := NO_DIAGNOSTICS.(submitAttempts := w.attempt)), g, Submitting(SubmitWrite))
    case RetryAckWait =>
      if !g.ack.Open? then Go(w, g, Done)
      else if a.TimedOut? then
        Go(w.(elapsed := w.elapsed + PROVIDER_ACK_AFTER_RETRY_TIMEOUT_MS), g, Retrying(WindowCheck))
      else Go(w, g, Retrying(RetryAckWait))
    case WindowCheck =>
      // The clock is read here: the waits, and whatever else took time.
      var now := w.elapsed + r.milliseconds;
      if w.wake && a.Fine? && now < PERSISTENT_WAKE_SUBMIT_WINDOW_MS then
        Go(w.(attempt := Min(w.attempt + 1, U8_MAX), elapsed := now), g, Retrying(RetryPoll))
      else GiveUp(w, g)
  }

  function MoveReport(w: Worker, g: Signals, r: Reply): Moved
    requires w.pc.Reporting?
  {
    Moved(w.(pc := AfterReport(w, w.pc.outcome)), g, Some((w.pc.outcome, w.learned.(activity := r.detail))))
  }

  function Move(w: Worker, g: Signals, r: Reply): Moved {
    match w.pc
    case NoWorker => Go(w, g, NoWorker)
    case Pasting(_) => MovePaste(w, g, r)
    case Settling(_) => MoveSettle(w, g, r)
    case Submitting(_) => MoveSubmit(w, g, r)
    case Reporting(_) => MoveReport(w, g, r)
    case Acking(_) => MoveAck(w, g, r)
    case Retrying(_) => MoveRetry(w, g, r)
    case Done => Go(w, g, Done)
  }

  // ----- what one worker may write -----

  const PASTED := Then(Start, PasteHanded)
  const RECEIPTED := Then(PASTED, PasteReceipted)
  const SETTLED := Then(RECEIPTED, Settled)

  /** A settled paste followed by `n` submits, each receipted. */
  function Submits(n: nat): (r: Trace)
    ensures r.Has(PasteHanded) && r.Has(PasteReceipted) && (n > 0 ==> r.Has(SubmitReceipted))
  {
    if n == 0 then SETTLED else Then(Then(Submits(n - 1), SubmitHanded), SubmitReceipted)
  }

  /** How often Enter may be pressed for one delivery. */
  function MaxSubmits(settlement: Settlement, wake: bool): nat {
    if settlement.ProviderQueue? then 1
    else if wake then 25
    else if settlement.IsComposer() then 2
    else 1
  }

  /** Everything that may ever be handed to the terminal for one delivery. */
  predicate Shape(trace: Trace, limit: nat) {
    || trace == Start || trace == PASTED || trace == RECEIPTED || trace == SETTLED
    || (exists n :: 0 < n <= limit && trace == Submits(n))
    || (exists n :: 0 <= n < limit && trace == Then(Submits(n), SubmitHanded))
  }

  /** Another attempt after the first: the time its waits took bounds their number. */
  ghost predicate IsRetry(w: Worker) {
    && 2 <= w.attempt <= MaxSubmits(w.settlement, w.wake) && !w.settlement.ProviderQueue?
    && PROVIDER_ACK_AFTER_RETRY_TIMEOUT_MS * (w.attempt - 2) <= w.elapsed
  }

  ghost predicate AtMost(w: Worker) {
    1 <= w.attempt <= MaxSubmits(w.settlement, w.wake) && (w.attempt > 1 ==> IsRetry(w))
  }

  /** Where a worker may stop. */
  ghost predicate Rests(w: Worker) {
    if w.attempt == 0 then w.trace == Start || w.trace == PASTED || w.trace == RECEIPTED || w.trace == SETTLED
    else
      && w.attempt <= MaxSubmits(w.settlement, w.wake)
      && (|| w.trace == Submits(w.attempt - 1)
          || w.trace == Then(Submits(w.attempt - 1), SubmitHanded)
          || w.trace == Submits(w.attempt))
  }

  /** The marks a worker has left behind, and its counters, at each point. */
  ghost predicate AtPc(w: Worker) {
    match w.pc
    case NoWorker => w.attempt == 0 && (w.trace == Start || w.trace == PASTED)
    case Pasting(p) => w.attempt == 0 && w.trace == if p.PasteReceipt? then PASTED else Start
    case Settling(p) => w.attempt == 0 && w.trace == if p.CancelBeforeSubmit? then SETTLED else RECEIPTED
    case Submitting(p) =>
      AtMost(w) && w.trace == if p.SubmitReceipt? then Then(Submits(w.attempt - 1), SubmitHanded)
                              else Submits(w.attempt - 1)
    case Reporting(o) =>
      Rests(w) && (o.Submitted? ==> w.attempt == 1 && w.trace == Submits(1))
      && (o.SubmitRetried? ==> IsRetry(w) && w.trace == Submits(w.attempt))
    case Acking(_) => w.attempt == 1 && w.trace == Submits(1) && !w.settlement.ProviderQueue?
    case Retrying(p) =>
      IsRetry(w)
      && w.trace == Submits(if p.RetryPoll? || p.RetryCancel? then w.attempt - 1 else w.attempt)
      && (p.WindowCheck? ==> PROVIDER_ACK_AFTER_RETRY_TIMEOUT_MS * (w.attempt - 1) <= w.elapsed)
    case Done => Rests(w)
  }

  /** Whether a report says only what the trace bears out. */
  predicate Truthful(o: Outcome, m: Diagnostics, trace: Trace) {
    && (m.pasteReceipted ==> trace.Has(PasteReceipted))
    && (m.submitReceipted ==> trace.Has(SubmitReceipted))
    && (o.Submitted? ==> m.pasteReceipted && m.submitReceipted)
    && ((o.BlockedBy? || o.FailedBy?) && o.failure.IsPostPaste() ==> m.pasteReceipted)
  }

  /** The first pass of a worker knows of its paste receipt. */
  predicate KnowsPaste(w: Worker) { w.pc.Settling? || (w.pc.Submitting? && w.attempt == 1) }

  /** What holds of a worker and the flags it shares, at every moment of every run. */
  ghost predicate WorkerOk(w: Worker, g: Signals) {
    && AtPc(w)
    && (w.Pasted() || w.pc == Pasting(PasteWrite) ==> g.pasteStarted)
    && (g.submitReceipted ==> w.trace.Has(SubmitReceipted))
    && (w.learned.pasteReceipted ==> w.trace.Has(PasteReceipted))
    && (w.learned.submitReceipted ==> w.trace.Has(SubmitReceipted))
    && (KnowsPaste(w) ==> w.learned.pasteReceipted)
    && (w.pc.Reporting? ==> Truthful(w.pc.outcome, w.learned, w.trace))
  }

  lemma TracesHaveShape(w: Worker)
    requires AtPc(w)
    ensures Shape(w.trace, MaxSubmits(w.settlement, w.wake))
  {
    assert Submits(0) == SETTLED;
    if w.attempt > 0 {
      assert w.trace == Submits(w.attempt) || w.trace == Submits(w.attempt - 1)
          || w.trace == Then(Submits(w.attempt - 1), SubmitHanded);
    }
  }

  ghost predicate MoveOk(w: Worker, m: Moved) {
    && WorkerOk(m.worker, m.signals)
    && (m.sent.Some? ==> Truthful(m.sent.value.0, m.sent.value.1, w.trace) && !CanPaste(m.worker.pc))
  }

  lemma MovePasteOk(w: Worker, g: Signals, r: Reply)
    requires WorkerOk(w, g) && w.pc.Pasting?
    ensures MoveOk(w, MovePaste(w, g, r))
  {
  }

  lemma MoveSettleOk(w: Worker, g: Signals, r: Reply)
    requires WorkerOk(w, g) && w.pc.Settling?
    ensures MoveOk(w, MoveSettle(w, g, r))
  {
    assert Submits(0) == SETTLED;
  }

  lemma SubmitFailsOk(w: Worker, g: Signals, f: Failure, blocked: bool)
    requires WorkerOk(w, g) && w.pc.Submitting?
    ensures MoveOk(w, SubmitFails(w, g, f, blocked))
  {
  }

  lemma MoveSubmitWriteOk(w: Worker, g: Signals, r: Reply)
    requires WorkerOk(w, g) && w.pc.Submitting? && w.pc.submit.SubmitWrite?
    ensures MoveOk(w, MoveSubmit(w, g, r))
  {
    if r.answer.Fine? {
    } else if r.answer.ReplyPending? && w.waits < MAX_PROTOCOL_REPLY_SETTLEMENT_WAITS {
    } else if r.answer.ReplyPending? {
      SubmitFailsOk(w, g, UserInputInterleaved, true);
    } else {
      SubmitFailsOk(w, g, if r.answer.Closed? then TerminalClosed else SubmitWriteFailed, false);
    }
  }

  lemma MoveSubmitReplyWaitOk(w: Worker, g: Signals, r: Reply)
    requires WorkerOk(w, g) && w.pc.Submitting? && (w.pc.submit.SubmitReplyWait?)
    ensures MoveOk(w, MoveSubmit(w, g, r))
  {
  }

  lemma MoveSubmitReceiptOk(w: Worker, g: Signals, r: Reply)
    requires WorkerOk(w, g) && w.pc.Submitting? && (w.pc.submit.SubmitReceipt?)
    ensures MoveOk(w, MoveSubmit(w, g, r))
  {
  }

  lemma MoveReportOk(w: Worker, g: Signals, r: Reply)
    requires WorkerOk(w, g) && w.pc.Reporting?
    ensures MoveOk(w, MoveReport(w, g, r))
  {
  }

  lemma MoveAckWaitOk(w: Worker, g: Signals, r: Reply)
    requires WorkerOk(w, g) && w.pc.Acking? && (w.pc.ack.AckWait? || w.pc.ack.AckRecheck?)
    ensures MoveOk(w, MoveAck(w, g, r))
  {
  }

  lemma MoveAckGateOk(w: Worker, g: Signals, r: Reply)
    requires WorkerOk(w, g) && w.pc.Acking? && (w.pc.ack.RetryGate? || w.pc.ack.RetryEvidence?)
    ensures MoveOk(w, MoveAck(w, g, r))
  {
  }

  lemma MoveRetryPollOk(w: Worker, g: Signals, r: Reply)
    requires WorkerOk(w, g) && w.pc.Retrying? && (w.pc.retry.RetryPoll? || w.pc.retry.RetryCancel?)
    ensures MoveOk(w, MoveRetry(w, g, r))
  {
  }

  lemma MoveRetryWaitOk(w: Worker, g: Signals, r: Reply)
    requires WorkerOk(w, g) && w.pc.Retrying? && (w.pc.retry.RetryAckWait? || w.pc.retry.WindowCheck?)
    ensures MoveOk(w, MoveRetry(w, g, r))
  {
  }

  /** The central step: whatever the flags and the terminal say, a worker keeps to its protocol. */
  lemma MoveKeepsWorker(w: Worker, g: Signals, r: Reply)
    requires WorkerOk(w, g)
    ensures MoveOk(w, Move(w, g, r))
  {
    match w.pc
    case NoWorker =>
    case Pasting(_) => MovePasteOk(w, g, r);
    case Settling(_) => MoveSettleOk(w, g, r);
    case Submitting(p) =>
      if p.SubmitWrite? { MoveSubmitWriteOk(w, g, r); }
      else if p.SubmitReplyWait? { MoveSubmitReplyWaitOk(w, g, r); }
      else { MoveSubmitReceiptOk(w, g, r); }
    case Reporting(_) => MoveReportOk(w, g, r);
    case Acking(p) =>
      if p.AckWait? || p.AckRecheck? { MoveAckWaitOk(w, g, r); }
      else { MoveAckGateOk(w, g, r); }
    case Retrying(p) =>
      if p.RetryPoll? || p.RetryCancel? { MoveRetryPollOk(w, g, r); }
      else { MoveRetryWaitOk(w, g, r); }
    case Done =>
  }

  /** What a step leaves alone, and what it can only add to. */
  ghost predicate Continues(w: Worker, g: Signals, m: Moved) {
    && m.worker == w.(pc := m.worker.pc, attempt := m.worker.attempt, waits := m.worker.waits,
                      elapsed := m.worker.elapsed, learned := m.worker.learned, trace := m.worker.trace)
    && m.signals == g.(pasteStarted := m.signals.pasteStarted, submitReceipted := m.signals.submitReceipted)
    && (g.pasteStarted ==> m.signals.pasteStarted) && (g.submitReceipted ==> m.signals.submitReceipted)
    && (m.worker.trace == w.trace || (m.worker.trace.Then? && m.worker.trace.before == w.trace))
    && (!CanPaste(w.pc) ==> !CanPaste(m.worker.pc))
    && (InWindow(m.worker.pc) && !InWindow(w.pc) ==> !g.cancel)
    && (m.worker.Pasted() && !w.Pasted() ==> w.pc == Pasting(PasteWrite))
  }

  /** Writes handed to the terminal. */
  function Writes(trace: Trace): nat {
    if trace.Start? then 0
    else Writes(trace.before) + if trace.last.PasteHanded? || trace.last.SubmitHanded? then 1 else 0
  }

  /** Writes a worker is past the point of reconsidering: at most one. */
  function Committed(pc: Pc): nat {
    if InWindow(pc) || pc == Submitting(SubmitWrite) || pc == Submitting(SubmitReplyWait) then 1 else 0
  }

  /** Once cancelled, a worker hands over only a write it had already committed to. */
  ghost predicate Obeys(w: Worker, g: Signals, m: Moved) {
    g.cancel ==> Writes(m.worker.trace) + Committed(m.worker.pc) <= Writes(w.trace) + Committed(w.pc)
  }

  lemma MoveReadyContinues(w: Worker, g: Signals, r: Reply)
    requires w.pc.Pasting? && (w.pc.paste.WaitReady? || w.pc.paste.ReadyFailed? || w.pc.paste.PasteCheck?)
    ensures var m := MovePaste(w, g, r); Continues(w, g, m) && Obeys(w, g, m)
  {
  }

  lemma MovePasteContinues(w: Worker, g: Signals, r: Reply)
    requires w.pc.Pasting?
    ensures var m := MovePaste(w, g, r); Continues(w, g, m) && Obeys(w, g, m)
  {
    if !InWindow(w.pc) && !w.pc.paste.PasteReceipt? { MoveReadyContinues(w, g, r); }
  }

  lemma MoveSettleContinues(w: Worker, g: Signals, r: Reply)
    requires w.pc.Settling?
    ensures var m := MoveSettle(w, g, r); Continues(w, g, m) && Obeys(w, g, m)
  {
  }

  lemma MoveSubmitContinues(w: Worker, g: Signals, r: Reply)
    requires w.pc.Submitting?
    ensures var m := MoveSubmit(w, g, r); Continues(w, g, m) && Obeys(w, g, m)
  {
  }

  lemma MoveAckContinues(w: Worker, g: Signals, r: Reply)
    requires w.pc.Acking?
    ensures var m := MoveAck(w, g, r); Continues(w, g, m) && Obeys(w, g, m)
  {
  }

  lemma MovePollContinues(w: Worker, g: Signals, r: Reply)
    requires w.pc.Retrying? && (w.pc.retry.RetryPoll? || w.pc.retry.RetryCancel?)
    ensures var m := MoveRetry(w, g, r); Continues(w, g, m) && Obeys(w, g, m)
  {
  }

  lemma MoveRetryContinues(w: Worker, g: Signals, r: Reply)
    requires w.pc.Retrying?
    ensures var m := MoveRetry(w, g, r); Continues(w, g, m) && Obeys(w, g, m)
  {
    if w.pc.retry.RetryPoll? || w.pc.retry.RetryCancel? { MovePollContinues(w, g, r); }
  }

  lemma MoveReportContinues(w: Worker, g: Signals, r: Reply)
    requires w.pc.Reporting?
    ensures var m := MoveReport(w, g, r); Continues(w, g, m) && Obeys(w, g, m)
  {
  }

  lemma MoveContinues(w: Worker, g: Signals, r: Reply)
    ensures Continues(w, g, Move(w, g, r)) && Obeys(w, g, Move(w, g, r))
  {
    match w.pc
    case NoWorker =>
    case Pasting(_) => MovePasteContinues(w, g, r);
    case Settling(_) => MoveSettleContinues(w, g, r);
    case Submitting(_) => MoveSubmitContinues(w, g, r);
    case Reporting(_) => MoveReportContinues(w, g, r);
    case Acking(_) => MoveAckContinues(w, g, r);
    case Retrying(_) => MoveRetryContinues(w, g, r);
    case Done =>
  }
}
