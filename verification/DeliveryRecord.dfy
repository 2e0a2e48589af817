/**
One delivery of generated terminal input, as Core sees it, and how provider
evidence, cancellations and transport events change it.

The flags a delivery shares with its worker thread (`Arc<AtomicBool>` and the
acknowledgement channel in the source) are kept apart from the record, as
`Signals`: they outlive the record when it is removed from the table.
 */
module DeliveryRecord {
  import opened Common

  datatype State =
    | WritingPaste | AwaitingProviderAck | Confirmed | ConfirmedUnattributed
    | Stalled | Blocked | Failed | RequiresUserResubmit
  {
    predicate IsActive() { WritingPaste? || AwaitingProviderAck? }

    predicate AcceptsReplacement() { Confirmed? || ConfirmedUnattributed? || RequiresUserResubmit? }
  }

  datatype Failure =
    | TerminalUnavailable | PasteWriteFailed | OutputDidNotSettle | UserInputInterleaved
    | ProviderAckMissing | ComposerUnavailable | ComposerNotReady | RuntimeEpochChanged
    | TerminalClosed | SubmitWriteFailed | WorkerUnavailable
  {
    /** The failures after which an unchanged composer still holds the pasted text. */
    predicate IsPostPaste() { OutputDidNotSettle? || UserInputInterleaved? || SubmitWriteFailed? }
  }

  datatype CancelCause =
    | PermissionRequested | Notification | ProviderAwaitingInput | ProviderBusy | ProviderTurnFailed

  datatype Settlement = OutputActivity | ComposerRender | CodexComposerRender | ProviderQueue
  {
    predicate IsComposer() { ComposerRender? || CodexComposerRender? }
  }

  /** `GeneratedTerminalSubmission`: the text to paste and the template it came from. */
  datatype Submission = Submission(text: string, template: string)

  const PERSISTENT_WAKE_TEMPLATE := "builtin.assistant.wake"

  predicate IsPersistentWake(m: Submission) { m.template == PERSISTENT_WAKE_TEMPLATE }

  /** `UserInputActivitySnapshot`. */
  datatype InputActivity = InputActivity(sequence: nat, mutation: nat)

  /** The acknowledgement channel: sender still held, message sent, or sender dropped unsent. */
  datatype Ack = Open | Sent | Dropped

  datatype Signals = Signals(cancel: bool, pasteStarted: bool, submitReceipted: bool, ack: Ack)
  {
    /** Dropping the sender (`provider_ack_signal.take()`, or dropping the record). */
    function HangUp(): Signals { if ack.Open? then this.(ack := Dropped) else this }

    /** `signal_provider_ack`. */
    function SendAck(): Signals { if ack.Open? then this.(ack := Sent) else this }
  }

  datatype SessionId = SessionId(text: string)

  /** What a worker learned; `activity` 0 stands for `OutputActivityDiagnostics::default()`. */
  datatype Diagnostics = Diagnostics(
    pasteReceipted: bool, evidence: Option<nat>, submitReceipted: bool,
    submitAttempts: nat, replyWaits: nat, activity: nat)

  const NO_DIAGNOSTICS := Diagnostics(false, None, false, 0, 0, 0)

  datatype Outcome =
    | Submitted | SubmitRetried | SubmitRetryFailed(failure: Failure)
    | ProviderAckTimedOut | BlockedBy(failure: Failure) | FailedBy(failure: Failure)

  datatype Event = Event(session: SessionId, epoch: nat, id: nat, outcome: Outcome, diagnostics: Diagnostics)

  /** `cell` says which `Signals` the record shares with its worker. */
  datatype Delivery = Delivery(
    id: nat, cell: nat, epoch: nat, baseline: nat, settlement: Settlement, submission: Submission,
    state: State, failure: Option<Failure>, originalFailure: Option<Failure>,
    cancelCause: Option<CancelCause>, cancelNotification: Option<string>,
    learned: Diagnostics, userInputMutated: Option<bool>, inputBaseline: InputActivity,
    confirmation: Option<(nat, Option<InputActivity>)>)
  {
    /** `record_delivery_failure`: the first failure is kept, the latest is current. */
    function Record(f: Failure): Delivery {
      this.(failure := Some(f),
            originalFailure := if originalFailure.None? then Some(f) else originalFailure)
    }

    /** `record_confirmation_activity`. */
    function RecordActivity(a: Option<InputActivity>): Delivery {
      this.(userInputMutated := if a.None? then None else Some(a.value.mutation != inputBaseline.mutation))
    }

    /** `submission_content_unchanged`. */
    predicate ContentUnchanged(a: Option<InputActivity>) {
      a.Some? && a.value.sequence >= inputBaseline.sequence && a.value.mutation == inputBaseline.mutation
    }

    /** `manual_recovery_is_attributed`. */
    predicate Attributed(f: Failure, a: Option<InputActivity>) {
      f.IsPostPaste() && ContentUnchanged(a)
    }
  }

  /** A record together with the flags it shares with its worker. */
  datatype Slot = Slot(record: Delivery, signals: Signals)
  {
    /** `unwritten_readiness_failure`. */
    predicate UnwrittenReadiness(f: Failure) { f.ComposerNotReady? && !signals.pasteStarted }

    /** The block under which the same pending submission may start again. */
    predicate UnwrittenBlock() {
      record.state.Blocked? && !signals.pasteStarted
      && (record.failure == Some(ComposerUnavailable) || record.failure == Some(ComposerNotReady))
    }

    /** `can_begin_pending_submission` for an existing record. */
    predicate MayBegin(epoch: nat) {
      record.epoch == epoch && (record.state.AcceptsReplacement() || UnwrittenBlock())
    }
  }

  function BoundedNotification(n: Option<string>): Option<string> {
    if n.Some? && |n.value| > 64 then Some(n.value[..64]) else n
  }

  /** `merge_transport_diagnostics`, without its result. */
  function Merge(x: Slot, m: Diagnostics): Slot {
    var k := x.record.learned;
    Slot(
      x.record.(learned := Diagnostics(
        k.pasteReceipted || m.pasteReceipted,
        if m.evidence.Some? then m.evidence else k.evidence,
        k.submitReceipted || m.submitReceipted,
        Max(k.submitAttempts, m.submitAttempts),
        Max(k.replyWaits, m.replyWaits),
        if m.activity != 0 then m.activity else k.activity)),
      if m.submitReceipted then x.signals.(submitReceipted := true) else x.signals)
  }

  /** How a first transport pass that did not submit ends: `resting` is `Blocked` or `Failed`. */
  function Conclude(x: Slot, f: Failure, resting: State): Slot {
    var d := x.record.Record(f);
    var y := Slot(d, x.signals.HangUp());
    if y.UnwrittenReadiness(f) then
      y.(record := d.(confirmation := None, state := resting))
    else if d.confirmation.Some? then
      var a := d.confirmation.value.1;
      y.(record := d.RecordActivity(a).(
           state := if d.Attributed(f, a) then Confirmed else ConfirmedUnattributed,
           failure := None))
    else
      y.(record := d.(state := resting))
  }

  /** `apply_transport_event` on the record the event names, after its diagnostics were merged. */
  function Conclusion(y: Slot, o: Outcome): Slot {
    var d := y.record;
    match o
    case Submitted =>
      if !d.state.WritingPaste? then y
      else if d.confirmation.Some? && d.confirmation.value.0 > d.baseline then
        y.(record := d.RecordActivity(d.confirmation.value.1).(state := Confirmed, failure := None))
      else
        y.(record := d.(state := AwaitingProviderAck, failure := None))
    case SubmitRetried => y
    case SubmitRetryFailed(f) =>
      if !d.state.AwaitingProviderAck? then y
      else Slot(d.(state := Stalled).Record(f), y.signals.HangUp())
    case ProviderAckTimedOut =>
      if !d.state.AwaitingProviderAck? then y
      else Slot(d.(state := Stalled).Record(ProviderAckMissing), y.signals.HangUp())
    case BlockedBy(f) => if !d.state.WritingPaste? then y else Conclude(y, f, Blocked)
    case FailedBy(f) => if !d.state.WritingPaste? then y else Conclude(y, f, Failed)
  }

  /** Whether the outcome was due in this state; only then does the event count as a change by itself. */
  predicate OutcomeIsDue(state: State, o: Outcome) {
    if o.Submitted? || o.BlockedBy? || o.FailedBy? then state.WritingPaste? else state.AwaitingProviderAck?
  }

  /** `confirm_provider_submission` on a record of the same epoch. */
  function ConfirmSubmission(x: Slot, sequence: nat, a: Option<InputActivity>): (Slot, bool) {
    var d := x.record;
    if sequence <= d.baseline || (d.failure.Some? && x.UnwrittenReadiness(d.failure.value)) then (x, false)
    else if d.state.WritingPaste? then
      var newest := if d.confirmation.Some? && d.confirmation.value.0 > sequence
                    then d.confirmation else Some((sequence, a));
      (Slot(d.(confirmation := newest), x.signals.SendAck()), false)
    else if d.state.AwaitingProviderAck? || d.state.Stalled? then
      (Slot(d.(confirmation := Some((sequence, a)), state := Confirmed, failure := None).RecordActivity(a),
            x.signals.SendAck()), true)
    else if d.state.Blocked? || d.state.Failed? then
      var next := if d.failure.Some? && d.Attributed(d.failure.value, a) then Confirmed else ConfirmedUnattributed;
      (Slot(d.(confirmation := Some((sequence, a)), state := next, failure := None).RecordActivity(a),
            x.signals.SendAck()), true)
    else (x, false)
  }

  /** `confirm_provider_progress` on a record of the same epoch. */
  function ConfirmProgress(x: Slot, sequence: nat): (Slot, bool) {
    var d := x.record;
    if d.state.AwaitingProviderAck? && sequence > d.baseline then
      (x.(signals := x.signals.(cancel := true)), false)
    else if d.state.ConfirmedUnattributed? && d.confirmation.Some? && sequence > d.confirmation.value.0 then
      (Slot(d.(state := Confirmed, failure := None), x.signals.SendAck()), true)
    else (x, false)
  }

  /** `confirm_provider_queue_progress` on a record of the same epoch. */
  function ConfirmQueueProgress(x: Slot, sequence: nat): (Slot, bool) {
    var d := x.record;
    if !d.settlement.ProviderQueue? || !x.signals.submitReceipted || sequence <= d.baseline then (x, false)
    else if d.state.WritingPaste? then
      var newest := if d.confirmation.Some? && d.confirmation.value.0 > sequence
                    then d.confirmation else Some((sequence, None));
      (x.(record := d.(confirmation := newest)), false)
    else if d.state.AwaitingProviderAck? then
      (Slot(d.(confirmation := Some((sequence, None)), state := Confirmed, failure := None),
            x.signals.SendAck()), true)
    else (x, false)
  }

  /** `transition_runtime_epoch` on a record of another epoch. */
  function MoveEpoch(x: Slot, epoch: nat): Slot {
    var d := x.record.(epoch := epoch, confirmation := None);
    Slot(if d.state.Confirmed? then d else d.(state := RequiresUserResubmit).Record(RuntimeEpochChanged),
         x.signals.(cancel := true).HangUp())
  }

  /** `block_for_unavailable_composer` on a record still writing its paste. */
  function CancelForComposer(x: Slot, cause: CancelCause, n: Option<string>): Slot {
    Slot(x.record.(state := Blocked).Record(ComposerUnavailable).(
           cancelCause := Some(cause), cancelNotification := BoundedNotification(n)),
         x.signals.(cancel := true).HangUp())
  }

  /** `fail_immediately`. */
  function FailImmediately(x: Slot, f: Failure): Slot {
    Slot(x.record.(state := Failed).Record(f), x.signals.HangUp())
  }
}
