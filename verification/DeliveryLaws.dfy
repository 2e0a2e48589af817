/**
What a record may claim about its worker, and what any operation on a record
may do to it. Both are about one record and one worker; DeliveryProtocol lifts
them to whole runs.
 */
module DeliveryLaws {
  import opened Common
  import opened DeliveryRecord
  import opened DeliveryWorker

  /** What a record in the table says is true of its worker and its terminal writes. */
  ghost predicate RecordOk(d: Delivery, w: Worker, g: Signals) {
    && d.settlement == w.settlement && d.submission == w.submission
    && (d.epoch != w.epoch ==> d.state.Confirmed? || d.state.RequiresUserResubmit?)
    && (!d.state.WritingPaste? ==> g.cancel || !CanPaste(w.pc))
    && (d.learned.pasteReceipted ==> w.trace.Has(PasteReceipted))
    && (d.learned.submitReceipted ==> w.trace.Has(SubmitReceipted))
    && (d.state.AwaitingProviderAck? || d.state.Stalled? ==> d.learned.pasteReceipted && d.learned.submitReceipted)
    && (d.state.Blocked? || d.state.Failed? ==>
          d.failure.Some? && (d.failure.value.IsPostPaste() ==> d.learned.pasteReceipted))
    && (d.confirmation.Some? ==> d.confirmation.value.0 > d.baseline)
    && (d.state.ConfirmedUnattributed? ==> d.confirmation.Some?)
  }

  /**
  What every operation does to a record it keeps: the two final states are final,
  the first failure is never rewritten, and receipts are never forgotten.
   */
  ghost predicate Keeps(d: Delivery, e: Delivery) {
    && e.id == d.id && e.cell == d.cell && e.baseline == d.baseline && e.inputBaseline == d.inputBaseline
    && e.submission == d.submission && e.settlement == d.settlement
    && (d.state.Confirmed? ==> e.state.Confirmed?)
    && (d.state.RequiresUserResubmit? ==> e.state.RequiresUserResubmit?)
    && (e.state.WritingPaste? ==> d.state.WritingPaste?)
    && (d.state.AcceptsReplacement() ==> e.state.AcceptsReplacement())
    && (d.originalFailure.Some? ==> e.originalFailure == d.originalFailure)
    && (d.learned.pasteReceipted ==> e.learned.pasteReceipted)
    && (d.learned.submitReceipted ==> e.learned.submitReceipted)
  }

  /** A record becomes `Confirmed` only after a receipted paste or out of `ConfirmedUnattributed`. */
  ghost predicate Lawful(d: Delivery, e: Delivery) {
    && Keeps(d, e)
    && (e.state.Confirmed? && !d.state.Confirmed? ==> d.state.ConfirmedUnattributed? || e.learned.pasteReceipted)
  }

  predicate Acknowledged(s: State) { s.Confirmed? || s.ConfirmedUnattributed? }

  /**
  How an operation that brings the provider evidence `news` (a sequence number),
  or none, may move a record to an acknowledged state.
   */
  ghost predicate OnEvidence(d: Delivery, e: Delivery, news: Option<nat>) {
    && (e.confirmation.Some? && (d.confirmation.None? || e.confirmation.value.0 != d.confirmation.value.0) ==>
          news == Some(e.confirmation.value.0) && !d.state.Confirmed? && !d.state.RequiresUserResubmit?)
    && (Acknowledged(e.state) && !Acknowledged(d.state) ==> e.confirmation.Some? && e.epoch == d.epoch)
  }

  ghost predicate SlotOk(x: Slot, w: Worker) { RecordOk(x.record, w, x.signals) && WorkerOk(w, x.signals) }

  /** An operation on a record brings no flag back. */
  ghost predicate FlagsGrow(g: Signals, h: Signals) {
    && (g.cancel ==> h.cancel) && h.pasteStarted == g.pasteStarted
    && (g.submitReceipted ==> h.submitReceipted) && (h.ack.Open? ==> g.ack.Open?)
  }

  ghost predicate OpOk(x: Slot, y: Slot, w: Worker, news: Option<nat>) {
    && SlotOk(y, w) && Lawful(x.record, y.record)
    && OnEvidence(x.record, y.record, news) && FlagsGrow(x.signals, y.signals)
  }

  lemma MergeOk(x: Slot, m: Diagnostics, o: Outcome, w: Worker)
    requires SlotOk(x, w) && Truthful(o, m, w.trace)
    ensures OpOk(x, Merge(x, m), w, None)
    ensures m.pasteReceipted ==> Merge(x, m).record.learned.pasteReceipted
    ensures m.submitReceipted ==> Merge(x, m).record.learned.submitReceipted
  {
  }

  lemma ConcludeOk(x: Slot, f: Failure, resting: State, w: Worker)
    requires SlotOk(x, w) && x.record.state.WritingPaste? && !CanPaste(w.pc) && (resting.Blocked? || resting.Failed?)
    requires f.IsPostPaste() ==> x.record.learned.pasteReceipted
    ensures OpOk(x, Conclude(x, f, resting), w, None)
  {
  }

  lemma ConclusionOk(x: Slot, o: Outcome, w: Worker)
    requires SlotOk(x, w) && !CanPaste(w.pc)
    requires o.Submitted? ==> x.record.learned.pasteReceipted && x.record.learned.submitReceipted
    requires (o.BlockedBy? || o.FailedBy?) && o.failure.IsPostPaste() ==> x.record.learned.pasteReceipted
    ensures OpOk(x, Conclusion(x, o), w, None)
  {
    if (o.BlockedBy? || o.FailedBy?) && x.record.state.WritingPaste? {
      ConcludeOk(x, o.failure, if o.BlockedBy? then Blocked else Failed, w);
    }
  }

  lemma EarlyTurnOk(x: Slot, sequence: nat, a: Option<InputActivity>, w: Worker)
    requires SlotOk(x, w) && x.record.state.WritingPaste?
    ensures OpOk(x, ConfirmSubmission(x, sequence, a).0, w, Some(sequence))
  {
  }

  lemma AwaitedTurnOk(x: Slot, sequence: nat, a: Option<InputActivity>, w: Worker)
    requires SlotOk(x, w) && (x.record.state.AwaitingProviderAck? || x.record.state.Stalled?)
    ensures OpOk(x, ConfirmSubmission(x, sequence, a).0, w, Some(sequence))
  {
  }

  lemma LateTurnOk(x: Slot, sequence: nat, a: Option<InputActivity>, w: Worker)
    requires SlotOk(x, w) && !x.record.state.IsActive() && !x.record.state.Stalled?
    ensures OpOk(x, ConfirmSubmission(x, sequence, a).0, w, Some(sequence))
  {
  }

  lemma ConfirmSubmissionOk(x: Slot, sequence: nat, a: Option<InputActivity>, w: Worker)
    requires SlotOk(x, w)
    ensures OpOk(x, ConfirmSubmission(x, sequence, a).0, w, Some(sequence))
  {
    if x.record.state.WritingPaste? { EarlyTurnOk(x, sequence, a, w); }
    else if x.record.state.AwaitingProviderAck? || x.record.state.Stalled? { AwaitedTurnOk(x, sequence, a, w); }
    else { LateTurnOk(x, sequence, a, w); }
  }

  lemma ConfirmProgressOk(x: Slot, sequence: nat, w: Worker)
    requires SlotOk(x, w)
    ensures OpOk(x, ConfirmProgress(x, sequence).0, w, None)
  {
  }

  lemma ConfirmQueueProgressOk(x: Slot, sequence: nat, w: Worker)
    requires SlotOk(x, w)
    ensures var y := ConfirmQueueProgress(x, sequence).0; OpOk(x, y, w, Some(sequence))
    ensures ConfirmQueueProgress(x, sequence).0 != x ==> w.trace.Has(SubmitReceipted)
  {
  }

  lemma MoveEpochOk(x: Slot, epoch: nat, w: Worker)
    requires SlotOk(x, w)
    ensures OpOk(x, MoveEpoch(x, epoch), w, None)
  {
  }

  lemma CancelForComposerOk(x: Slot, cause: CancelCause, n: Option<string>, w: Worker)
    requires SlotOk(x, w) && x.record.state.WritingPaste?
    ensures OpOk(x, CancelForComposer(x, cause, n), w, None)
  {
  }

  /** A worker's step cannot falsify what its record says. */
  lemma MoveKeepsRecord(d: Delivery, w: Worker, g: Signals, m: Moved)
    requires RecordOk(d, w, g) && Continues(w, g, m)
    ensures RecordOk(d, m.worker, m.signals)
  {
  }

  /** A turn under `sequence`, with this input activity, is credited to a submission whose transport had failed. */
  predicate Recovers(d: Delivery, sequence: nat, a: Option<InputActivity>) {
    && sequence > d.baseline && d.failure.Some? && d.failure.value.IsPostPaste()
    && a.Some? && a.value.sequence >= d.inputBaseline.sequence && a.value.mutation == d.inputBaseline.mutation
  }

  predicate Rested(d: Delivery) { d.state.Blocked? || d.state.Failed? }

  lemma TurnRecovers(x: Slot, sequence: nat, a: Option<InputActivity>)
    requires Rested(x.record)
    ensures ConfirmSubmission(x, sequence, a).0.record.state.Confirmed? <==> Recovers(x.record, sequence, a)
  {
  }

  /** Nothing but a turn confirms a record whose transport had failed. */
  lemma OthersDoNotRecover(x: Slot, m: Diagnostics, o: Outcome, sequence: nat, epoch: nat)
    requires Rested(x.record)
    ensures !Conclusion(Merge(x, m), o).record.state.Confirmed?
    ensures !ConfirmProgress(x, sequence).0.record.state.Confirmed?
    ensures !ConfirmQueueProgress(x, sequence).0.record.state.Confirmed?
    ensures !MoveEpoch(x, epoch).record.state.Confirmed?
  {
  }
}
