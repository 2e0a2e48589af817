/**
The chart of a delivery: which state its record is in after each piece of news,
read by state, for every step of every run. The operations are written the other
way round, by the news they bring.
 */
module DeliveryChart {
  import opened Common
  import opened DeliveryRecord
  import opened DeliveryWorker
  import opened DeliveryLaws
  import opened DeliveryProtocol
  import opened DeliverySafety
  import T = DeliveryTable

  /** What a step may bring for one record. */
  datatype News =
    | Nothing
    | Turn(sequence: nat, activity: Option<InputActivity>)
    | Progress(sequence: nat)
    | QueueProgress(sequence: nat)
    | Report(outcome: Outcome, diagnostics: Diagnostics)
    | NewEpoch(epoch: nat)
    | ComposerLost(cause: CancelCause, notification: Option<string>)

  /** News reaches a record by its session and its epoch, a report also by its identity. */
  ghost function NewsAbout(s: System, l: Label, sid: SessionId): News
    requires Enabled(s, l) && sid in s.core.deliveries
  {
    var d := s.core.deliveries[sid];
    match l
    case Receives =>
      var e := s.queue[0];
      if e.session == sid && e.id == d.id && e.epoch == d.epoch then Report(e.outcome, e.diagnostics) else Nothing
    case Acknowledges(at, epoch, sequence, a) =>
      if at == sid && epoch == d.epoch then Turn(sequence, a) else Nothing
    case Progresses(at, epoch, sequence) => if at == sid && epoch == d.epoch then Progress(sequence) else Nothing
    case QueueProgresses(at, epoch, sequence) =>
      if at == sid && epoch == d.epoch then QueueProgress(sequence) else Nothing
    case ChangesEpoch(at, epoch) => if at == sid && epoch != d.epoch then NewEpoch(epoch) else Nothing
    case Blocks(at, epoch, _, _, cause, n) =>
      if at == sid && epoch == d.epoch && d.state.WritingPaste? then ComposerLost(cause, n) else Nothing
    case _ => Nothing
  }

  // ----- the chart -----

  /** The user's input is known to be what it was when the delivery began. */
  predicate InputIsKept(d: Delivery, a: Option<InputActivity>) {
    a.Some? && a.value.sequence >= d.inputBaseline.sequence && a.value.mutation == d.inputBaseline.mutation
  }

  /** A failure that leaves the pasted text in the composer. */
  predicate LeavesText(f: Failure) {
    f == OutputDidNotSettle || f == UserInputInterleaved || f == SubmitWriteFailed
  }

  /** The composer never became ready, so nothing was written that a turn could answer. */
  predicate NothingWritten(f: Option<Failure>, g: Signals) { f == Some(ComposerNotReady) && !g.pasteStarted }

  /** A turn that can be an answer to the delivery. */
  predicate Answers(d: Delivery, g: Signals, sequence: nat) {
    sequence > d.baseline && !NothingWritten(d.failure, g)
  }

  predicate QueueAnswers(d: Delivery, g: Signals, sequence: nat) {
    d.settlement.ProviderQueue? && g.submitReceipted && sequence > d.baseline
  }

  /** After a transport failure: acknowledged if a turn came before, and fully so if that turn was about the text. */
  function AfterFailure(d: Delivery, g: Signals, f: Failure, resting: State): State {
    if d.confirmation.None? || NothingWritten(Some(f), g) then resting
    else if LeavesText(f) && InputIsKept(d, d.confirmation.value.1) then Confirmed
    else ConfirmedUnattributed
  }

  function NextState(d: Delivery, g: Signals, news: News): State {
    match d.state
    case Confirmed => Confirmed
    case RequiresUserResubmit => RequiresUserResubmit
    case _ => if news.NewEpoch? then RequiresUserResubmit else NextInEpoch(d, g, news)
  }

  function NextInEpoch(d: Delivery, g: Signals, news: News): State {
    match d.state
    case WritingPaste =>
      if news.ComposerLost? then Blocked
      else if !news.Report? then WritingPaste
      else if news.outcome.Submitted? then if d.confirmation.Some? then Confirmed else AwaitingProviderAck
      else if news.outcome.BlockedBy? then AfterFailure(d, g, news.outcome.failure, Blocked)
      else if news.outcome.FailedBy? then AfterFailure(d, g, news.outcome.failure, Failed)
      else WritingPaste
    case AwaitingProviderAck =>
      if news.Turn? && news.sequence > d.baseline then Confirmed
      else if news.QueueProgress? && QueueAnswers(d, g, news.sequence) then Confirmed
      else if news.Report? && (news.outcome.SubmitRetryFailed? || news.outcome.ProviderAckTimedOut?) then Stalled
      else AwaitingProviderAck
    case Stalled => if news.Turn? && news.sequence > d.baseline then Confirmed else Stalled
    case ConfirmedUnattributed =>
      if news.Progress? && d.confirmation.Some? && news.sequence > d.confirmation.value.0 then Confirmed
      else ConfirmedUnattributed
    case _ =>
      if !news.Turn? || !Answers(d, g, news.sequence) then d.state
      else if d.failure.Some? && LeavesText(d.failure.value) && InputIsKept(d, news.activity) then Confirmed
      else ConfirmedUnattributed
  }

  /** The newest turn known, if it is one the delivery may be credited with. */
  function NextEvidence(d: Delivery, g: Signals, news: News): Option<(nat, Option<InputActivity>)> {
    match news
    case NewEpoch(_) => None
    case Turn(sequence, a) =>
      if d.state.AcceptsReplacement() || !Answers(d, g, sequence) then d.confirmation
      else if d.state.WritingPaste? then Newer(d.confirmation, sequence, a) else Some((sequence, a))
    case QueueProgress(sequence) =>
      if !QueueAnswers(d, g, sequence) then d.confirmation
      else if d.state.WritingPaste? then Newer(d.confirmation, sequence, None)
      else if d.state.AwaitingProviderAck? then Some((sequence, None)) else d.confirmation
    case Report(o, _) =>
      if d.state.WritingPaste? && (o.BlockedBy? || o.FailedBy?) && NothingWritten(Some(o.failure), g) then None
      else d.confirmation
    case _ => d.confirmation
  }

  function Newer(known: Option<(nat, Option<InputActivity>)>, sequence: nat, a: Option<InputActivity>)
    : Option<(nat, Option<InputActivity>)>
  {
    if known.Some? && known.value.0 > sequence then known else Some((sequence, a))
  }

  /** Whether the user's input changed between the start of the delivery and the turn it is credited with. */
  function NextMutated(d: Delivery, g: Signals, news: News): Option<bool> {
    var credited := if news.Turn? then news.activity else if d.confirmation.Some? then d.confirmation.value.1 else None;
    if !Credits(d, g, news) then d.userInputMutated
    else if credited.None? then None else Some(credited.value.mutation != d.inputBaseline.mutation)
  }

  /** The news makes the record acknowledged by a turn, now or before. */
  predicate Credits(d: Delivery, g: Signals, news: News) {
    && (news.Turn? || news.Report?) && !d.state.AcceptsReplacement()
    && NextState(d, g, news).AcceptsReplacement()
  }

  /** The failure that news brings, if it is due. */
  function Cause(d: Delivery, news: News): Option<Failure> {
    match news
    case NewEpoch(_) => if d.state.Confirmed? then None else Some(RuntimeEpochChanged)
    case ComposerLost(_, _) => Some(ComposerUnavailable)
    case Report(o, _) =>
      if d.state.WritingPaste? && (o.BlockedBy? || o.FailedBy?) then Some(o.failure)
      else if d.state.AwaitingProviderAck? && o.SubmitRetryFailed? then Some(o.failure)
      else if d.state.AwaitingProviderAck? && o.ProviderAckTimedOut? then Some(ProviderAckMissing)
      else None
    case _ => None
  }

  /** The current failure: the last that moved the record, none once it moved on. */
  function NextFailure(d: Delivery, g: Signals, news: News): Option<Failure> {
    var next := NextState(d, g, news);
    if next == d.state && Cause(d, news).None? then d.failure
    else if Acknowledged(next) || next.AwaitingProviderAck? then None
    else Cause(d, news)
  }

  /** Core tells the worker to write no more. */
  predicate Cancels(d: Delivery, news: News) {
    news.NewEpoch? || news.ComposerLost?
    || (news.Progress? && d.state.AwaitingProviderAck? && news.sequence > d.baseline)
  }

  /** Core tells the worker that its submission was acknowledged. */
  predicate SendsAck(d: Delivery, g: Signals, news: News) {
    || (news.Turn? && !d.state.AcceptsReplacement() && Answers(d, g, news.sequence))
    || (news.QueueProgress? && d.state.AwaitingProviderAck? && QueueAnswers(d, g, news.sequence))
    || (news.Progress? && d.state.ConfirmedUnattributed? && NextState(d, g, news).Confirmed?)
  }

  /** Core stops listening for an acknowledgement. */
  predicate HangsUp(d: Delivery, news: News) { news.NewEpoch? || Cause(d, news).Some? }

  function NextAck(d: Delivery, g: Signals, news: News): Ack {
    if !g.ack.Open? then g.ack
    else if SendsAck(d, g, news) then Sent else if HangsUp(d, news) then Dropped else Open
  }

  // ----- the operations follow the chart -----

  /** What the operation for the news makes of a record and its flags. */
  function Told(x: Slot, news: News): Slot {
    match news
    case Nothing => x
    case Turn(sequence, a) => ConfirmSubmission(x, sequence, a).0
    case Progress(sequence) => ConfirmProgress(x, sequence).0
    case QueueProgress(sequence) => ConfirmQueueProgress(x, sequence).0
    case Report(o, m) => Conclusion(Merge(x, m), o)
    case NewEpoch(epoch) => MoveEpoch(x, epoch)
    case ComposerLost(cause, n) => CancelForComposer(x, cause, n)
  }

  /** What is known of a record in every run. */
  ghost predicate Sane(x: Slot) {
    && (x.record.confirmation.Some? ==> x.record.confirmation.value.0 > x.record.baseline)
    && (x.record.state.AwaitingProviderAck? || x.record.state.Stalled? ==> x.signals.pasteStarted)
  }

  /** News that can come: a composer is lost only during the paste. */
  predicate CanCome(d: Delivery, news: News) { news.ComposerLost? ==> d.state.WritingPaste? }

  lemma TurnFollows(x: Slot, news: News)
    requires Sane(x) && (news.Turn? || news.Progress? || news.QueueProgress?)
    ensures Told(x, news).record.state == NextState(x.record, x.signals, news)
  {
  }

  lemma ReportFollows(x: Slot, news: News)
    requires Sane(x) && news.Report?
    ensures Told(x, news).record.state == NextState(x.record, x.signals, news)
  {
  }

  lemma StateFollows(x: Slot, news: News)
    requires Sane(x) && CanCome(x.record, news)
    ensures Told(x, news).record.state == NextState(x.record, x.signals, news)
  {
    if news.Report? { ReportFollows(x, news); }
    else if news.Turn? || news.Progress? || news.QueueProgress? { TurnFollows(x, news); }
  }

  lemma EvidenceFollows(x: Slot, news: News)
    requires Sane(x) && CanCome(x.record, news)
    ensures Told(x, news).record.confirmation == NextEvidence(x.record, x.signals, news)
  {
  }

  lemma MutatedFollows(x: Slot, news: News)
    requires Sane(x) && CanCome(x.record, news)
    ensures Told(x, news).record.userInputMutated == NextMutated(x.record, x.signals, news)
  {
  }

  lemma FailureFollows(x: Slot, news: News)
    requires Sane(x) && CanCome(x.record, news)
    ensures Told(x, news).record.failure == NextFailure(x.record, x.signals, news)
    ensures Told(x, news).record.originalFailure
            == if x.record.originalFailure.Some? then x.record.originalFailure else Cause(x.record, news)
  {
  }

  lemma CancelFollows(x: Slot, news: News)
    requires Sane(x) && CanCome(x.record, news)
    ensures Told(x, news).signals.cancel <==> x.signals.cancel || Cancels(x.record, news)
  {
  }

  lemma ReportedAckFollows(x: Slot, news: News)
    requires Sane(x) && news.Report?
    ensures Told(x, news).signals.ack == NextAck(x.record, x.signals, news)
  {
  }

  lemma AckFollows(x: Slot, news: News)
    requires Sane(x) && CanCome(x.record, news)
    ensures Told(x, news).signals.ack == NextAck(x.record, x.signals, news)
  {
    if news.Report? { ReportedAckFollows(x, news); }
  }

  /** What is known after a report: nothing is forgotten, counts never go down, and the latest evidence counts. */
  predicate Learns(k: Diagnostics, m: Diagnostics, r: Diagnostics) {
    && (r.pasteReceipted <==> k.pasteReceipted || m.pasteReceipted)
    && (r.submitReceipted <==> k.submitReceipted || m.submitReceipted)
    && r.evidence == (if m.evidence.Some? then m.evidence else k.evidence)
    && r.submitAttempts in {k.submitAttempts, m.submitAttempts} && r.replyWaits in {k.replyWaits, m.replyWaits}
    && r.submitAttempts >= k.submitAttempts && r.submitAttempts >= m.submitAttempts
    && r.replyWaits >= k.replyWaits && r.replyWaits >= m.replyWaits
    && r.activity == (if m.activity != 0 then m.activity else k.activity)
  }

  /** The rest of the record: what its worker learned, its epoch, and why it was cancelled. */
  ghost predicate Annotated(d: Delivery, g: Signals, news: News, e: Delivery, h: Signals) {
    && (if news.Report? then Learns(d.learned, news.diagnostics, e.learned) else e.learned == d.learned)
    && e.epoch == (if news.NewEpoch? then news.epoch else d.epoch)
    && e.cancelCause == (if news.ComposerLost? then Some(news.cause) else d.cancelCause)
    && (if news.ComposerLost? then Shortens(news.notification, e.cancelNotification)
        else e.cancelNotification == d.cancelNotification)
    && (h.submitReceipted <==> g.submitReceipted || (news.Report? && news.diagnostics.submitReceipted))
    && h.pasteStarted == g.pasteStarted
  }

  /** The first 64 characters of a text. */
  predicate Shortens(n: Option<string>, r: Option<string>) {
    && (n.None? <==> r.None?)
    && (n.Some? ==> r.value <= n.value && |r.value| <= 64 && (|n.value| <= 64 ==> r == n)
                    && (|n.value| > 64 ==> |r.value| == 64))
  }

  lemma ReportAnnotates(x: Slot, news: News)
    requires news.Report?
    ensures Annotated(x.record, x.signals, news, Told(x, news).record, Told(x, news).signals)
  {
  }

  lemma AnnotationsFollow(x: Slot, news: News)
    ensures Annotated(x.record, x.signals, news, Told(x, news).record, Told(x, news).signals)
  {
    if news.Report? { ReportAnnotates(x, news); }
  }

  /** Each operation says that it changed something exactly if the record's state did. */
  lemma ChangesAreReported(x: Slot, sequence: nat, a: Option<InputActivity>)
    requires Sane(x)
    ensures ConfirmSubmission(x, sequence, a).1
            <==> NextState(x.record, x.signals, Turn(sequence, a)) != x.record.state
    ensures ConfirmProgress(x, sequence).1 <==> NextState(x.record, x.signals, Progress(sequence)) != x.record.state
    ensures ConfirmQueueProgress(x, sequence).1
            <==> NextState(x.record, x.signals, QueueProgress(sequence)) != x.record.state
  {
  }

  /** A report counts as a change if it moves the record, teaches it something, or tells of an awaited retry. */
  lemma ReportsAreChanges(c: T.Core, e: Event)
    requires T.Valid(c) && (T.Addressed(c, e) ==> Sane(T.SlotOf(c, e.session)))
    ensures T.Apply(c, e).1
            <==> T.Addressed(c, e) &&
                 var x, news := T.SlotOf(c, e.session), Report(e.outcome, e.diagnostics);
                 || NextState(x.record, x.signals, news) != x.record.state
                 || Told(x, news).record.learned != x.record.learned
                 || (x.record.state.AwaitingProviderAck? && e.outcome.SubmitRetried?)
  {
    if T.Addressed(c, e) { ReportFollows(T.SlotOf(c, e.session), Report(e.outcome, e.diagnostics)); }
  }

  /** The record and its flags after the news are those of the chart. */
  ghost predicate Charted(d: Delivery, g: Signals, news: News, e: Delivery, h: Signals) {
    && e.state == NextState(d, g, news) && e.confirmation == NextEvidence(d, g, news)
    && e.userInputMutated == NextMutated(d, g, news)
    && e.failure == NextFailure(d, g, news)
    && e.originalFailure == (if d.originalFailure.Some? then d.originalFailure else Cause(d, news))
    && (h.cancel <==> g.cancel || Cancels(d, news)) && h.ack == NextAck(d, g, news)
    && Annotated(d, g, news, e, h)
  }

  lemma ToldIsCharted(x: Slot, news: News)
    requires Sane(x) && CanCome(x.record, news)
    ensures Charted(x.record, x.signals, news, Told(x, news).record, Told(x, news).signals)
  {
    StateFollows(x, news);
    EvidenceFollows(x, news);
    MutatedFollows(x, news);
    FailureFollows(x, news);
    CancelFollows(x, news);
    AckFollows(x, news);
    AnnotationsFollow(x, news);
  }

  // ----- every step follows the chart -----

  /** A receipted paste was handed over. */
  lemma ReceiptedIsPasted(w: Worker)
    requires AtPc(w) && w.trace.Has(PasteReceipted)
    ensures w.Pasted()
  {
    TracesHaveShape(w);
  }

  lemma LinkedIsSane(s: System, sid: SessionId)
    requires Inv(s) && RecordLinked(s, sid)
    ensures Sane(T.SlotOf(s.core, sid))
  {
    var x := T.SlotOf(s.core, sid);
    var w := s.workers[x.record.cell];
    assert WorkerOk(w, x.signals);
    if x.record.state.AwaitingProviderAck? || x.record.state.Stalled? { ReceiptedIsPasted(w); }
  }

  /** A step of Core's touches the record exactly if it brings news about it. */
  /** The record the step changes, if any, is the one that the news is about, and becomes what the news makes it. */
  ghost predicate TouchedByNews(s: System, l: Label, sid: SessionId)
    requires T.Valid(s.core) && Enabled(s, l) && RecordLinked(s, sid)
  {
    var news := NewsAbout(s, l, sid);
    && CanCome(s.core.deliveries[sid], news)
    && (if news.Nothing? then Touches(s, l).None? || Touches(s, l).value.0 != sid
        else Touches(s, l) == Some((sid, Told(T.SlotOf(s.core, sid), news))))
  }

  lemma ReceivedTouches(s: System, l: Label, sid: SessionId)
    requires Inv(s) && Enabled(s, l) && l.Receives? && RecordLinked(s, sid)
    ensures TouchedByNews(s, l, sid)
  {
  }

  lemma AcknowledgedTouches(s: System, l: Label, sid: SessionId)
    requires Inv(s) && l.Acknowledges? && RecordLinked(s, sid)
    ensures TouchedByNews(s, l, sid)
  {
  }

  lemma ProgressedTouches(s: System, l: Label, sid: SessionId)
    requires Inv(s) && (l.Progresses? || l.QueueProgresses?) && RecordLinked(s, sid)
    ensures TouchedByNews(s, l, sid)
  {
  }

  lemma BlockedTouches(s: System, l: Label, sid: SessionId)
    requires Inv(s) && l.Blocks? && RecordLinked(s, sid)
    ensures TouchedByNews(s, l, sid)
  {
  }

  lemma ChangedTouches(s: System, l: Label, sid: SessionId)
    requires Inv(s) && (l.Begins? || l.ChangesEpoch? || l.Removes?) && RecordLinked(s, sid)
    ensures TouchedByNews(s, l, sid)
  {
  }

  lemma NewsTouches(s: System, l: Label, sid: SessionId)
    requires Inv(s) && Enabled(s, l) && !l.WorkerMoves? && RecordLinked(s, sid)
    ensures TouchedByNews(s, l, sid)
  {
    if l.Receives? { ReceivedTouches(s, l, sid); }
    else if l.Acknowledges? { AcknowledgedTouches(s, l, sid); }
    else if l.Progresses? || l.QueueProgresses? { ProgressedTouches(s, l, sid); }
    else if l.Blocks? { BlockedTouches(s, l, sid); }
    else { ChangedTouches(s, l, sid); }
  }

  lemma NewsIsPut(s: System, l: Label, sid: SessionId, c: T.Core)
    requires Inv(s) && Enabled(s, l) && !l.WorkerMoves? && RecordLinked(s, sid) && c == CoreAfter(s, l)
    requires !NewsAbout(s, l, sid).Nothing?
    ensures sid in c.deliveries && c.deliveries[sid].cell == s.core.deliveries[sid].cell < |c.signals|
    ensures T.SlotOf(c, sid) == Told(T.SlotOf(s.core, sid), NewsAbout(s, l, sid))
  {
    NewsTouches(s, l, sid);
    TouchOk(s, l);
  }

  /** Without news about it a record that stays keeps what it was. */
  lemma NoNewsIsKept(s: System, l: Label, sid: SessionId, c: T.Core)
    requires Inv(s) && Enabled(s, l) && !l.WorkerMoves? && RecordLinked(s, sid) && c == CoreAfter(s, l)
    requires NewsAbout(s, l, sid).Nothing?
    requires sid in c.deliveries && c.deliveries[sid].cell == s.core.deliveries[sid].cell
    ensures c.deliveries[sid] == s.core.deliveries[sid]
  {
    NewsTouches(s, l, sid);
    if Touches(s, l).Some? { TouchOk(s, l); } else { UntouchedStays(s, l, sid); }
  }

  /** The record of `sid` is the same delivery's before and after the n-th step. */
  ghost predicate Stays(states: seq<System>, n: nat, sid: SessionId)
    requires n + 1 < |states|
  {
    && sid in states[n].core.deliveries && sid in states[n + 1].core.deliveries
    && states[n + 1].core.deliveries[sid].cell == states[n].core.deliveries[sid].cell
  }

  ghost predicate StepCharted(s: System, l: Label, t: System, sid: SessionId)
    requires Enabled(s, l) && sid in s.core.deliveries && sid in t.core.deliveries
  {
    var d, news := s.core.deliveries[sid], NewsAbout(s, l, sid);
    var e := t.core.deliveries[sid];
    && d.cell < |s.core.signals| && d.cell < |t.core.signals|
    && if news.Nothing? then e == d
       else Charted(d, s.core.signals[d.cell], news, e, t.core.signals[d.cell])
  }

  lemma QuietStepIsCharted(s: System, l: Label, t: System, sid: SessionId)
    requires Inv(s) && Next(s, l, t) && RecordLinked(s, sid) && sid in t.core.deliveries && !l.WorkerMoves?
    requires t.core.deliveries[sid].cell == s.core.deliveries[sid].cell && NewsAbout(s, l, sid).Nothing?
    ensures StepCharted(s, l, t, sid)
  {
    NoNewsIsKept(s, l, sid, t.core);
    StepFrame(s, l, s.core.deliveries[sid].cell);
  }

  lemma NewsStepIsCharted(s: System, l: Label, t: System, sid: SessionId, x: Slot, news: News)
    requires Inv(s) && Next(s, l, t) && RecordLinked(s, sid) && !l.WorkerMoves?
    requires x == T.SlotOf(s.core, sid) && news == NewsAbout(s, l, sid) && !news.Nothing?
    ensures sid in t.core.deliveries && StepCharted(s, l, t, sid)
  {
    NewsIsPut(s, l, sid, t.core);
    NewsTouches(s, l, sid);
    LinkedIsSane(s, sid);
    ToldIsCharted(x, news);
  }

  lemma WorkStepIsCharted(s: System, l: Label, t: System, sid: SessionId)
    requires Inv(s) && Next(s, l, t) && RecordLinked(s, sid) && l.WorkerMoves?
    ensures sid in t.core.deliveries && StepCharted(s, l, t, sid)
  {
  }

  lemma StepIsCharted(s: System, l: Label, t: System, sid: SessionId)
    requires Inv(s) && Next(s, l, t) && sid in s.core.deliveries && sid in t.core.deliveries
    requires t.core.deliveries[sid].cell == s.core.deliveries[sid].cell
    ensures StepCharted(s, l, t, sid)
  {
    assert RecordLinked(s, sid);
    if l.WorkerMoves? { WorkStepIsCharted(s, l, t, sid); }
    else if NewsAbout(s, l, sid).Nothing? { QuietStepIsCharted(s, l, t, sid); }
    else { NewsStepIsCharted(s, l, t, sid, T.SlotOf(s.core, sid), NewsAbout(s, l, sid)); }
  }

  /** In every run, every record that stays on the table moves as the chart says, and only on news about it. */
  lemma RecordsFollowChart(states: seq<System>, labels: seq<Label>, n: nat, sid: SessionId)
    requires IsRun(states, labels) && n < |labels| && Unsaturated(states[n]) && Stays(states, n, sid)
    ensures Enabled(states[n], labels[n]) && StepCharted(states[n], labels[n], states[n + 1], sid)
  {
    RunKeepsInv(states, labels, n);
    assert NextAt(states, labels, n);
    StepIsCharted(states[n], labels[n], states[n + 1], sid);
  }

  /** The step brings the awaited acknowledgement: a newer turn, or newer progress of a provider queue. */
  predicate BringsAnswer(d: Delivery, g: Signals, news: News) {
    || (news.Turn? && news.sequence > d.baseline)
    || (news.QueueProgress? && d.state.AwaitingProviderAck? && d.settlement.ProviderQueue? && g.submitReceipted
        && news.sequence > d.baseline)
  }

  /** The record became confirmed exactly by the answer, and says which it was. */
  ghost predicate Answered(d: Delivery, g: Signals, news: News, e: Delivery) {
    && (e.state.Confirmed? <==> BringsAnswer(d, g, news))
    && (e.state.Confirmed? ==> e.confirmation.Some? && e.confirmation.value.0 == news.sequence && e.failure.None?)
    && (e.state.Confirmed? && news.Turn? ==>
          e.userInputMutated == if news.activity.None? then None
                                else Some(news.activity.value.mutation != d.inputBaseline.mutation))
  }

  lemma ChartAnswers(d: Delivery, g: Signals, news: News, e: Delivery, h: Signals)
    requires (d.state.AwaitingProviderAck? || d.state.Stalled?) && g.pasteStarted && Charted(d, g, news, e, h)
    ensures Answered(d, g, news, e)
  {
  }

  /**
  In every run a record that awaits its acknowledgement, or stalled, is confirmed
  exactly by a step that brings it; the confirmation then carries that sequence,
  and a turn also says whether the user's input changed.
   */
  lemma AwaitedIsConfirmed(states: seq<System>, labels: seq<Label>, n: nat, sid: SessionId)
    requires IsRun(states, labels) && n < |labels| && Unsaturated(states[n]) && Stays(states, n, sid)
    requires states[n].core.deliveries[sid].state.AwaitingProviderAck? || states[n].core.deliveries[sid].state.Stalled?
    ensures Enabled(states[n], labels[n]) && states[n].core.deliveries[sid].cell < |states[n].core.signals|
    ensures var d, e := states[n].core.deliveries[sid], states[n + 1].core.deliveries[sid];
            Answered(d, states[n].core.signals[d.cell], NewsAbout(states[n], labels[n], sid), e)
  {
    RecordsFollowChart(states, labels, n, sid);
    RunKeepsInv(states, labels, n);
    LinkedIsSane(states[n], sid);
    var d, e := states[n].core.deliveries[sid], states[n + 1].core.deliveries[sid];
    var news := NewsAbout(states[n], labels[n], sid);
    if !news.Nothing? {
      ChartAnswers(d, states[n].core.signals[d.cell], news, e, states[n + 1].core.signals[d.cell]);
    }
  }
}
