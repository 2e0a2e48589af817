# TermLoop, modelled and proved in Dafny

TermLoop runs coding agents in terminals. This project models the parts of it
whose correctness is hardest to see and proves what they promise.

- **Generated input.** Core keeps a table of deliveries, one per session. Each
  delivery has a worker thread that waits for the provider's composer, pastes a
  submission, waits for the paste to settle, submits it, and retries until the
  provider acknowledges it. Core and the workers share flags and an event
  channel. `DeliveryTable` and `DeliveryRuntime` are the table,
  `DeliveryWorker` is the worker as a machine whose every flag access, terminal
  call and report is a step of its own, and `DeliveryProtocol` is any
  interleaving of all of them. `DeliverySafety` and `DeliveryReplay` hold what
  is true of every run. `DeliveryStart` says exactly when a record is put on the
  table and what it then is, `DeliveryChart` exactly how it changes from there,
  `DeliveryAnswers` what a worker's reports and writes have to do with what it is
  answered, `DeliveryStops` how it comes to rest, and `DeliveryReach` that every
  kind of delivery can be submitted as often as it may be.
- **Observed sessions.** `ObservedSession` reduces provider signals to a state,
  queues submissions, and decides when to begin or block one. `SessionProtocol`
  runs it against the delivery protocol. `SessionSafety` holds what is true of
  every run of it, `SessionChoice` exactly what it decides at each moment,
  `SessionPoll` that a poll is a piece of such a run, `SessionReach` that
  everything it queued can be delivered, `SessionOrder` in which runs what was
  accepted is pasted in order and at most once, `SessionRace` how any other run
  can go on to break that, and `SessionRaceRun` that such a run exists.
- **Transcript pages.** `Conversation` and `ConversationReader` read a
  transcript backwards through a bounded window and agree with a forward parse.
- **Rollout repair.** `Rollout`, `RolloutRepair` and `RolloutFile` renumber the
  records of a damaged rollout byte by byte and give back the original.
  `RolloutAcceptance` says exactly which files are accepted.
  `JsonText` and `RolloutReader` read a record's tokens and say exactly when the
  digits that are rewritten are those its ordinal is read from; `RolloutMisled`
  shows records of which they are not.
- **Time map.** `TimeMap`, `TimeMapLaws` and `TimeMapTheorems` join pieces of
  constant speed by smooth ramps, over exact reals. `TimeMapRamps` gives the
  width, height and smoothness of each ramp.
- **Smaller state machines.** Hook admission (`Ingress`), the thread filter of
  the Codex proxy (`ThreadScope`), the subagent roster (`SubagentRoster`,
  `SubagentHistory`) and the consumed-write ledger (`WriteLedger`).

## How to read it

An object that the program updates in place is a class whose methods are proved
against functions on values (`View`, `T.Begin`, `Operation`, `NormalizedBytes`,
…). The laws are lemmas about those functions and about runs built from them.

What the environment answers is a parameter: the terminal, the clock and the
channel in `Reply` and `Terminal`, the JSON reader in `parse` and `judge`. The
shared flags are sequentially consistent.

### The race around a paste

A worker reads `cancel_submit` and only afterwards sets `paste_started`. Core
may cancel a delivery in between and, because `paste_started` is still unset,
begin its submission again; both workers then paste. `RaceIsReachable` gives such
a run. `NoReplay` proves that nothing else goes wrong: without a step that
retires a delivery inside that window no paste is repeated. `OvertakingReplays`
proves the converse: after any such step the run can go on to a repeated paste
without another such step. `ReplaysExactly` puts the two together: such a step is
exactly what makes a repeated paste possible.

If the check and the setting of `paste_started` were one step, a worker past it
could be overtaken only by a removal, by an eviction, or by the replacement of a
delivery that is over: `AtomicMarkIsNotBegunAgain`. If check, mark and write were
uninterrupted, nobody would ever be overtaken and no paste repeated:
`AtomicPasteIsNotOvertaken`, `AtomicPasteIsNotRepeated`.

The same race reaches a session. `PastesTwice` is a run of an observed session
that pastes its only submission twice, with a single overtaking action.
`PastesInOrder` proves order and at-most-once for every run up to its first
overtaking action. `OvertakingDisorders` proves that after any overtaking action
the session can go on, without another one and without being closed, to paste out
of order; `DisordersExactly` puts the two together. Where the overtaking action
started a second worker, the workers alone paste the submission twice:
`SecondPastes`. A provider without a composer has no such action
(`NobodyIsOvertaken`).

## Model

| member | source | states |
|---|---|---|
| `DeliveryRuntime.GeneratedInputDeliveryRuntime.constructor` | modules/agent-runtime/src/delivery.rs:137-148 | a new table is empty, with identity 1 next |
| `DeliveryRuntime.GeneratedInputDeliveryRuntime.RemoveSession` | modules/agent-runtime/src/delivery.rs:155-160 | the record is cancelled and dropped, and nothing else changes |
| `DeliveryRuntime.GeneratedInputDeliveryRuntime.CanBeginPendingSubmission` | modules/agent-runtime/src/delivery.rs:238-252 | true exactly when there is no record, it came to rest, or it is an unwritten composer block of the same epoch |
| `DeliveryRuntime.GeneratedInputDeliveryRuntime.Begin` | modules/agent-runtime/src/delivery.rs:254-396 | what begin makes of the table for every answer of the terminal, and whether a worker starts with its paste handed over |
| `DeliveryRuntime.GeneratedInputDeliveryRuntime.Fresh` | modules/agent-runtime/src/delivery.rs:292-396 | the new record inherits the diagnosis of an unwritten block, and has failed at once when the launch failed |
| `DeliveryRuntime.GeneratedInputDeliveryRuntime.BlockForUnavailableComposer` | modules/agent-runtime/src/delivery.rs:558-633 | cancels a record being written in place, refuses other epochs and active records, and otherwise replaces the record by a block |
| `DeliveryRuntime.GeneratedInputDeliveryRuntime.TransitionRuntimeEpoch` | modules/agent-runtime/src/delivery.rs:637-653 | moves the record to the new epoch; unless confirmed, the user has to resubmit |
| `DeliveryRuntime.GeneratedInputDeliveryRuntime.ApplyTransportEvent` | modules/agent-runtime/src/delivery.rs:655-756 | an event of another identity or epoch changes nothing; otherwise the record is merged and concluded, and the return value says whether it changed |
| `DeliveryRuntime.GeneratedInputDeliveryRuntime.Reconcile` | modules/agent-runtime/src/delivery.rs:666-756 | each transport outcome moves the record exactly as the outcome is due |
| `DeliveryRuntime.GeneratedInputDeliveryRuntime.Rest` | modules/agent-runtime/src/delivery.rs:710-753 | a failure after an early acknowledgement confirms the record, attributed only if its content is known unchanged |
| `DeliveryRuntime.GeneratedInputDeliveryRuntime.ConfirmProviderSubmission` | modules/agent-runtime/src/delivery.rs:758-810 | what a provider turn makes of the record in its epoch, and whether it changed; `DeliveryChart.AwaitedIsConfirmed` and `DeliverySafety.RecoveryIsAttributed` say over runs when that confirms it |
| `DeliveryRuntime.GeneratedInputDeliveryRuntime.Credit` | modules/agent-runtime/src/delivery.rs:768-810 | a turn no newer than the baseline, or after a paste that never began, is ignored; one during the paste is kept for later; one for an awaited or stalled record confirms it under its sequence; one after a failure confirms it with or without attribution |
| `DeliveryRuntime.GeneratedInputDeliveryRuntime.ConfirmProviderProgress` | modules/agent-runtime/src/delivery.rs:817-851 | newer progress stops retries, or turns an unattributed confirmation into a full one |
| `DeliveryRuntime.GeneratedInputDeliveryRuntime.ConfirmProviderQueueProgress` | modules/agent-runtime/src/delivery.rs:860-893 | queue progress counts only after the submit receipt of a provider-queue delivery |
| `DeliveryRuntime.GeneratedInputDeliveryRuntime.EvictOldestTerminalDelivery` | modules/agent-runtime/src/delivery.rs:903-914 | drops the oldest inactive record, or nothing |
| `DeliveryTable.MakeRoomKeepsValid` | modules/agent-runtime/src/delivery.rs:285-291 | room is made exactly when the table is not full or some record is inactive |
| `DeliveryTable.BeginInserts` | modules/agent-runtime/src/delivery.rs:254-396 | begin changes nothing or inserts its record, evicting only an inactive one; 256 records at most, identities in order |
| `DeliveryTable.BlockInserts` | modules/agent-runtime/src/delivery.rs:558-633 | the same for a block, and the replaced record had come to rest |
| `DeliveryTable.RemoveAtIsWithout` | modules/agent-runtime/src/delivery.rs:903-914 | removing an entry of the insertion order by position removes it by value |
| `DeliveryStart.BeginsExactly` | modules/agent-runtime/src/delivery.rs:238-291 | begin inserts a record exactly when the one there came to rest in the same epoch or is an unwritten composer block, and the table has room or an inactive record, and says so |
| `DeliveryStart.BlocksExactly` | modules/agent-runtime/src/delivery.rs:558-633 | a block inserts a record exactly when the one there came to rest, in the same epoch, and there is room |
| `DeliveryStart.StartsExactly` | modules/agent-runtime/src/delivery.rs:254-396 | in every run begin starts a delivery exactly where it may; its record, flags and worker are what the submission, the baseline, the terminal and an inherited diagnosis make them |
| `DeliveryStart.BlockedExactly` | modules/agent-runtime/src/delivery.rs:558-633 | in every run a block is put on record exactly where nothing is being written and what is there came to rest, with its cause and at most 64 characters of the notification |
| `DeliveryStart.EvictionTakesOldest` | modules/agent-runtime/src/delivery.rs:903-914 | in every run a record makes room for another session only in a full table, alone, and as the oldest that is not active |
| `DeliveryStart.DroppedIsLetGo` | modules/agent-runtime/src/delivery.rs:155-160 | in every run Core no longer listens to a worker whose record it drops, and has cancelled it if the record was removed or gave way to a block |
| `DeliveryWorker.MoveKeepsWorker` | modules/agent-runtime/src/delivery.rs:1083-1331 | every step of a worker keeps its writes, receipts, attempts and reports in the order the protocol allows; what makes it go on is in `DeliveryAnswers` and `DeliveryReach` |
| `DeliveryWorker.MoveContinues` | modules/agent-runtime/src/delivery.rs:397-545 | a step only adds to the trace, never takes back a flag, enters the paste window only uncancelled, and once cancelled adds only a committed write |
| `DeliveryWorker.TracesHaveShape` | modules/agent-runtime/src/delivery.rs:1083-1331 | a trace is nothing, a paste, or a paste, its receipt, its settlement and a bounded number of submits |
| `DeliveryAnswers.FailuresAreDue` | modules/agent-runtime/src/delivery.rs:1083-1540 | every failure a worker decides to report is due by what was written, answered and cancelled, and is a block, a failure or a failed retry as it should be |
| `DeliveryAnswers.CancelIsNoticed` | modules/agent-runtime/src/delivery.rs:1083-1402 | a worker at any of its checks that was cancelled writes nothing more and stops or reports as that check says |
| `DeliveryAnswers.InterferenceIsNoticed` | modules/agent-runtime/src/delivery.rs:1337-1376 | so does one whose composer the user touched while the paste was settling or before a wake is submitted again |
| `DeliveryAnswers.SettlingIsPatient` | modules/agent-runtime/src/delivery.rs:1253-1376 | a wait that times out leads to the check for a late settlement |
| `DeliveryAnswers.ClosedIsReported` | modules/agent-runtime/src/delivery.rs:1083-1540 | a terminal that is gone is reported as closed from wherever it is called next |
| `DeliveryAnswers.MissingReceiptIsReported` | modules/agent-runtime/src/delivery.rs:1183-1540 | a receipt that does not come is reported as a failed write |
| `DeliveryAnswers.ReportsOnce` | modules/agent-runtime/src/delivery.rs:397-545 | what is decided is reported once, with what was learned, and the worker then waits for its acknowledgement or is done |
| `DeliveryAnswers.ReportsAreFull` | modules/agent-runtime/src/delivery.rs:1083-1540 | in every run a worker knows and reports the attempt it makes, its waits, at most 8, the evidence that the paste settled, and exactly the receipts it was given |
| `DeliveryAnswers.EvidenceIsAnswered` | modules/agent-runtime/src/delivery.rs:1263-1264 | the evidence reported is what the terminal answered when the paste settled |
| `DeliveryAnswers.MarkWasAnswered` | modules/agent-runtime/src/delivery.rs:1083-1540 | in every run a receipt, a settlement or a submit on a trace was recorded at a step, exhibited, at which the terminal said so |
| `DeliveryAnswers.ReadyBeforePaste` | modules/agent-runtime/src/delivery.rs:1083-1402 | in every run nothing is pasted into a composer that was not found ready before |
| `DeliveryAnswers.AcknowledgementStopsWrites` | modules/agent-runtime/src/delivery.rs:437-520 | in every run a submitted delivery that was acknowledged is submitted again at most once, by a worker already about to |
| `DeliveryAnswers.RetriesAreDue` | modules/agent-runtime/src/delivery.rs:453-535 | submits are counted, and another attempt is decided on exactly for a wake within two minutes, or once for a composer that shows the text |
| `DeliveryStops.DismissedIsOver` | modules/agent-runtime/src/delivery.rs:397-545 | in every run a worker that was cancelled or had its submit receipted, and that Core no longer listens to, is over after at most 21 more moves of its own, whatever it is answered |
| `DeliveryStops.StopsOnlyWhenTold` | modules/agent-runtime/src/delivery.rs:437-545 | a worker stops without a report only when Core no longer listens or cancelled it before its first retry |
| `DeliveryStops.ReceiptIsShared` | modules/agent-runtime/src/delivery.rs:1460-1540 | at every moment of every run the flag Core reads says exactly whether a submit was receipted |
| `DeliveryReach.SettledSubmits` | modules/agent-runtime/src/delivery.rs:1296-1331 | from every settled worker that was not cancelled some answers lead to a submit, its receipt, and a report with both receipts |
| `DeliveryReach.WillingSubmits` | modules/agent-runtime/src/delivery.rs:1083-1540 | so they do from any point before that at which the worker was not cancelled and has not failed |
| `DeliveryReach.SubmitsTwice` | modules/agent-runtime/src/delivery.rs:453-535 | a composer delivery that waits in vain can be submitted a second time |
| `DeliveryReach.WakeSubmits` | modules/agent-runtime/src/delivery.rs:468-535 | a wake can be submitted again within two minutes until it was submitted 25 times |
| `DeliveryReach.LimitIsReached` | modules/agent-runtime/src/delivery.rs:254-545 | for every submission and settlement some run from the empty table hands the terminal exactly as many receipted submits as the bound on all runs allows: 1 for the provider queue, 25 for a wake, 2 for a composer, 1 otherwise |
| `DeliveryLaws.ConclusionOk` | modules/agent-runtime/src/delivery.rs:655-756 | concluding a record on any truthful event keeps it lawful and truthful |
| `DeliveryLaws.ConfirmSubmissionOk` | modules/agent-runtime/src/delivery.rs:758-810 | so does crediting a provider turn |
| `DeliveryLaws.ConfirmQueueProgressOk` | modules/agent-runtime/src/delivery.rs:860-893 | so does queue progress, which changes a record only after its submit was receipted |
| `DeliveryLaws.MoveEpochOk` | modules/agent-runtime/src/delivery.rs:637-653 | so does a change of epoch |
| `DeliveryLaws.CancelForComposerOk` | modules/agent-runtime/src/delivery.rs:567-589 | so does a cancellation for an unavailable composer |
| `DeliveryProtocol.StepKeepsInv` | modules/agent-runtime/src/delivery.rs:150-914 | every step of Core or of a worker, in any interleaving, keeps table, workers, fates and events consistent |
| `DeliveryProtocol.TouchOk` | modules/agent-runtime/src/delivery.rs:637-893 | every in-place operation is lawful whenever it happens: final states stay, the first failure is kept, receipts are not forgotten |
| `DeliveryChart.RecordsFollowChart` | modules/agent-runtime/src/delivery.rs:637-893 | in every run every record that stays on the table moves exactly as a chart of states and news says: its state, confirmation, failures, causes, diagnostics and flags |
| `DeliveryChart.AwaitedIsConfirmed` | modules/agent-runtime/src/delivery.rs:758-893 | in every run a record that awaits its acknowledgement or stalled becomes confirmed exactly by a step that brings a newer turn, or newer queue progress, for its epoch; the confirmation carries that sequence, and a turn says whether the user changed the input |
| `DeliveryChart.ChangesAreReported` | modules/agent-runtime/src/delivery.rs:758-893 | each confirmation says that it changed something exactly when the state did |
| `DeliveryChart.ReportsAreChanges` | modules/agent-runtime/src/delivery.rs:655-756 | a transport report counts as a change exactly when it moves the record, teaches it something or tells of an awaited retry |
| `DeliverySafety.RunKeepsInv` | modules/agent-runtime/src/delivery.rs:150-1540 | the invariant holds at every moment of every run |
| `DeliverySafety.TerminalWritesHaveShape` | modules/agent-runtime/src/delivery.rs:1083-1540 | for every interleaving, the writes of one delivery are nothing, one paste, or one paste and then submits after receipt and settlement: at most 2, 1 for the provider queue, 25 for a wake |
| `DeliverySafety.CancellationStopsWrites` | modules/agent-runtime/src/delivery.rs:1129-1331 | after its cancellation a worker hands over at most one more write, the one it was committed to |
| `DeliverySafety.RecordsKeep` | modules/agent-runtime/src/delivery.rs:637-929 | between any two moments a record keeps its identity, its final state, its first failure and its receipts |
| `DeliverySafety.AcknowledgedOnEvidence` | modules/agent-runtime/src/delivery.rs:758-893 | a record is confirmed only on provider evidence newer than its baseline, brought in the epoch it started in while it was on record |
| `DeliverySafety.ConfirmedIsAttributed` | modules/agent-runtime/src/delivery.rs:655-851 | a confirmed record had its paste receipted, or was confirmed unattributed before |
| `DeliverySafety.AwaitingMeansSubmitted` | modules/agent-runtime/src/delivery.rs:669-709 | a record that awaits its acknowledgement or stalled has a receipted submit |
| `DeliverySafety.QueueProgressFollowsSubmit` | modules/agent-runtime/src/delivery.rs:860-893 | queue progress that changes anything follows the submit receipt |
| `DeliverySafety.RecoveryIsAttributed` | modules/agent-runtime/src/delivery.rs:984-1005 | in every run a record whose transport failed becomes confirmed exactly by a turn newer than its baseline, in its epoch, when the failure came after the paste and the user's input is known unchanged; and then its paste was receipted |
| `DeliverySafety.EventWasSent` | modules/agent-runtime/src/delivery.rs:1083-1331 | every event under way was sent by the worker whose identity it carries, at a step that is exhibited |
| `DeliverySafety.EventsReachTheirOwnRecord` | modules/agent-runtime/src/delivery.rs:655-668 | however late, an event is applied to the delivery whose worker sent it, or changes nothing |
| `DeliverySafety.EvictionSparesActive` | modules/agent-runtime/src/delivery.rs:903-914 | a record that is evicted or replaced was inactive |
| `DeliveryReplay.SupersededOk` | modules/agent-runtime/src/delivery.rs:238-291 | Core replaces a delivery only once it is over or before it pasted |
| `DeliveryReplay.NoReplay` | modules/agent-runtime/src/delivery.rs:238-291 | without a step that retires a delivery inside the paste window, no paste follows an earlier one of the session that is not over |
| `DeliveryReplay.OvertakingReplays` | modules/agent-runtime/src/delivery.rs:1129-1182 | conversely, after any such step the run can go on, without another such step, to a repeated paste in the same epoch |
| `DeliveryReplay.ReplaysExactly` | modules/agent-runtime/src/delivery.rs:1129-1182 | after a step before which nobody was overtaken, a paste can be repeated without overtaking anybody if and only if that step retired a delivery inside the window |
| `DeliveryReplay.AtomicPasteIsNotOvertaken` | modules/agent-runtime/src/delivery.rs:1129-1182 | in a run in which a worker's check, mark and write are not interrupted, nobody is ever overtaken |
| `DeliveryReplay.AtomicPasteIsNotRepeated` | modules/agent-runtime/src/delivery.rs:1129-1182 | and no paste is ever repeated |
| `DeliveryReplay.RaceIsReachable` | modules/agent-runtime/src/delivery.rs:1129-1182 | such a step is reached from an empty table in five steps |
| `DeliveryReplay.AtomicMarkIsNotBegunAgain` | modules/agent-runtime/src/delivery.rs:1129-1155 | once the paste is marked as started, a worker in the window is overtaken only by a removal, an eviction or the replacement of a delivery that is over |
| `Observation.SequenceAdvances` | modules/agents/src/lib.rs:465-566 | the sequence never goes back; it moves, and the observation changes, exactly when the signal is newer and not outweighed by the state on view; a newer prompt is always recorded as work |
| `Observation.NewsMeans` | modules/agents/src/lib.rs:465-566 | each state is reached by exactly the signals that mean it, ambient notices keeping the one there is and a hook's restart an interruption |
| `Observation.ViewIsLastNews` | modules/agents/src/lib.rs:465-566 | after any signals what is on view comes from the last one that was news |
| `Observation.IdleIsEarned` | modules/agents/src/lib.rs:465-566 | after a failed or interrupted turn only the start of a session leads to idle, and not out of an interruption reported by the process |
| `Observation.QuietHidesNothing` | modules/agents/src/lib.rs:465-566 | however many stops and idle notices follow, a failed or interrupted turn stays on view |
| `SessionDesk.DecideExactly` | modules/agent-runtime/src/observed_session.rs:253-309 | a submission begins exactly when one waits, no hook does, the table allows it and the composer may accept; it is blocked exactly when the composer may not, or asks something during the paste |
| `SessionChoice.ChoosesExactly` | modules/agent-runtime/src/observed_session.rs:253-309 | the same with readiness of each provider, settlement and cause written out |
| `SessionChoice.DispatchesExactly` | modules/agent-runtime/src/observed_session.rs:253-309 | in every run a dispatch begins or blocks the front exactly then, numbered by what was last observed |
| `SessionChoice.SettlesExactly` | modules/agent-runtime/src/observed_session.rs:236-252 | in every run the front leaves the queue by settling exactly when its record came to rest, and the record goes with it |
| `SessionChoice.SignalsReachTheFront` | modules/agent-runtime/src/observed_session.rs:182-211 | in every run a prompt is told to the record of the front as a turn, signs of work or of its end as progress, each under its own number, and other signals are not told |
| `SessionChoice.EnqueuesExactly` | modules/agent-runtime/src/observed_session.rs:147-153 | in every run a submission is accepted, at the back, exactly when fewer than 16 wait |
| `SessionChoice.HookIsHeldExactly` | modules/agent-runtime/src/observed_session.rs:154-181 | in every run a hook is held exactly when one reported the start of the session and none was answered since |
| `SessionChoice.HeldHookHoldsDispatch` | modules/agent-runtime/src/observed_session.rs:253-262 | while a hook is held nothing is begun or blocked |
| `ObservedSession.ObservedSession.constructor` | modules/agent-runtime/src/observed_session.rs:37-58 | a new session has observed nothing and queued nothing |
| `ObservedSession.ObservedSession.AddSubmission` | modules/agent-runtime/src/observed_session.rs:147-153 | accepted at the back of the queue unless 16 wait |
| `ObservedSession.ObservedSession.Hook` | modules/agent-runtime/src/observed_session.rs:154-176 | taken exactly when the token matches, admission allows and the hook says something; otherwise nothing is observed |
| `ObservedSession.ObservedSession.ReleaseHookResponse` | modules/agent-runtime/src/observed_session.rs:177-181 | the hold is released only for the right token |
| `ObservedSession.ObservedSession.Observe` | modules/agent-runtime/src/observed_session.rs:182-211 | the signal is numbered, reduced, and told to the deliveries under that number |
| `ObservedSession.ObservedSession.Hear` | modules/agent-runtime/src/observed_session.rs:213-232 | at most 256 arrivals are heard, in order, those of other sessions and epochs without effect |
| `ObservedSession.ObservedSession.Receive` | modules/agent-runtime/src/observed_session.rs:233-235 | at most 256 transport events are applied, in order |
| `ObservedSession.ObservedSession.Settle` | modules/agent-runtime/src/observed_session.rs:236-252 | the front leaves the queue, and its record the table, exactly when that record came to rest |
| `ObservedSession.ObservedSession.Dispatch` | modules/agent-runtime/src/observed_session.rs:253-309 | the table after the decision about the front submission |
| `ObservedSession.ObservedSession.Poll` | modules/agent-runtime/src/observed_session.rs:212-310 | hears, receives, settles and dispatches, in that order |
| `ObservedSession.ObservedSession.Close` | modules/agent-runtime/src/observed_session.rs:311-324 | the record and the queue are dropped |
| `SessionProtocol.ActIsOperation` | modules/agent-runtime/src/observed_session.rs:147-324 | each action of the session protocol leaves desk and table as the session's operation does |
| `SessionPoll.PollRuns` | modules/agent-runtime/src/observed_session.rs:212-310 | every poll is a piece of a run: at any moment of any run hearing at most 256 arrivals, those of this session and epoch, receiving at most 256 events, settling and dispatching lead to the desk and the table that the poll leaves |
| `SessionSafety.ActKeeps` | modules/agent-runtime/src/observed_session.rs:147-324 | every action that is possible keeps the session's invariant |
| `SessionSafety.RunKeepsSession` | modules/agent-runtime/src/observed_session.rs:147-324 | at every moment of every run the queue is what is left of the accepted submissions, the only record is that of its front, and every delivery carries the submission it was begun for |
| `SessionOrder.PastesInOrder` | modules/agent-runtime/src/observed_session.rs:236-309 | until a delivery is overtaken, accepted submissions are pasted in the order they were accepted and none twice |
| `SessionOrder.NobodyIsOvertaken` | modules/agent-runtime/src/observed_session.rs:293-308 | with a provider that has no composer to wait for, no action of any run overtakes a delivery |
| `SessionRaceRun.PastesTwice` | modules/agent-runtime/src/observed_session.rs:253-309 | with any other provider some run, with one overtaking action, pastes its only submission twice |
| `SessionRace.OvertakingDisorders` | modules/agent-runtime/src/observed_session.rs:212-309 | after any overtaking action of any run the session can go on, without another one and without being closed, to paste that delivery after one whose submission was accepted no earlier |
| `SessionRace.SecondPastes` | modules/agent-runtime/src/observed_session.rs:253-309 | where that action started a second worker, steps of the workers alone paste the same submission twice |
| `SessionRace.DisordersExactly` | modules/agent-runtime/src/observed_session.rs:212-309 | after an action before which nobody was overtaken, the session can go on to paste out of order without overtaking anybody if and only if that action overtook somebody |
| `SessionSafety.SettledOnEvidence` | modules/agent-runtime/src/observed_session.rs:236-252 | a submission leaves the queue by settling only when the user must resubmit it, or on provider evidence newer than its delivery |
| `SessionSafety.SignalsAreNew` | modules/agent-runtime/src/observed_session.rs:182-211 | until the sequence saturates, every signal is newer than the record's baseline, so the guard never drops an acknowledgement |
| `SessionSafety.StartsWhenReady` | modules/agent-runtime/src/observed_session.rs:253-309 | a worker starts only with no hook waiting, in an accepting state, for the front submission |
| `SessionSafety.SettlingEnablesDispatch` | modules/agent-runtime/src/observed_session.rs:236-309 | after settling, a dispatch finds the front unsettled |
| `SessionSafety.WorkKeepsDispatch` | modules/agent-runtime/src/observed_session.rs:236-309 | and workers that move in between do not change that |
| `SessionSafety.Projects` | modules/agent-runtime/src/observed_session.rs:147-324 | what a session does to its deliveries is a run of the delivery protocol |
| `SessionReach.FrontIsDelivered` | modules/agent-runtime/src/observed_session.rs:147-324 | from every moment of every run at which the front may begin, the session can go on to paste, submit and have it acknowledged, and to drop it from the queue |
| `SessionReach.QueueDrains` | modules/agent-runtime/src/observed_session.rs:147-324 | so every submission in the queue can be delivered, in order and once, with nobody overtaken on the way |
| `Conversation.PagesAgree` | modules/agents/src/conversation.rs:216-268 | following all pages agrees with one forward parse: incomplete is reported exactly when a line is malformed or does not fit the window, and otherwise every visible message appears once, in order |
| `Conversation.PagesGiveAllMessages` | modules/agents/src/conversation.rs:216-268 | for every file whose lines are all shorter than the window, the pages give exactly its visible messages |
| `Conversation.PageIsBounded` | modules/agents/src/conversation.rs:241-267 | for any bytes a page has at most 50 messages and 256 KiB of text, and its cursor lies strictly below its end |
| `Conversation.PageIsFull` | modules/agents/src/conversation.rs:241-267 | a page holds the messages from its cursor on, and is as full as it may be: the line above it, if it lies in the last 4 MiB, has a message that would be the 51st or exceed 256 KiB |
| `Conversation.CursorIsLineStart` | modules/agents/src/conversation.rs:239-266 | every cursor is the start of a line, except where a line too long for the window is passed over |
| `Conversation.WindowSizedLine` | modules/agents/src/conversation.rs:258-264 | a line of exactly the window's size is read where it starts the file, and passed over and reported anywhere else |
| `Conversation.ForwardSplits` | modules/agents/src/conversation.rs:233-237 | a stretch may be parsed in two if it is cut between lines |
| `Conversation.LineStartIs` | modules/agents/src/conversation.rs:233-243 | a line found from its end is the line found from its start |
| `Conversation.TakenFits` | modules/agents/src/conversation.rs:241-257 | the lines taken from the end keep both limits of the page |
| `ConversationReader.ReadWindow` | modules/platform/src/agent_history_fs.rs:249-275 | the last 4 MiB before the position, or an error beyond the file |
| `ConversationReader.FindLineEnd` | modules/agents/src/conversation.rs:223-230 | the position after the next newline of the window, or its end |
| `ConversationReader.SplitLines` | modules/agents/src/conversation.rs:231-237 | the lines of the window, each whole and in order |
| `ConversationReader.Gather` | modules/agents/src/conversation.rs:238-257 | takes lines from the end until the page is full |
| `ConversationReader.ParsePage` | modules/agents/src/conversation.rs:216-268 | the page of any window of any file |
| `ConversationReader.ReadPage` | modules/agents/src/conversation.rs:33-91 | the page up to a cursor, or from the end |
| `ConversationReader.CapText` | modules/agents/src/conversation.rs:337-351 | the longest prefix of the shown characters that fits 64 KiB, truncated exactly when some are left out |
| `Decimal.ValueOfPrint` | modules/agents/src/codex_history.rs:363-366 | reading back a printed number gives it again |
| `Decimal.PrintOfValue` | modules/agents/src/codex_history.rs:413-419 | printing the value of a numeral without leading zeros gives it again |
| `OrdinalKey.FindKeys` | modules/agents/src/codex_history.rs:398-405 | finds every unspaced ordinal key and nothing else |
| `OrdinalKey.OrdinalDigits` | modules/agents/src/codex_history.rs:394-424 | gives the digits of the only key, and fails exactly when there is no such place with that value |
| `OrdinalKey.SlotIsOrdinal` | modules/agents/src/codex_history.rs:394-424 | whatever number is written in the place of the ordinal, it is found there again |
| `OrdinalKey.OrdinalIsSlot` | modules/agents/src/codex_history.rs:398-411 | the parts of a line around its ordinal hold no other key |
| `RolloutRepair.OffsetCheckNeverFires` | modules/agents/src/codex_history.rs:354-359 | leaving out the offset check changes no outcome of any file |
| `RolloutRepair.RepairNumbers` | modules/agents/src/codex_history.rs:293-382 | in an accepted repair only digits of ordinals differ, and its lines read as numbered one after the other if and only if each line, its digits exchanged, reads as that number |
| `RolloutReader.RenumberReads` | modules/agents/src/codex_history.rs:304-312 | exchanging the digits after the unspaced key makes the record read as the new number and nothing else, if and only if that key is the last of its ordinal keys, however those are written |
| `RolloutReader.RepairNumbersExactly` | modules/agents/src/codex_history.rs:293-382 | so an accepted repair numbers its lines without a gap if and only if that holds of every line whose ordinal was not in place |
| `RolloutMisled.RepeatIsMissed` | modules/agents/src/codex_history.rs:319-371 | whatever the reader, the repair of a repeated ordinal is accepted although the record reads as before, when its unspaced key is not the last |
| `RolloutMisled.SpacedKeyMisleads` | modules/agents/src/codex_history.rs:360-371 | so it is for any session record and any settings record with a second key after the first, written with a space |
| `RolloutMisled.RecordsMislead` | modules/agents/src/codex_history.rs:319-371 | among them records with the `type` and `payload` the repair asks for |
| `RolloutMisled.WrittenLexes` | modules/agents/src/codex_history.rs:304-305 | tokens that are written are read back |
| `RolloutReader.EntriesAreTheFile` | modules/agents/src/codex_history.rs:299-312 | every file whose lines are numbered without a gap, in plain sight, is the lines its parts and numbers make |
| `JsonText.LexToKey` | modules/agents/src/codex_history.rs:398-405 | in a text of JSON tokens an unspaced ordinal key in sight is a token of its own, never part of a string |
| `RolloutRepair.RepairCounts` | modules/agents/src/codex_history.rs:360-381 | the repaired records are all from the first repeated ordinal on |
| `RolloutRepair.RepairIsFinal` | modules/agents/src/codex_history.rs:373-376 | a repaired file is refused when repaired again, whatever its lines read as |
| `RolloutRepair.RepairUndoesDamage` | modules/agents/src/codex_history.rs:286-382 | from any gapless rollout with 1 to 64 of its settings records after the first not counted, the repair gives back the original lines; those before the first uncounted one need only read as numbered |
| `RolloutFile.SplitOfText` | modules/agents/src/codex_history.rs:299-303 | splitting what was put together gives the lines again |
| `RolloutFile.TextOfSplit` | modules/agents/src/codex_history.rs:299-303 | putting together what was split gives the bytes again |
| `RolloutFile.MendLine` | modules/agents/src/codex_history.rs:300-371 | every check and rewrite of one record, as `Mend` has it; `RolloutAcceptance.RepairedExactly` says which records pass |
| `RolloutFile.WriteLine` | modules/agents/src/codex_history.rs:360-371 | a record in place is copied; any other has its ordinal rewritten, or the repair fails |
| `RolloutFile.MendLines` | modules/agents/src/codex_history.rs:299-372 | the loop writes what the records one by one are mended to |
| `RolloutFile.NormalizeDuplicateOrdinals` | modules/agents/src/codex_history.rs:286-382 | the repaired bytes and both counts, or a refusal; `RolloutAcceptance.BytesRepairedExactly` says which |
| `RolloutAcceptance.RepairedExactly` | modules/agents/src/codex_history.rs:286-382 | lines are accepted if and only if there are at most 1000000, each reads as a record with one ordinal of at most 64 bits and no trailing return, the first is the session's, each ordinal follows the last or repeats it on a settings record, 1 to 64 do, and every record behind has its digits in plain sight; the count of duplicates is the number that repeat |
| `RolloutAcceptance.BytesRepairedExactly` | modules/agents/src/codex_history.rs:286-382 | so are bytes, exactly when they end in a newline and their lines are |
| `RolloutFile.BytesAreRestored` | modules/agents/src/codex_history.rs:286-382 | from any bytes whose lines read as numbered without a gap, in plain sight from the first uncounted record on, with 1 to 64 of the settings records after the first not counted, the repair gives back every byte |
| `RolloutFile.BytesAreFinal` | modules/agents/src/codex_history.rs:286-382 | the repaired bytes have as many lines and are refused when repaired again |
| `SmoothStep.EaseRises` | tools/marketing/render.py:66-71 | the ramp curve rises, and by no more than its argument, between any two of its points |
| `TimeMap.ReadSpans` | tools/marketing/render.py:42-53 | spans in order from 0 with the ends and speeds of the runs, refused exactly when `Acceptable` does not hold of them |
| `TimeMap.AcceptedExactly` | tools/marketing/render.py:42-53 | runs are accepted exactly when each ends later than the one before, within the source, at a speed from 1 to 128, and the last reaches the end within 0.000001 |
| `TimeMap.GuardHolds` | tools/marketing/render.py:58-60 | the guard before a piece of constant speed always holds |
| `TimeMap.BuildPieces` | tools/marketing/render.py:54-64 | the pieces of the spans, a ramp around each boundary; `TimeMapRamps.BoundaryExactly` gives its width and height |
| `TimeMapLaws.PartIsBounded` | tools/marketing/render.py:66-71 | between two times a piece plays its source time at rates between those it joins |
| `TimeMapTheorems.MapTiles` | tools/marketing/render.py:54-64 | the pieces tile the whole source, each of positive length |
| `TimeMapTheorems.TimeStaysOrdered` | tools/marketing/render.py:40-71 | the time between two moments is played no slower than at the slowest speed and no faster than at the fastest |
| `TimeMapTheorems.MapIncreases` | tools/marketing/render.py:40-71 | the map is strictly increasing |
| `TimeMapTheorems.OffRampsIsUnsmoothed` | tools/marketing/render.py:54-71 | outside the ramps the map is the unsmoothed piecewise-linear one |
| `TimeMapTheorems.MapDeparts` | tools/marketing/render.py:54-71 | at every time the map is the unsmoothed one and what each ramp around it adds |
| `TimeMapRamps.BoundaryExactly` | tools/marketing/render.py:54-71 | at a boundary the map leads or lags the unsmoothed one by 3/16 of the change of rate times the half width, which is the least of 0.6 and a quarter of either span |
| `TimeMapRamps.RampExactly` | tools/marketing/render.py:54-71 | at every time of a ramp the map is the unsmoothed one and 2h times the change of rate times v^3 - v^4/2, where h is the half width and v the part of the width between the time and the nearer end |
| `TimeMapRamps.RampIsSmooth` | tools/marketing/render.py:66-71 | at a distance d from either end of a ramp, up to the boundary, the map departs from the straight line outside by between 3/4 and all of d^3 times the change of rate over 4h^2 |
| `TimeMapTheorems.TotalIsKept` | tools/marketing/render.py:42-71 | when the last run ends at the duration, the output lasts as long as the spans do at their own speeds |
| `TimeMapTheorems.MapTime` | tools/marketing/render.py:66-71 | the sum of what the pieces add |
| `TimeMapTheorems.Retime` | tools/marketing/render.py:42-71 | construction and mapping together, refused exactly for unacceptable runs |
| `TimeMapTheorems.Expression` | tools/marketing/render.py:73-82 | the emitted formula, read with clip and pow, has the value of the map at every time |
| `Ingress.ProviderObservationIngress.Admit` | modules/agent-runtime/src/observation_ingress.rs:20-57 | only the session's window changes; a new session in a full table replaces one seen least recently |
| `Ingress.ProviderObservationIngress.Oldest` | modules/agent-runtime/src/observation_ingress.rs:39-44 | a session seen least recently |
| `Ingress.RateIsBounded` | modules/agent-runtime/src/observation_ingress.rs:20-38 | with a clock that does not go back, no interval of 1000 ms admits more than 512 hooks of a tracked session |
| `Ingress.AdmittedExactly` | modules/agent-runtime/src/observation_ingress.rs:20-38 | in every run of hooks of a tracked session exactly the first 256 of each window are admitted, a window being opened by the first hook 1000 ms after the last one that opened one, or before it |
| `ThreadScope.CodexThreadScope.constructor` | modules/agents/src/lib.rs:1133-1138 | a new scope follows no thread |
| `ThreadScope.CodexThreadScope.ObserveRequest` | modules/agents/src/lib.rs:1140-1174 | a resume selects its thread; requests for lasting new threads are remembered |
| `ThreadScope.CodexThreadScope.ObserveMessage` | modules/agents/src/lib.rs:1361-1405 | what a server message selects and whether facts are drawn from it; `FirstIsInScope`, `OwnIsInScope`, `OtherIsInScopeExactly` and `FollowedExactly` say over runs which |
| `ThreadScope.CodexThreadScope.ObserveResponse` | modules/agents/src/lib.rs:1176-1205 | a matched response leaves the queue and selects its thread unless ephemeral |
| `ThreadScope.CodexThreadScope.AdmitNotification` | modules/agents/src/lib.rs:1211-1245 | which notifications are in scope, and when one selects a thread, as `Admits` has it |
| `ThreadScope.OwnIsInScope` | modules/agents/src/lib.rs:1211-1245 | in every run a message that has no method, names no thread or names the followed one is in scope, unless it starts an ephemeral thread |
| `ThreadScope.FirstIsInScope` | modules/agents/src/lib.rs:1211-1245 | in every run a message is in scope while no thread is followed, unless and only unless it starts an ephemeral thread |
| `ThreadScope.OtherIsInScopeExactly` | modules/agents/src/lib.rs:1211-1245 | in every run a message that names another thread than the followed one is in scope if and only if it starts a lasting thread and a request for one is pending; its thread is then followed |
| `ThreadScope.EphemeralStartIsOutOfScope` | modules/agents/src/lib.rs:1211-1222 | in every run the start of an ephemeral thread is out of scope |
| `ThreadScope.FollowedExactly` | modules/agents/src/lib.rs:1361-1433 | in every run the thread followed after a message is, in this order, the one whose lasting start is in scope, the one a matched resume gives, the one an admitted start names, the one a matched new thread has, or the one followed before |
| `ThreadScope.RequestFollows` | modules/agents/src/lib.rs:1140-1174 | in every run a resume makes its thread followed at once, and no other request changes what is followed |
| `ThreadScope.AskedIsRemembered` | modules/agents/src/lib.rs:1140-1205 | in every run a request for a new thread is remembered until a message under its id comes or eight more are asked for |
| `ThreadScope.CodexThreadScope.ObserveResumed` | modules/agents/src/lib.rs:1276-1286 | a matched resume response leaves the queue and selects its thread |
| `ThreadScope.CodexThreadScope.TakeFirst` | modules/agents/src/lib.rs:1183-1190 | removes the first matching request and no other |
| `ThreadScope.FactsAreScoped` | modules/agents/src/lib.rs:1361-1433 | in every run the facts drawn from a notification belong to the thread followed when they are published, if and only if the message speaks of one thread |
| `ThreadScope.NotificationsAreScoped` | modules/agents/src/lib.rs:1361-1433 | so they always do from a server whose notifications and requests carry no result and name the thread they say has started |
| `ThreadScope.MixedFacts` | modules/agents/src/lib.rs:1374-1433 | a message with the id of a pending resume that names another thread has its facts published while that other one is followed |
| `ThreadScope.SelectedOnGrounds` | modules/agents/src/lib.rs:1139-1245 | in every run a followed thread was resumed by the client or reported as lasting |
| `ThreadScope.EphemeralIsNeverSelected` | modules/agents/src/lib.rs:1139-1245 | a thread only ever reported as ephemeral is never followed unless the client resumes it |
| `ThreadScope.MatchesAreBounded` | modules/agents/src/lib.rs:1176-1286 | in every run each request, of either kind, is matched at most once, and one still pending was not matched |
| `ThreadScope.MatchedExactly` | modules/agents/src/lib.rs:1176-1286 | a message takes a request out of a queue if and only if its id waits there, whether or not it has a method |
| `ThreadScope.CrossedIdLosesResponse` | modules/agents/src/lib.rs:1176-1205 | a request of the server's under the id of a pending start takes that start out of the queue, and the thread then started is not followed |
| `ThreadScope.OnlyResponsesMatch` | modules/agents/src/lib.rs:1176-1286 | in every run in which no message with a method has the id of an earlier request of the client, only responses are matched |
| `ThreadScope.MatchedTwiceExactly` | modules/agents/src/lib.rs:1176-1286 | a response is matched to two requests if and only if its id waits in both queues |
| `ThreadScope.ReusedIdMatchesTwice` | modules/agents/src/lib.rs:1176-1286 | which happens when a client starts and resumes under one id |
| `ThreadScope.DistinctIdsMatchOnce` | modules/agents/src/lib.rs:1176-1286 | and never when the ids of its requests are distinct |
| `ThreadScope.PendingIsBounded` | modules/agents/src/lib.rs:1130-1274 | at most 8 requests of either kind are pending in any run |
| `SubagentRoster.AgentSubagentRoster.constructor` | modules/agents/src/subagents.rs:66-70 | a new roster is empty |
| `SubagentRoster.AgentSubagentRoster.Clear` | modules/agents/src/subagents.rs:77-82 | empties the roster and says whether it showed anything |
| `SubagentRoster.AgentSubagentRoster.Apply` | modules/agents/src/subagents.rs:85-155 | the children and the waiting launches after any update, and whether the children changed |
| `SubagentRoster.AgentSubagentRoster.StartChild` | modules/agents/src/subagents.rs:97-102 | an unknown child is added with its type and the description of a launch, if there is room; the launch is used up in any case |
| `SubagentRoster.AgentSubagentRoster.NoteActivity` | modules/agents/src/subagents.rs:103-117 | the child of that key has its type filled in and its activity recorded, the others unchanged |
| `SubagentRoster.AgentSubagentRoster.Describe` | modules/agents/src/subagents.rs:118-122 | the description is recorded on the child of that key, the others unchanged |
| `SubagentRoster.AgentSubagentRoster.Stop` | modules/agents/src/subagents.rs:123-125 | exactly the child of that key leaves; the others stay as they are, in order |
| `SubagentRoster.AgentSubagentRoster.TakeInventory` | modules/agents/src/subagents.rs:126-153 | retains the listed children and completes or adds each listed one |
| `SubagentRoster.AgentSubagentRoster.TakeLaunchDescription` | modules/agents/src/subagents.rs:157-164 | takes the first launch of the type, or else the first |
| `SubagentRoster.AgentSubagentRoster.Upsert` | modules/agents/src/subagents.rs:184-190 | the place of the child, added without a type and with the description of a launch if it is unknown and there is room |
| `SubagentRoster.InventoryIsShown` | modules/agents/src/subagents.rs:126-153 | after an inventory the roster shows exactly the listed keys, whatever it showed before, if and only if at most 16 are listed; the survivors come first, in the order they had, with the times they started |
| `SubagentRoster.AppliedKeeps` | modules/agents/src/subagents.rs:85-155 | apart from a stop or an inventory no child is lost, moved or restarted; a stop drops exactly its own key |
| `SubagentRoster.RosterIsBounded` | modules/agents/src/subagents.rs:85-190 | after any updates keys are distinct, at most 16 children are shown and at most 8 launches wait |
| `SubagentRoster.DescriptionsAreGiven` | modules/agents/src/subagents.rs:85-190 | in every run a description shown was given for that child by an update or a listing, or came with a launch |
| `SubagentHistory.ShownExactly` | modules/agents/src/subagents.rs:85-190 | a child is shown after an update exactly when it was and is neither stopped nor missing from an inventory, or it starts or is listed while fewer than 16 are placed |
| `SubagentHistory.ToldExactly` | modules/agents/src/subagents.rs:85-190 | what is shown of a child is what was shown and what the update says of it: its first type, its last activity, its description and the time it started; a start says nothing of a child that is shown |
| `SubagentHistory.HistoryIsShown` | modules/agents/src/subagents.rs:85-190 | in every run a child that has been shown since an event shows the time of that event, the first type and the last activity given since, and its description |
| `SubagentHistory.RunShowsExactly` | modules/agents/src/subagents.rs:85-190 | at every moment of every run exactly those are shown |
| `SubagentHistory.LaunchIsTaken` | modules/agents/src/subagents.rs:157-164 | a starting child takes the description of the first launch of its type, or of the first if there is none, and only that launch is used up |
| `SubagentHistory.LaunchesAreUsed` | modules/agents/src/subagents.rs:85-190 | only an unknown child that starts uses a launch up, whether or not there is room for it |
| `SubagentHistory.LastLaunchesWait` | modules/agents/src/subagents.rs:88-95 | the last eight launches wait, in order |
| `WriteLedger.GhosttyConsumedWriteLedger.constructor` | clients/ghostty-host/src/surfaces.ts:33-35 | a new ledger waits for nothing |
| `WriteLedger.GhosttyConsumedWriteLedger.Enqueue` | clients/ghostty-host/src/surfaces.ts:36-50 | the write goes to the back |
| `WriteLedger.GhosttyConsumedWriteLedger.Reject` | clients/ghostty-host/src/surfaces.ts:44-48 | exactly that write leaves, and is rejected |
| `WriteLedger.GhosttyConsumedWriteLedger.Consume` | clients/ghostty-host/src/surfaces.ts:52-65 | what is left and what is resolved, in order |
| `WriteLedger.GhosttyConsumedWriteLedger.RejectAll` | clients/ghostty-host/src/surfaces.ts:67-69 | every pending write is rejected, in order |
| `WriteLedger.SplitReports` | clients/ghostty-host/src/surfaces.ts:52-65 | splitting one report into several changes nothing |
| `WriteLedger.BytesAreConserved` | clients/ghostty-host/src/surfaces.ts:52-65 | after a report the pending bytes are fewer by those reported; a surplus is discarded |
| `WriteLedger.RunConserves` | clients/ghostty-host/src/surfaces.ts:36-65 | over any run of writes, reports and rejections, every byte enqueued is pending, was credited once, or was withdrawn with its write |
| `WriteLedger.ResolvedFirstToLast` | clients/ghostty-host/src/surfaces.ts:52-65 | one report resolves writes from the front, and leaves the others in order |
| `WriteLedger.RunKeepsOrder` | clients/ghostty-host/src/surfaces.ts:36-65 | over any run the writes resolved and then those pending stand in the order they were enqueued, none twice |
| `WriteLedger.RunKeepsAll` | clients/ghostty-host/src/surfaces.ts:36-65 | without rejections they are all the writes there were |
| `WriteLedger.ResolvedOnCredit` | clients/ghostty-host/src/surfaces.ts:52-65 | over any run of non-empty writes without rejections a write is resolved exactly when the bytes credited reach its end |
| `WriteLedger.ResolvedExactly` | clients/ghostty-host/src/surfaces.ts:52-65 | a write is resolved exactly when the report reaches its end and goes beyond what is ahead of it |

## Findings

- A paste can be repeated, also by an observed session: see the race above.
- A repaired rollout can keep a wrong ordinal. A record with a second `ordinal`
  key that the search for the unspaced key does not see, and that comes last, is
  rewritten but reads as before: `SpacedKeyMisleads`, also with records that are
  otherwise as the repair asks for them: `RecordsMislead`. `RepairNumbersExactly`
  states the exact condition.
- One response can be matched to two requests of a client that reuses an id:
  `ReusedIdMatchesTwice`, with the exact condition in `MatchedTwiceExactly`.
- A request of the server's that has the id of a pending start of the client takes
  that start out of the queue: `CrossedIdLosesResponse`, with the exact condition
  in `MatchedExactly`.
- Facts of one thread can be published while another is followed, from a message
  that has both a method and the result of a resume: `MixedFacts`, with the
  exact condition in `FactsAreScoped`.
- In the ledger an empty write is not resolved by a report that ends just before
  it, only by the next byte reported (`ResolvedExactly`). Its caller enqueues no
  empty write (clients/ghostty-host/src/surfaces.ts:158), so `ResolvedOnCredit`
  is what it relies on.
- A line of exactly the window's size is read when it starts the file and is
  reported as omitted anywhere else: `WindowSizedLine`.

## Left out

- Weak memory: flags are read and written one at a time, sequentially consistently.
- Identity saturation: the run theorems hold while fewer than 2^64 - 1 deliveries were ever begun (`Unsaturated`); beyond that the program's own counter repeats an identity.
- Liveness: nothing is claimed about a worker that never moves again or a provider that never answers. `DeliveryReach` and `SessionReach` prove that a delivery can be completed from every such state, and `DeliveryStops` that a dismissed worker ends by its own moves.
- `SessionReach.FrontIsDelivered`: while one more delivery and two more signals can be numbered below 2^64; `SessionReach.QueueDrains` likewise for each submission that waits.
- Terminal, pseudo-terminal and thread creation: they appear only as what they answer. The worker's waits for output activity and for the composer's rendering are one step with any answer.
- JSON: `RolloutReader` reads tokens, and of several `ordinal` keys takes the last. Which tokens make a record, and what it says apart from its ordinal, is left to `judge`, any function of the tokens without the ordinal's value. Elsewhere a line reads as whatever `parse` says.
- `contains_ordinal_key`, `identifies_conversation` and the selection of visible text: simple recursions over JSON values, represented by the result of `parse`.
- `ConversationReader.ParsePage`: the file does not change while a page is read, and a message's text is no longer than `CapText` leaves it.
- `ConversationReader.ReadPage`: does not model discovery of the file or the check of its identity.
- `ObservedSession.ObservedSession.Hook`: does not model the normalisation of hook payloads, the native identity it may carry, or the constant time of the token comparison.
- `ObservedSession.ObservedSession.Close`: does not model the reaping of the Codex runtime and its failure.
- `SessionOrder.PastesInOrder`: up to the first overtaking action, as explained above.
- `SessionRace.OvertakingDisorders`: while two more signals and one more delivery can be numbered below 2^64 - 1; `SessionRace.DisordersExactly` and `DeliveryReplay.ReplaysExactly` likewise.
- `Ingress.RateIsBounded`: for a session that stays tracked; a clock that goes back starts a new window, as the program intends.
- Floating point: `TimeMap` and what follows from it use exact reals, and the emitted formula is a tree of numbers, not its text with 9 or 12 digits.
- Backup and atomic replacement of the repaired rollout, and the probe that finds the damage.
- Provider catalogues, permission mappings, settings, push relay and history buffers: finite tables and simple bounds.
