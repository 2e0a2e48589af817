/**
No text is pasted twice: when the protocol guarantees it, and the one race in
which it does not.

`can_begin_pending_submission` lets Core start a submission again after a
cancelled delivery whose `paste_started` is still unset. The worker reads
`cancel_submit` first and sets `paste_started` afterwards, so a delivery can be
retired in between, while its worker still goes on to paste.
 */
module DeliveryReplay {
  import opened Common
  import opened DeliveryRecord
  import opened DeliveryWorker
  import opened DeliveryLaws
  import opened DeliveryProtocol
  import opened DeliverySafety
  import T = DeliveryTable

  /** The step from `s` to `t` retires a delivery between its worker's cancellation check and its paste. */
  ghost predicate Overtakes(s: System, t: System, k: nat) {
    && k < |s.workers| && k < |s.fates| && k < |t.fates|
    && s.fates[k].None? && t.fates[k].Some? && InWindow(s.workers[k].pc)
  }

  ghost predicate Overtaking(s: System, t: System) { exists k: nat :: Overtakes(s, t, k) }

  /** The step hands the terminal the paste of the b-th delivery. */
  ghost predicate HandsPaste(s: System, t: System, b: nat) {
    b < |t.workers| && t.workers[b].Pasted() && (b < |s.workers| ==> !s.workers[b].Pasted())
  }

  /** The delivery is over: confirmed, handed back to the user, removed, evicted, or replaced after one of these. */
  ghost predicate Released(s: System, k: nat)
    requires k < |s.workers| && k < |s.fates|
  {
    if s.fates[k].Some? then s.fates[k].value.Superseded? ==> s.fates[k].value.state.AcceptsReplacement()
    else var sid := s.workers[k].session; sid in s.core.deliveries && s.core.deliveries[sid].state.AcceptsReplacement()
  }

  /** The paste of `b` follows that of an earlier delivery of the same session that is not over. */
  ghost predicate Replays(s: System, t: System, a: nat, b: nat) {
    && HandsPaste(s, t, b)
    && a != b && a < |s.workers| && a < |t.workers| && a < |t.fates|
    && t.workers[a].session == t.workers[b].session && s.workers[a].Pasted() && t.workers[a].Pasted()
    && !Released(t, a)
  }

  /** A delivery without a record is outside the window, and was released if it had pasted. */
  ghost predicate RetiredOk(s: System, k: nat)
    requires k < |s.workers| && k < |s.fates|
  {
    s.fates[k].Some? ==> !InWindow(s.workers[k].pc) && (s.workers[k].Pasted() ==> Released(s, k))
  }

  ghost predicate AllRetiredOk(s: System) {
    |s.workers| == |s.fates| && forall k :: 0 <= k < |s.workers| ==> RetiredOk(s, k)
  }

  lemma BegunWas(c: T.Core, l: Label, d: T.Core)
    requires T.Valid(c) && l.Begins? && l.sid in c.deliveries && d != c
    requires d == T.Begin(c, l.sid, l.epoch, l.baseline, l.submission, l.settlement, l.terminal).0
    ensures c.deliveries[l.sid].state.AcceptsReplacement() || !T.SlotOf(c, l.sid).signals.pasteStarted
  {
    T.BeginInserts(c, l.sid, l.epoch, l.baseline, l.submission, l.settlement, l.terminal);
  }

  lemma BlockedWas(c: T.Core, l: Label, d: T.Core)
    requires T.Valid(c) && l.Blocks? && l.sid in c.deliveries && !c.deliveries[l.sid].state.WritingPaste? && d != c
    requires d == T.Block(c, l.sid, l.epoch, l.baseline, l.submission, l.cause, l.notification).0
    ensures c.deliveries[l.sid].state.AcceptsReplacement()
  {
    T.BlockInserts(c, l.sid, l.epoch, l.baseline, l.submission, l.cause, l.notification);
  }

  /** A delivery that is replaced was on record, and is replaced by an insertion. */
  lemma SupersededWas(s: System, l: Label, k: nat, c: T.Core)
    requires Inv(s) && Enabled(s, l) && !l.WorkerMoves? && k < |s.workers| && s.fates[k].None? && c == CoreAfter(s, l)
    requires FateAfter(s, l, c, k).Some? && FateAfter(s, l, c, k).value.Superseded?
    ensures (l.Begins? || l.Blocks?) && Touches(s, l).None? && c != s.core && Held(s.core, l.sid, k)
    ensures FateAfter(s, l, c, k).value.state == s.core.deliveries[l.sid].state
  {
    assert FateOk(s, k);
    if Touches(s, l).Some? { TouchOk(s, l); }
  }

  /**
  Once `paste_started` is set, Core begins no submission again: whatever it
  overtakes there was over, or is removed or evicted.
   */
  lemma MarkedIsNotBegunAgain(s: System, l: Label, k: nat)
    requires Inv(s) && Enabled(s, l) && !l.WorkerMoves? && k < |s.workers|
    requires s.fates[k].None? && s.core.signals[k].pasteStarted
    requires FateAfter(s, l, CoreAfter(s, l), k).Some? && FateAfter(s, l, CoreAfter(s, l), k).value.Superseded?
    ensures FateAfter(s, l, CoreAfter(s, l), k).value.state.AcceptsReplacement()
  {
    var c := CoreAfter(s, l);
    SupersededWas(s, l, k, c);
    if l.Begins? { BegunWas(s.core, l, c); } else { BlockedWas(s.core, l, c); }
  }

  /** Core replaces a delivery only once it is over, or before it ever started to paste. */
  lemma SupersededOk(s: System, l: Label, k: nat)
    requires Inv(s) && Enabled(s, l) && k < |s.workers|
    requires s.fates[k].None? && !l.WorkerMoves?
    requires FateAfter(s, l, CoreAfter(s, l), k).Some? && FateAfter(s, l, CoreAfter(s, l), k).value.Superseded?
    ensures FateAfter(s, l, CoreAfter(s, l), k).value.state.AcceptsReplacement() || !s.workers[k].Pasted()
  {
    assert WorkerOk(s.workers[k], s.core.signals[k]);
    if s.core.signals[k].pasteStarted { MarkedIsNotBegunAgain(s, l, k); }
  }

  lemma RetiredStays(s: System, l: Label, t: System, k: nat)
    requires Frame(s, l, t, k) && s.fates[k].Some? && RetiredOk(s, k)
    requires s.core.signals[k].cancel || !CanPaste(s.workers[k].pc)
    ensures RetiredOk(t, k)
  {
    if t.workers[k] != s.workers[k] {
      MoveContinues(s.workers[k], s.core.signals[k], l.reply);
    }
  }

  lemma RetiresOk(s: System, l: Label, k: nat)
    requires Inv(s) && Enabled(s, l) && k < |s.workers| && s.fates[k].None?
    requires k < |Step(s, l).workers| && k < |Step(s, l).fates|
    requires !Overtakes(s, Step(s, l), k)
    ensures RetiredOk(Step(s, l), k)
  {
    StepFrame(s, l, k);
    var t := Step(s, l);
    if t.fates[k].Some? {
      assert t.fates[k] == FateAfter(s, l, CoreAfter(s, l), k);
      if t.fates[k].value.Superseded? { SupersededOk(s, l, k); }
    }
  }

  lemma StepKeepsRetired1(s: System, l: Label, t: System, k: nat)
    requires Inv(s) && Enabled(s, l) && AllRetiredOk(s) && t == Step(s, l) && !Overtaking(s, t)
    requires k < |s.workers|
    ensures k < |t.workers| && k < |t.fates| && RetiredOk(t, k)
  {
    StepFrame(s, l, k);
    assert FateOk(s, k) && !Overtakes(s, t, k);
    if s.fates[k].Some? { RetiredStays(s, l, t, k); } else { RetiresOk(s, l, k); }
  }

  lemma StepKeepsRetired(s: System, l: Label, t: System)
    requires Inv(s) && Enabled(s, l) && AllRetiredOk(s) && t == Step(s, l) && !Overtaking(s, t)
    requires |t.fates| == |t.workers| >= |s.workers|
    ensures AllRetiredOk(t)
  {
    forall k | 0 <= k < |s.workers| ensures RetiredOk(t, k) { StepKeepsRetired1(s, l, t, k); }
    if |t.workers| > |s.workers| { NewIsHeld(s, l); }
  }

  lemma NewIsHeld(s: System, l: Label)
    requires WellFormed(s) && Enabled(s, l) && |Step(s, l).workers| > |s.workers|
    ensures |Step(s, l).fates| == |s.workers| + 1 == |Step(s, l).workers| && Step(s, l).fates[|s.workers|].None?
  {
  }

  /** A delivery whose paste is handed over is on record. */
  lemma PasterIsHeld(s: System, l: Label, b: nat)
    requires Inv(s) && Enabled(s, l) && AllRetiredOk(s) && HandsPaste(s, Step(s, l), b)
    ensures b < |Step(s, l).fates| && Step(s, l).fates[b].None?
  {
    if b < |s.workers| {
      StepFrame(s, l, b);
      MoveContinues(s.workers[b], s.core.signals[b], l.reply);
      assert RetiredOk(s, b) && FateOk(s, b);
    } else {
      NewIsHeld(s, l);
    }
  }

  /** Two deliveries of one session are never both on record. */
  lemma OneHeld(t: System, a: nat, b: nat)
    requires Inv(t) && a < |t.workers| && b < |t.workers| && a != b
    requires t.workers[a].session == t.workers[b].session && t.fates[b].None?
    ensures t.fates[a].Some?
  {
    assert FateOk(t, a) && FateOk(t, b);
  }

  ghost predicate OvertakingAt(states: seq<System>, i: nat)
    requires i + 1 < |states|
  {
    Overtaking(states[i], states[i + 1])
  }

  lemma RetiredNext(states: seq<System>, labels: seq<Label>, n: nat)
    requires IsRun(states, labels) && n < |labels| && Unsaturated(states[n + 1]) && !OvertakingAt(states, n)
    requires AllRetiredOk(states[n])
    ensures AllRetiredOk(states[n + 1])
  {
    WorkersGrow1(states, labels, n);
    RunKeepsInv(states, labels, n);
    RunKeepsInv(states, labels, n + 1);
    assert NextAt(states, labels, n);
    StepKeepsRetired(states[n], labels[n], states[n + 1]);
  }

  lemma {:induction false} RunKeepsRetired(states: seq<System>, labels: seq<Label>, n: nat)
    requires IsRun(states, labels) && n < |states| && Unsaturated(states[n])
    requires forall i :: 0 <= i < n ==> !OvertakingAt(states, i)
    ensures AllRetiredOk(states[n])
  {
    if n > 0 {
      WorkersGrow1(states, labels, n - 1);
      RunKeepsRetired(states, labels, n - 1);
      RetiredNext(states, labels, n - 1);
    }
  }

  lemma StepDoesNotReplay(s: System, l: Label, a: nat, b: nat)
    requires Inv(s) && Enabled(s, l) && |s.workers| < U64_MAX && AllRetiredOk(s) && AllRetiredOk(Step(s, l))
    ensures !Replays(s, Step(s, l), a, b)
  {
    var t := Step(s, l);
    if Replays(s, t, a, b) {
      StepKeepsInv(s, l);
      assert RetiredOk(t, a);
      PasterIsHeld(s, l, b);
      OneHeld(t, a, b);
    }
  }

  /** In a run without overtaking steps, no paste follows an earlier one that is not over. */
  lemma NoReplay(states: seq<System>, labels: seq<Label>, n: nat, a: nat, b: nat)
    requires IsRun(states, labels) && n < |labels| && Unsaturated(states[n + 1])
    requires forall i :: 0 <= i <= n ==> !OvertakingAt(states, i)
    ensures !Replays(states[n], states[n + 1], a, b)
  {
    WorkersGrow1(states, labels, n);
    RunKeepsInv(states, labels, n);
    RunKeepsRetired(states, labels, n);
    RunKeepsRetired(states, labels, n + 1);
    assert NextAt(states, labels, n);
    StepDoesNotReplay(states[n], labels[n], a, b);
  }

  /**
  If the check and the mark were one step, no submission would be begun again in
  the window: past its mark, a worker is overtaken only by a removal, by an
  eviction, or by the replacement of a delivery that is over.
   */
  lemma AtomicMarkIsNotBegunAgain(states: seq<System>, labels: seq<Label>, n: nat, k: nat)
    requires IsRun(states, labels) && n < |labels| && Unsaturated(states[n])
    requires Overtakes(states[n], states[n + 1], k) && states[n].workers[k].pc != Pasting(PasteMark)
    ensures states[n + 1].fates[k].value.Superseded? ==> states[n + 1].fates[k].value.state.AcceptsReplacement()
  {
    RunKeepsInv(states, labels, n);
    assert NextAt(states, labels, n);
    RetiringLabel(states[n], labels[n], k);
    MarkedAt(states[n], labels[n], k);
  }

  lemma FateOfStep(s: System, l: Label, k: nat)
    requires WellFormed(s) && Enabled(s, l) && !l.WorkerMoves? && k < |s.workers|
    ensures k < |Step(s, l).fates| && Step(s, l).fates[k] == FateAfter(s, l, CoreAfter(s, l), k)
  {
  }

  lemma WriterIsMarked(s: System, k: nat)
    requires Inv(s) && k < |s.workers| && s.workers[k].pc == Pasting(PasteWrite)
    ensures s.core.signals[k].pasteStarted
  {
    assert WorkerOk(s.workers[k], s.core.signals[k]);
  }

  lemma MarkedAt(s: System, l: Label, k: nat)
    requires Inv(s) && Enabled(s, l) && !l.WorkerMoves? && k < |s.workers|
    requires s.fates[k].None? && s.workers[k].pc == Pasting(PasteWrite)
    ensures k < |Step(s, l).fates|
    ensures var f := Step(s, l).fates[k]; f.Some? && f.value.Superseded? ==> f.value.state.AcceptsReplacement()
  {
    FateOfStep(s, l, k);
    WriterIsMarked(s, k);
    var f := Step(s, l).fates[k];
    if f.Some? && f.value.Superseded? { MarkedIsNotBegunAgain(s, l, k); }
  }

  /** From its check on to its paste a worker is not interrupted: whoever is in the window moves next. */
  ghost predicate PastesAtomically(states: seq<System>, labels: seq<Label>, n: nat)
    requires n <= |labels| < |states|
  {
    forall i, k :: 0 <= i < n && 0 <= k < |states[i].workers| && InWindow(states[i].workers[k].pc) ==>
      labels[i].WorkerMoves? && labels[i].cell == k
  }

  lemma UninterruptedIsCalm(s: System, l: Label, t: System)
    requires Inv(s) && Enabled(s, l) && t == Step(s, l)
    requires forall k :: 0 <= k < |s.workers| && InWindow(s.workers[k].pc) ==> l.WorkerMoves?
    ensures !Overtaking(s, t)
  {
    forall k: nat ensures !Overtakes(s, t, k) {
      if Overtakes(s, t, k) { RetiringLabel(s, l, k); }
    }
  }

  /** In such a run nobody is ever overtaken. */
  lemma AtomicPasteIsNotOvertaken(states: seq<System>, labels: seq<Label>, n: nat)
    requires IsRun(states, labels) && n < |labels| && Unsaturated(states[n]) && PastesAtomically(states, labels, n + 1)
    ensures !OvertakingAt(states, n)
  {
    RunKeepsInv(states, labels, n);
    assert NextAt(states, labels, n);
    UninterruptedIsCalm(states[n], labels[n], states[n + 1]);
  }

  /** And no paste is ever repeated. */
  lemma AtomicPasteIsNotRepeated(states: seq<System>, labels: seq<Label>, n: nat, a: nat, b: nat)
    requires IsRun(states, labels) && n < |labels| && Unsaturated(states[n + 1])
    requires PastesAtomically(states, labels, n + 1)
    ensures !Replays(states[n], states[n + 1], a, b)
  {
    forall i | 0 <= i <= n ensures !OvertakingAt(states, i) {
      WorkersGrowAlong(states, labels, i, n + 1);
      AtomicPasteIsNotOvertaken(states, labels, i);
    }
    NoReplay(states, labels, n, a, b);
  }

  // ----- the race -----

  const FINE := Reply(Fine, 0, 0)

  /** A terminal that accepts everything. */
  const WILLING := T.Terminal(Some(InputActivity(0, 0)), true, true, true, true)

  /** One delivery is about to paste although another of its session has pasted and is not over. */
  ghost predicate Poised(t: System, k: nat, c: nat) {
    && Inv(t) && k < |t.workers| && c < |t.workers| && k != c
    && t.workers[c].session == t.workers[k].session && t.workers[c].epoch == t.workers[k].epoch
    && InWindow(t.workers[k].pc) && t.workers[c].Pasted() && t.fates[c].None?
    && Held(t.core, t.workers[c].session, c) && t.core.deliveries[t.workers[c].session].state.WritingPaste?
  }

  /** What a step of the k-th worker changes. */
  lemma WorkerStepIs(t: System, k: nat, m: Moved)
    requires WellFormed(t) && k < |t.workers| && m == Move(t.workers[k], t.core.signals[k], FINE)
    ensures var u := Step(t, WorkerMoves(k, FINE));
            && u.workers == t.workers[k := m.worker] && u.fates == t.fates && u.core.deliveries == t.core.deliveries
  {
  }

  lemma MarkMoves(w: Worker, g: Signals)
    requires w.pc == Pasting(PasteMark)
    ensures Move(w, g, FINE).worker == w.(pc := Pasting(PasteWrite))
  {
  }

  lemma WriteMoves(w: Worker, g: Signals)
    requires w.pc == Pasting(PasteWrite)
    ensures Move(w, g, FINE).worker == w.(pc := Pasting(PasteReceipt), trace := Then(w.trace, PasteHanded))
  {
  }

  lemma PoisedMarks(t: System, k: nat, c: nat)
    requires Poised(t, k, c) && t.workers[k].pc == Pasting(PasteMark)
    ensures var u := Step(t, WorkerMoves(k, FINE));
            Poised(u, k, c) && u.workers[k].pc == Pasting(PasteWrite)
  {
    MarkMoves(t.workers[k], t.core.signals[k]);
    WorkerStepIs(t, k, Move(t.workers[k], t.core.signals[k], FINE));
    WorkerStepKeepsInv(t, WorkerMoves(k, FINE));
  }

  lemma PoisedReplays(t: System, k: nat, c: nat)
    requires Poised(t, k, c) && t.workers[k].pc == Pasting(PasteWrite)
    ensures var u := Step(t, WorkerMoves(k, FINE)); Replays(t, u, c, k) && u.workers[c].epoch == u.workers[k].epoch
  {
    WriteMoves(t.workers[k], t.core.signals[k]);
    WorkerStepIs(t, k, Move(t.workers[k], t.core.signals[k], FINE));
    assert WorkerOk(t.workers[k], t.core.signals[k]);
  }

  /** With room in the table and no record for the session, `begin` pastes at once. */
  lemma BeginPoises(t: System, k: nat)
    requires Inv(t) && |t.workers| < U64_MAX && k < |t.workers| && InWindow(t.workers[k].pc)
    requires t.workers[k].session !in t.core.deliveries && |t.core.deliveries| < T.MAX_RUNTIME_DELIVERIES
    ensures var w := t.workers[k];
            Poised(Step(t, Begins(w.session, w.epoch, 0, w.submission, OutputActivity, WILLING)), k, |t.workers|)
  {
    var w := t.workers[k];
    var l := Begins(w.session, w.epoch, 0, w.submission, OutputActivity, WILLING);
    StepKeepsInv(t, l);
    StepFrame(t, l, k);
    T.BeginInserts(t.core, w.session, w.epoch, 0, w.submission, OutputActivity, WILLING);
    CoreStepGrows(t, l, CoreAfter(t, l));
  }

  lemma RoomAfterRemoval(before: T.Core, c: T.Core, sid: SessionId)
    requires T.Valid(before) && T.Valid(c)
    requires sid in c.deliveries || (sid in before.deliveries && c == T.Remove(before, sid))
    ensures |T.Remove(c, sid).deliveries| < T.MAX_RUNTIME_DELIVERIES
  {
    T.DropKeepsValid(c, sid);
    T.DropKeepsValid(before, sid);
  }

  /** Only removing, replacing or evicting retires a delivery. */
  lemma RetiringLabel(s: System, l: Label, k: nat)
    requires Inv(s) && Enabled(s, l) && Overtakes(s, Step(s, l), k)
    ensures !l.WorkerMoves? && Touches(s, l).None? && CoreAfter(s, l) != s.core
  {
    if !l.WorkerMoves? && Touches(s, l).Some? {
      TouchOk(s, l);
      PutStep(s, l, Touches(s, l).value.0, Touches(s, l).value.1);
    } else if !l.WorkerMoves? && CoreAfter(s, l) == s.core {
      UnchangedStep(s, l);
    }
  }

  /** A removal retires only a session's delivery on record. */
  lemma RemovedWasHeld(s: System, l: Label, k: nat)
    requires Inv(s) && l.Removes? && Overtakes(s, Step(s, l), k)
    ensures l.sid in s.core.deliveries && CoreAfter(s, l) == T.Remove(s.core, l.sid)
  {
    var c := T.Remove(s.core, l.sid);
    RemoveLeaves(s, l, c);
    RemoveIsCoreStep(s, l, c);
    assert FateOk(s, k);
    if l.sid !in s.core.deliveries { assert Held(c, s.workers[k].session, k); }
  }

  /** After it, removing the record the step was about leaves room in the table. */
  lemma RetiringLeavesRoom(s: System, l: Label, k: nat)
    requires Inv(s) && Enabled(s, l) && Overtakes(s, Step(s, l), k)
    ensures l.Removes? || l.Begins? || l.Blocks?
    ensures T.Valid(Step(s, l).core)
    ensures |T.Remove(Step(s, l).core, l.sid).deliveries| < T.MAX_RUNTIME_DELIVERIES
  {
    RetiringLabel(s, l, k);
    CoreThins(s, l);
    if l.Removes? { RemovedWasHeld(s, l, k); }
    RoomAfterRemoval(s.core, CoreAfter(s, l), l.sid);
  }

  ghost predicate Steps(s: System, t: System) { exists l: Label :: Next(s, l, t) }

  /** A step that overtakes nobody. */
  ghost predicate StepsCalmly(s: System, t: System) { Steps(s, t) && !Overtaking(s, t) }

  /** `t` can follow `s` after `n` steps, none of which overtakes anybody. */
  ghost predicate Leads(s: System, t: System, n: nat)
    decreases n
  {
    if n == 0 then s == t else exists u: System :: Leads(s, u, n - 1) && StepsCalmly(u, t)
  }

  lemma Follow(s: System, l: Label)
    requires WellFormed(s) && Enabled(s, l)
    ensures Steps(s, Step(s, l))
  {
    assert Next(s, l, Step(s, l));
  }

  lemma LeadsOn(s: System, u: System, t: System, n: nat)
    requires Leads(s, u, n) && StepsCalmly(u, t)
    ensures Leads(s, t, n + 1)
  {
  }

  /** A step that keeps every fate overtakes nobody. */
  lemma FatesStay(s: System, t: System)
    requires s.fates <= t.fates
    ensures !Overtaking(s, t)
  {
  }

  lemma Mark(t: System, c: nat, k: nat) returns (u: System)
    requires Poised(t, k, c) && t.workers[k].pc == Pasting(PasteMark)
    ensures StepsCalmly(t, u) && Poised(u, k, c) && u.workers[k].pc == Pasting(PasteWrite)
    ensures |u.workers| == |t.workers|
  {
    Follow(t, WorkerMoves(k, FINE));
    PoisedMarks(t, k, c);
    WorkerStepIs(t, k, Move(t.workers[k], t.core.signals[k], FINE));
    u := Step(t, WorkerMoves(k, FINE));
    FatesStay(t, u);
  }

  lemma Paste(t: System, c: nat, k: nat) returns (u: System)
    requires Poised(t, k, c) && t.workers[k].pc == Pasting(PasteWrite)
    ensures StepsCalmly(t, u) && Replays(t, u, c, k) && u.workers[c].epoch == u.workers[k].epoch
    ensures |u.workers| == |t.workers|
  {
    Follow(t, WorkerMoves(k, FINE));
    PoisedReplays(t, k, c);
    WorkerStepIs(t, k, Move(t.workers[k], t.core.signals[k], FINE));
    u := Step(t, WorkerMoves(k, FINE));
    FatesStay(t, u);
  }

  /** Removing a session keeps every worker where it is. */
  lemma RemoveStep(t: System, sid: SessionId)
    requires WellFormed(t)
    ensures Step(t, Removes(sid)).workers == t.workers && Step(t, Removes(sid)).core == T.Remove(t.core, sid)
  {
    RemoveIsCoreStep(t, Removes(sid), T.Remove(t.core, sid));
  }

  /** The session has no record, or one whose worker is outside the window. */
  ghost predicate Removable(t: System, sid: SessionId) {
    sid in t.core.deliveries ==>
      var k := t.core.deliveries[sid].cell; k < |t.workers| && !InWindow(t.workers[k].pc)
  }

  lemma RemovalSpares(t: System, sid: SessionId, k: nat)
    requires Inv(t) && Removable(t, sid) && k < |t.workers| && InWindow(t.workers[k].pc)
    ensures FateAfter(t, Removes(sid), T.Remove(t.core, sid), k) == t.fates[k]
  {
    assert FateOk(t, k);
    T.RemoveThins(t.core, sid);
  }

  lemma RemovalOvertakesNobody(t: System, sid: SessionId, u: System)
    requires Inv(t) && Removable(t, sid) && u == Step(t, Removes(sid))
    ensures !Overtaking(t, u)
  {
    RemoveLeaves(t, Removes(sid), T.Remove(t.core, sid));
    forall k: nat ensures !Overtakes(t, u, k) {
      if k < |t.workers| && InWindow(t.workers[k].pc) {
        FateOfStep(t, Removes(sid), k);
        RemovalSpares(t, sid, k);
      }
    }
  }

  lemma RemoveSession(t: System, sid: SessionId, u: System)
    requires Inv(t) && Removable(t, sid) && u == Step(t, Removes(sid))
    ensures StepsCalmly(t, u) && Inv(u) && u.workers == t.workers && u.core == T.Remove(t.core, sid)
  {
    RemoveStep(t, sid);
    Follow(t, Removes(sid));
    RemoveKeepsInv(t, Removes(sid));
    RemovalOvertakesNobody(t, sid, u);
  }

  /** With room and no record for the session, `begin` leaves every other record as it is. */
  lemma BeginKeepsOthers(c: T.Core, l: Label, d: T.Core)
    requires T.Valid(c) && l.Begins? && l.sid !in c.deliveries && |c.deliveries| < T.MAX_RUNTIME_DELIVERIES
    requires d == T.Begin(c, l.sid, l.epoch, l.baseline, l.submission, l.settlement, l.terminal).0
    ensures forall sid :: sid in c.deliveries ==> sid in d.deliveries && d.deliveries[sid] == c.deliveries[sid]
  {
  }

  lemma BeginSpares(t: System, l: Label, k: nat, d: T.Core)
    requires Inv(t) && l.Begins? && k < |t.workers| && d == CoreAfter(t, l)
    requires forall sid :: sid in t.core.deliveries ==>
               sid in d.deliveries && d.deliveries[sid] == t.core.deliveries[sid]
    ensures !Overtakes(t, Step(t, l), k)
  {
    assert FateOk(t, k);
    FateOfStep(t, l, k);
  }

  lemma BeginOvertakesNobody(t: System, l: Label, u: System)
    requires Inv(t) && l.Begins? && l.sid !in t.core.deliveries && |t.core.deliveries| < T.MAX_RUNTIME_DELIVERIES
    requires u == Step(t, l)
    ensures !Overtaking(t, u)
  {
    BeginKeepsOthers(t.core, l, CoreAfter(t, l));
    forall k: nat ensures !Overtakes(t, u, k) {
      if k < |t.workers| { BeginSpares(t, l, k, CoreAfter(t, l)); }
    }
  }

  lemma BeginAgain(t: System, k: nat) returns (u: System)
    requires Inv(t) && |t.workers| < U64_MAX && k < |t.workers| && InWindow(t.workers[k].pc)
    requires t.workers[k].session !in t.core.deliveries && |t.core.deliveries| < T.MAX_RUNTIME_DELIVERIES
    ensures StepsCalmly(t, u) && Poised(u, k, |t.workers|) && |u.workers| == |t.workers| + 1
  {
    var w := t.workers[k];
    var l := Begins(w.session, w.epoch, 0, w.submission, OutputActivity, WILLING);
    Follow(t, l);
    BeginPoises(t, k);
    u := Step(t, l);
    BeginOvertakesNobody(t, l, u);
  }

  /** The k-th delivery was overtaken by a step about `sid`, whose record, if any, is new. */
  ghost predicate Overtaken(t: System, sid: SessionId, k: nat) {
    && Inv(t) && |t.workers| < U64_MAX && k < |t.workers| && t.fates[k].Some? && InWindow(t.workers[k].pc)
    && (t.workers[k].session == sid || t.workers[k].session !in t.core.deliveries)
    && Removable(t, sid) && |T.Remove(t.core, sid).deliveries| < T.MAX_RUNTIME_DELIVERIES
  }

  lemma OvertakenHasNoRecord(s: System, l: Label, k: nat, c: T.Core)
    requires Inv(s) && k < |s.workers| && s.fates[k].None? && (l.Removes? || l.Begins? || l.Blocks?)
    requires FateAfter(s, l, c, k).Some? && T.Thins(s.core, c)
    requires if l.Removes? then |c.signals| == |s.workers| && T.Valid(c) else T.Inserts(s.core, c, l.sid)
    ensures s.workers[k].session == l.sid || s.workers[k].session !in c.deliveries
  {
    assert FateOk(s, k);
  }

  lemma NewIsRemovable(s: System, l: Label, c: T.Core)
    requires Inv(s) && (l.Begins? || l.Blocks?) && T.Inserts(s.core, c, l.sid)
    ensures Removable(CoreStep(s, l, c), l.sid)
  {
    CoreStepGrows(s, l, c);
  }

  lemma RemovedIsRemovable(s: System, l: Label, c: T.Core)
    requires Inv(s) && l.Removes? && c == CoreAfter(s, l)
    ensures T.Valid(c) && T.Thins(s.core, c) && |c.signals| == |s.workers| && Removable(CoreStep(s, l, c), l.sid)
  {
    RemoveLeaves(s, l, T.Remove(s.core, l.sid));
    T.RemoveThins(s.core, l.sid);
  }

  lemma OvertakingLeaves(s: System, l: Label, k: nat, c: T.Core)
    requires Inv(s) && Enabled(s, l) && Overtakes(s, Step(s, l), k) && !l.WorkerMoves? && c == CoreAfter(s, l)
    ensures l.Removes? || l.Begins? || l.Blocks?
    ensures Removable(CoreStep(s, l, c), l.sid)
    ensures s.workers[k].session == l.sid || s.workers[k].session !in c.deliveries
  {
    RetiringLabel(s, l, k);
    CoreThins(s, l);
    FateOfStep(s, l, k);
    if l.Removes? { RemovedIsRemovable(s, l, c); } else { NewIsRemovable(s, l, c); }
    OvertakenHasNoRecord(s, l, k, c);
  }

  lemma OvertakenAfter(s: System, l: Label, k: nat, t: System)
    requires Inv(s) && Enabled(s, l) && t == Step(s, l) && Overtakes(s, t, k) && Inv(t) && |t.workers| < U64_MAX
    ensures (l.Removes? || l.Begins? || l.Blocks?) && Overtaken(t, l.sid, k)
  {
    RetiringLabel(s, l, k);
    RetiringLeavesRoom(s, l, k);
    StepFrame(s, l, k);
    OvertakingLeaves(s, l, k, CoreAfter(s, l));
  }

  /** An overtaken delivery can go on to replay, nobody else being overtaken. */
  lemma OvertakenReplays(t: System, sid: SessionId, k: nat) returns (n: nat, u: System, v: System, c: nat)
    requires Overtaken(t, sid, k)
    ensures Leads(t, u, n) && StepsCalmly(u, v) && Replays(u, v, c, k) && v.workers[c].epoch == v.workers[k].epoch
    ensures |v.workers| == |t.workers| + 1
  {
    T.RemoveThins(t.core, sid);
    var a := Step(t, Removes(sid));
    RemoveSession(t, sid, a);
    u := BeginAgain(a, k);
    c, n := |a.workers|, 2;
    assert Leads(t, t, 0);
    LeadsOn(t, t, a, 0);
    LeadsOn(t, a, u, 1);
    if u.workers[k].pc == Pasting(PasteMark) {
      var w := Mark(u, c, k);
      LeadsOn(t, u, w, 2);
      u, n := w, 3;
    }
    v := Paste(u, c, k);
  }

  /**
  Conversely, after any overtaking step the run can go on, without another one, to
  a replay in the same epoch.
   */
  lemma OvertakingReplays(states: seq<System>, labels: seq<Label>, i: nat, k: nat)
    returns (n: nat, u: System, v: System, c: nat)
    requires IsRun(states, labels) && i < |labels| && Unsaturated(states[i + 1])
    requires Overtakes(states[i], states[i + 1], k)
    ensures Leads(states[i + 1], u, n) && StepsCalmly(u, v)
    ensures Replays(u, v, c, k) && v.workers[c].epoch == v.workers[k].epoch
    ensures |v.workers| == |states[i + 1].workers| + 1
  {
    WorkersGrow1(states, labels, i);
    RunKeepsInv(states, labels, i);
    RunKeepsInv(states, labels, i + 1);
    assert NextAt(states, labels, i);
    OvertakenAfter(states[i], labels[i], k, states[i + 1]);
    n, u, v, c := OvertakenReplays(states[i + 1], labels[i].sid, k);
  }

  ghost predicate ReplaysAfter(s: System, n: nat, u: System, v: System, a: nat, b: nat) {
    Leads(s, u, n) && StepsCalmly(u, v) && Unsaturated(v) && Replays(u, v, a, b)
  }

  /** From there a run can repeat a paste, without overtaking anybody. */
  ghost predicate CanReplay(s: System) {
    exists n: nat, u: System, v: System, a: nat, b: nat :: ReplaysAfter(s, n, u, v, a, b)
  }

  lemma CalmGrows(s: System, t: System)
    requires StepsCalmly(s, t)
    ensures |s.workers| <= |t.workers|
  {
  }

  /** What is kept as long as nobody is overtaken. */
  ghost predicate Tidy(s: System) { Inv(s) && AllRetiredOk(s) }

  lemma CalmStep(s: System, t: System)
    requires Tidy(s) && StepsCalmly(s, t) && Unsaturated(s)
    ensures Tidy(t)
  {
    var l :| Next(s, l, t);
    StepKeepsInv(s, l);
    StepKeepsRetired(s, l, t);
  }

  lemma CalmDoesNotReplay(s: System, t: System, a: nat, b: nat)
    requires Tidy(s) && StepsCalmly(s, t) && Unsaturated(s) && Tidy(t)
    ensures !Replays(s, t, a, b)
  {
    var l :| Next(s, l, t);
    StepDoesNotReplay(s, l, a, b);
  }

  lemma {:induction false} LastStep(s: System, u: System, n: nat) returns (w: System, m: nat)
    requires n > 0 && Leads(s, u, n)
    ensures n == m + 1 && Leads(s, w, m) && StepsCalmly(w, u)
  {
    m := n - 1;
    w :| Leads(s, w, m) && StepsCalmly(w, u);
  }

  lemma LeadsNowhere(s: System, u: System)
    requires Leads(s, u, 0)
    ensures s == u
  {
  }

  lemma {:induction false} CalmKeeps(s: System, u: System, n: nat)
    requires Tidy(s) && Leads(s, u, n) && Unsaturated(u)
    ensures Tidy(u)
    decreases n
  {
    if n == 0 {
      LeadsNowhere(s, u);
    } else {
      var w, m := LastStep(s, u, n);
      CalmGrows(w, u);
      CalmKeeps(s, w, m);
      CalmStep(w, u);
    }
  }

  lemma {:induction false} TidyCannotReplay(s: System)
    requires Tidy(s)
    ensures !CanReplay(s)
  {
    forall n: nat, u: System, v: System, a: nat, b: nat ensures !ReplaysAfter(s, n, u, v, a, b) {
      if ReplaysAfter(s, n, u, v, a, b) {
        CalmGrows(u, v);
        CalmKeeps(s, u, n);
        CalmStep(u, v);
        CalmDoesNotReplay(u, v, a, b);
      }
    }
  }

  lemma RunStaysTidy(states: seq<System>, labels: seq<Label>, n: nat)
    requires IsRun(states, labels) && n <= |labels| && Unsaturated(states[n])
    requires forall m :: 0 <= m < n ==> !OvertakingAt(states, m)
    ensures Tidy(states[n])
  {
    RunKeepsInv(states, labels, n);
    RunKeepsRetired(states, labels, n);
  }

  lemma OvertakingCanReplay(states: seq<System>, labels: seq<Label>, i: nat)
    requires IsRun(states, labels) && i < |labels| && |states[i + 1].workers| + 1 < U64_MAX
    requires OvertakingAt(states, i)
    ensures CanReplay(states[i + 1])
  {
    var k: nat :| Overtakes(states[i], states[i + 1], k);
    var n, u, v, c := OvertakingReplays(states, labels, i, k);
    assert ReplaysAfter(states[i + 1], n, u, v, c, k);
  }

  /**
  Exactly the overtaking steps are to blame: after a step with nobody overtaken
  before, a paste can be repeated without overtaking anybody if and only if that
  step did.
   */
  lemma ReplaysExactly(states: seq<System>, labels: seq<Label>, i: nat)
    requires IsRun(states, labels) && i < |labels| && |states[i + 1].workers| + 1 < U64_MAX
    requires forall m :: 0 <= m < i ==> !OvertakingAt(states, m)
    ensures CanReplay(states[i + 1]) <==> OvertakingAt(states, i)
  {
    if OvertakingAt(states, i) {
      OvertakingCanReplay(states, labels, i);
    } else {
      RunStaysTidy(states, labels, i + 1);
      TidyCannotReplay(states[i + 1]);
    }
  }

  // ----- the race happens -----

  const SESSION := SessionId("session")
  const PROMPT := Submission("prompt", "template")

  /** One composer delivery, its worker at `pc` with nothing written and nothing cancelled. */
  ghost predicate OnlyWorkerAt(t: System, pc: Pc, state: State) {
    && Inv(t) && |t.workers| == 1 && t.workers[0].pc == pc && t.workers[0].session == SESSION && t.fates[0].None?
    && Held(t.core, SESSION, 0) && t.core.deliveries[SESSION].epoch == 1 && t.core.deliveries[SESSION].state == state
    && !t.core.signals[0].pasteStarted && t.core.signals[0].cancel == state.Blocked?
    && (state.Blocked? ==> t.core.deliveries[SESSION].failure == Some(ComposerUnavailable))
  }

  lemma FirstBegin() returns (t: System)
    ensures StepsCalmly(INITIAL, t) && OnlyWorkerAt(t, Pasting(WaitReady), WritingPaste)
  {
    var l := Begins(SESSION, 1, 0, PROMPT, ComposerRender, WILLING);
    Follow(INITIAL, l);
    StepKeepsInv(INITIAL, l);
    T.BeginInserts(INITIAL.core, SESSION, 1, 0, PROMPT, ComposerRender, WILLING);
    t := Step(INITIAL, l);
  }

  lemma WorkerAdvances(s: System, pc: Pc) returns (t: System)
    requires OnlyWorkerAt(s, pc, WritingPaste) && (pc == Pasting(WaitReady) || pc == Pasting(PasteCheck))
    ensures StepsCalmly(s, t)
    ensures OnlyWorkerAt(t, Pasting(if pc.paste.WaitReady? then PasteCheck else PasteMark), WritingPaste)
  {
    var l := WorkerMoves(0, FINE);
    Follow(s, l);
    WorkerStepKeepsInv(s, l);
    t := Step(s, l);
  }

  lemma CancelTouches(s: System, l: Label, x: Slot)
    requires OnlyWorkerAt(s, Pasting(PasteMark), WritingPaste)
    requires l == Blocks(SESSION, 1, 0, PROMPT, ProviderAwaitingInput, None)
    requires x == CancelForComposer(T.SlotOf(s.core, SESSION), ProviderAwaitingInput, None)
    ensures Touches(s, l) == Some((SESSION, x)) && PutPre(s, SESSION, x) && Step(s, l) == AfterPut(s, SESSION, x)
  {
    assert Touches(s, l) == Some((SESSION, x));
    TouchOk(s, l);
    PutStep(s, l, SESSION, x);
  }

  lemma CoreCancels(s: System) returns (t: System)
    requires OnlyWorkerAt(s, Pasting(PasteMark), WritingPaste)
    ensures StepsCalmly(s, t) && OnlyWorkerAt(t, Pasting(PasteMark), Blocked)
  {
    var l := Blocks(SESSION, 1, 0, PROMPT, ProviderAwaitingInput, None);
    var x := CancelForComposer(T.SlotOf(s.core, SESSION), ProviderAwaitingInput, None);
    Follow(s, l);
    CancelTouches(s, l, x);
    TouchKeepsInv(s, l);
    t := Step(s, l);
    CancelledStays(s, x, t);
    FatesStay(s, t);
  }

  lemma CancelledStays(s: System, x: Slot, t: System)
    requires OnlyWorkerAt(s, Pasting(PasteMark), WritingPaste) && PutPre(s, SESSION, x)
    requires x == CancelForComposer(T.SlotOf(s.core, SESSION), ProviderAwaitingInput, None)
    requires t == AfterPut(s, SESSION, x) && Inv(t)
    ensures OnlyWorkerAt(t, Pasting(PasteMark), Blocked) && t.fates == s.fates
  {
  }

  lemma InsertRetires(s: System, l: Label, c: T.Core, k: nat)
    requires l.Begins? && T.Inserts(s.core, c, l.sid) && k < |s.workers| == |s.fates| == |s.core.signals|
    requires s.workers[k].session == l.sid && s.fates[k].None? && Held(s.core, l.sid, k)
    ensures FateAfter(s, l, c, k) == Some(Superseded(s.core.deliveries[l.sid].state))
  {
  }

  lemma InsertSupersedes(s: System, l: Label, c: T.Core, k: nat)
    requires Inv(s) && l.Begins? && T.Inserts(s.core, c, l.sid)
    requires k < |s.workers| && s.workers[k].session == l.sid && s.fates[k].None? && Held(s.core, l.sid, k)
    ensures |CoreStep(s, l, c).fates| > k
    ensures CoreStep(s, l, c).fates[k] == Some(Superseded(s.core.deliveries[l.sid].state))
  {
    CoreStepGrows(s, l, c);
    InsertRetires(s, l, c, k);
  }

  lemma BeginIsAccepted(s: System, l: Label)
    requires OnlyWorkerAt(s, Pasting(PasteMark), Blocked)
    requires l == Begins(SESSION, 1, 0, PROMPT, ComposerRender, WILLING)
    ensures T.Inserts(s.core, CoreAfter(s, l), SESSION)
  {
    T.BeginInserts(s.core, SESSION, 1, 0, PROMPT, ComposerRender, WILLING);
  }

  /** Core starts the submission again although its worker is about to paste. */
  lemma CoreBeginsAgain(s: System) returns (t: System)
    requires OnlyWorkerAt(s, Pasting(PasteMark), Blocked)
    ensures Steps(s, t) && Overtakes(s, t, 0) && t.fates[0] == Some(Superseded(Blocked))
  {
    var l := Begins(SESSION, 1, 0, PROMPT, ComposerRender, WILLING);
    Follow(s, l);
    BeginIsAccepted(s, l);
    InsertSupersedes(s, l, CoreAfter(s, l), 0);
    t := Step(s, l);
  }

  /** The protocol does run into the race: a cancelled delivery is begun again inside the window. */
  lemma RaceIsReachable() returns (s: System, t: System)
    ensures Leads(INITIAL, s, 4) && Steps(s, t) && Overtakes(s, t, 0) && t.fates[0] == Some(Superseded(Blocked))
  {
    var a := FirstBegin();
    var b := WorkerAdvances(a, Pasting(WaitReady));
    var c := WorkerAdvances(b, Pasting(PasteCheck));
    s := CoreCancels(c);
    assert Leads(INITIAL, INITIAL, 0);
    LeadsOn(INITIAL, INITIAL, a, 0);
    LeadsOn(INITIAL, a, b, 1);
    LeadsOn(INITIAL, b, c, 2);
    LeadsOn(INITIAL, c, s, 3);
    t := CoreBeginsAgain(s);
  }
}
