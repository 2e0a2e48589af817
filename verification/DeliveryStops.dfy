/** How a worker comes to rest: what stops it, how soon, and that nothing else does. */
module DeliveryStops {
  import opened Common
  import opened DeliveryRecord
  import opened DeliveryWorker
  import opened DeliveryLaws
  import opened DeliveryProtocol
  import opened DeliverySafety
  import opened DeliveryAnswers
  import T = DeliveryTable

  predicate IsOver(w: Worker) { w.pc.Done? || w.pc.NoWorker? }

  /** Nobody waits for the worker: it was cancelled, or its submit was receipted, and Core no longer listens. */
  predicate IsDismissed(w: Worker, g: Signals) { !g.ack.Open? && (g.cancel || w.trace.Has(SubmitReceipted)) }

  /** The moves a dismissed worker has left, at most. */
  function Rank(w: Worker): nat
    requires w.pc.Submitting? ==> w.waits <= 8
  {
    match w.pc
    case NoWorker => 0
    case Done => 0
    case Reporting(_) => 2
    case Acking(p) => (match p case RetryGate => 4 case RetryEvidence => 3 case _ => 1)
    case Retrying(p) => (match p case RetryCancel => 21 case WindowCheck => 3 case _ => 1)
    case Submitting(p) => if p.SubmitReceipt? then 3 else (if p.SubmitWrite? then 4 else 5) + 2 * (8 - w.waits)
    case Settling(p) => if p.FirstWait? || p.LateWait? then 4 else 3
    case Pasting(p) =>
      (match p case PasteMark => 6 case PasteWrite => 5 case PasteReceipt => 4 case WaitReady => 4 case _ => 3)
  }

  ghost predicate Nears(w: Worker, v: Worker) {
    Knows(w) && Knows(v) && (if IsOver(w) then IsOver(v) else Rank(v) < Rank(w))
  }

  lemma PasteNears(w: Worker, g: Signals, r: Reply)
    requires AtPc(w) && Knows(w) && w.pc.Pasting? && g.cancel
    ensures Nears(w, MovePaste(w, g, r).worker)
  {
    PasteKnows(w, g, r);
  }

  lemma SettleNears(w: Worker, g: Signals, r: Reply)
    requires AtPc(w) && Knows(w) && w.pc.Settling? && g.cancel
    ensures Nears(w, MoveSettle(w, g, r).worker)
  {
    SettleKnows(w, g, r);
  }

  lemma SubmitNears(w: Worker, g: Signals, r: Reply)
    requires AtPc(w) && Knows(w) && w.pc.Submitting?
    ensures Nears(w, MoveSubmit(w, g, r).worker)
  {
    SubmitKnows(w, g, r);
  }

  lemma RetryNears(w: Worker, g: Signals, r: Reply)
    requires AtPc(w) && Knows(w) && (w.pc.Acking? || w.pc.Retrying?) && !g.ack.Open?
    ensures Nears(w, Move(w, g, r).worker)
  {
    RetryKnows(w, g, r);
  }

  /** Every move of a dismissed worker, whatever it is answered, brings it nearer its end. */
  lemma DismissedNears(w: Worker, g: Signals, r: Reply)
    requires AtPc(w) && Knows(w) && IsDismissed(w, g)
    ensures Nears(w, Move(w, g, r).worker)
  {
    if !g.cancel { ReceiptComesLate(w); }
    match w.pc
    case Pasting(_) => PasteNears(w, g, r);
    case Settling(_) => SettleNears(w, g, r);
    case Submitting(_) => SubmitNears(w, g, r);
    case Acking(_) => RetryNears(w, g, r);
    case Retrying(_) => RetryNears(w, g, r);
    case _ =>
  }

  lemma MoveStaysDismissed(w: Worker, g: Signals, r: Reply)
    requires IsDismissed(w, g)
    ensures IsDismissed(Move(w, g, r).worker, Move(w, g, r).signals)
  {
    MoveContinues(w, g, r);
  }

  // ----- runs -----

  /** How often the k-th worker moved between two moments. */
  function Moves(labels: seq<Label>, i: nat, j: nat, k: nat): nat
    requires i <= j <= |labels|
    decreases j
  {
    if i == j then 0
    else Moves(labels, i, j - 1, k) + if labels[j - 1].WorkerMoves? && labels[j - 1].cell == k then 1 else 0
  }

  ghost predicate Dismissed(s: System, k: nat) {
    k < |s.workers| && k < |s.core.signals| && IsDismissed(s.workers[k], s.core.signals[k])
  }

  lemma OwnMove(s: System, l: Label, k: nat)
    requires WellFormed(s) && Enabled(s, l) && l.WorkerMoves? && l.cell == k
    ensures k < |Step(s, l).workers| && k < |Step(s, l).core.signals|
    ensures var m := Move(s.workers[k], s.core.signals[k], l.reply);
            Step(s, l).workers[k] == m.worker && Step(s, l).core.signals[k] == m.signals
  {
  }

  lemma OtherMove(s: System, l: Label, t: System, k: nat)
    requires Frame(s, l, t, k) && !(l.WorkerMoves? && l.cell == k) && Dismissed(s, k)
    ensures Dismissed(t, k) && t.workers[k] == s.workers[k]
  {
  }

  lemma DismissedNext(s: System, l: Label, t: System, k: nat)
    requires Inv(s) && Next(s, l, t) && Dismissed(s, k) && Knows(s.workers[k])
    ensures Dismissed(t, k)
    ensures if l.WorkerMoves? && l.cell == k then Nears(s.workers[k], t.workers[k]) else t.workers[k] == s.workers[k]
  {
    StepFrame(s, l, k);
    if l.WorkerMoves? && l.cell == k {
      OwnMove(s, l, k);
      DismissedNears(s.workers[k], s.core.signals[k], l.reply);
      MoveStaysDismissed(s.workers[k], s.core.signals[k], l.reply);
    } else {
      OtherMove(s, l, t, k);
    }
  }

  /** After n moves. */
  ghost predicate NearsBy(w: Worker, v: Worker, n: nat) {
    Knows(w) && Knows(v) && (IsOver(v) || Rank(v) + n <= Rank(w))
  }

  lemma NearsMore(w: Worker, v: Worker, n: nat, u: Worker)
    requires NearsBy(w, v, n) && Nears(v, u)
    ensures NearsBy(w, u, n + 1)
  {
  }

  lemma DismissedAtStep(states: seq<System>, labels: seq<Label>, m: nat, k: nat)
    requires IsRun(states, labels) && m < |labels| && Unsaturated(states[m + 1]) && Dismissed(states[m], k)
    ensures Dismissed(states[m + 1], k)
    ensures var w, v := states[m].workers[k], states[m + 1].workers[k];
            Knows(w) && if labels[m].WorkerMoves? && labels[m].cell == k then Nears(w, v) else v == w
  {
    WorkersGrow1(states, labels, m);
    RunNext(states, labels, m);
    RunKeepsInv(states, labels, m);
    ReportsAreFull(states, labels, m, k);
    DismissedNext(states[m], labels[m], states[m + 1], k);
  }

  lemma {:induction false} DismissedNearsBy(states: seq<System>, labels: seq<Label>, i: nat, j: nat, k: nat)
    requires IsRun(states, labels) && i <= j < |states| && Unsaturated(states[j]) && Dismissed(states[i], k)
    ensures Dismissed(states[j], k)
    ensures NearsBy(states[i].workers[k], states[j].workers[k], Moves(labels, i, j, k))
    decreases j
  {
    if i == j {
      ReportsAreFull(states, labels, i, k);
    } else {
      WorkersGrow1(states, labels, j - 1);
      DismissedNearsBy(states, labels, i, j - 1, k);
      DismissedAtStep(states, labels, j - 1, k);
      if labels[j - 1].WorkerMoves? && labels[j - 1].cell == k {
        NearsMore(states[i].workers[k], states[j - 1].workers[k], Moves(labels, i, j - 1, k), states[j].workers[k]);
      }
    }
  }

  /**
  In every run a worker that was cancelled, or had its submit receipted, and that
  Core no longer listens to, is over after at most 21 more of its own moves,
  whatever it is answered.
   */
  lemma DismissedIsOver(states: seq<System>, labels: seq<Label>, i: nat, j: nat, k: nat)
    requires IsRun(states, labels) && i <= j < |states| && Unsaturated(states[j]) && Dismissed(states[i], k)
    ensures Dismissed(states[j], k) && (Moves(labels, i, j, k) >= 21 ==> IsOver(states[j].workers[k]))
  {
    DismissedNearsBy(states, labels, i, j, k);
  }

  /** A worker stops without a report only when Core no longer listens, or cancelled it before its first retry. */
  lemma StopsOnlyWhenTold(w: Worker, g: Signals, r: Reply)
    requires !IsOver(w) && IsOver(Move(w, g, r).worker)
    ensures w.pc.Reporting? || !g.ack.Open? || (g.cancel && w.pc == Acking(RetryGate))
  {
  }

  // ----- the shared receipt -----

  ghost predicate SharesReceipt(s: System, k: nat) {
    && k < |s.workers| && k < |s.core.signals|
    && (s.core.signals[k].submitReceipted <==> s.workers[k].trace.Has(SubmitReceipted))
  }

  lemma MoveShares(w: Worker, g: Signals, r: Reply)
    requires w.trace.Has(SubmitReceipted) ==> g.submitReceipted
    ensures Move(w, g, r).worker.trace.Has(SubmitReceipted) ==> Move(w, g, r).signals.submitReceipted
  {
  }

  lemma OtherShares(s: System, l: Label, t: System, k: nat)
    requires Frame(s, l, t, k) && !(l.WorkerMoves? && l.cell == k) && WorkerOk(t.workers[k], t.core.signals[k])
    requires SharesReceipt(s, k)
    ensures SharesReceipt(t, k)
  {
  }

  lemma OwnShares(s: System, l: Label, k: nat)
    requires Inv(s) && Enabled(s, l) && Inv(Step(s, l)) && l.WorkerMoves? && l.cell == k && SharesReceipt(s, k)
    ensures SharesReceipt(Step(s, l), k)
  {
    OwnMove(s, l, k);
    MoveShares(s.workers[k], s.core.signals[k], l.reply);
    assert WorkerOk(Step(s, l).workers[k], Step(s, l).core.signals[k]);
  }

  lemma NewShares(s: System, l: Label, k: nat)
    requires Inv(s) && Enabled(s, l) && Inv(Step(s, l)) && |s.workers| <= k < |Step(s, l).workers|
    ensures SharesReceipt(Step(s, l), k)
  {
    NewTrace(s, l, k);
    assert WorkerOk(Step(s, l).workers[k], Step(s, l).core.signals[k]);
  }

  lemma ShareNext(s: System, l: Label, t: System, k: nat)
    requires Inv(s) && Next(s, l, t) && Inv(t) && k < |t.workers| && (k < |s.workers| ==> SharesReceipt(s, k))
    ensures SharesReceipt(t, k)
  {
    if k >= |s.workers| {
      NewShares(s, l, k);
    } else if l.WorkerMoves? && l.cell == k {
      OwnShares(s, l, k);
    } else {
      StepFrame(s, l, k);
      assert WorkerOk(t.workers[k], t.core.signals[k]);
      OtherShares(s, l, t, k);
    }
  }

  lemma ShareAtStep(states: seq<System>, labels: seq<Label>, m: nat, k: nat)
    requires IsRun(states, labels) && m < |labels| && Unsaturated(states[m + 1]) && k < |states[m + 1].workers|
    requires k < |states[m].workers| ==> SharesReceipt(states[m], k)
    ensures SharesReceipt(states[m + 1], k)
  {
    WorkersGrow1(states, labels, m);
    RunNext(states, labels, m);
    RunKeepsInv(states, labels, m);
    RunKeepsInv(states, labels, m + 1);
    ShareNext(states[m], labels[m], states[m + 1], k);
  }

  /** At every moment of every run Core is told of a submit receipt exactly when the worker has one. */
  lemma {:induction false} ReceiptIsShared(states: seq<System>, labels: seq<Label>, n: nat, k: nat)
    requires IsRun(states, labels) && n < |states| && Unsaturated(states[n]) && k < |states[n].workers|
    ensures SharesReceipt(states[n], k)
    decreases n
  {
    assert n > 0;
    WorkersGrow1(states, labels, n - 1);
    if k < |states[n - 1].workers| { ReceiptIsShared(states, labels, n - 1, k); }
    ShareAtStep(states, labels, n - 1, k);
  }
}
