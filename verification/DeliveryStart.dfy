/**
When a delivery is begun or blocked, what it starts with, and which record makes
room for it.
 */
module DeliveryStart {
  import opened Common
  import opened DeliveryRecord
  import opened DeliveryWorker
  import opened DeliveryLaws
  import opened DeliveryProtocol
  import opened DeliverySafety
  import T = DeliveryTable

  // ----- when -----

  /** Nothing is on record, or what is came to rest, or was blocked before anything was written. */
  predicate Allows(c: T.Core, sid: SessionId, epoch: nat)
    requires T.Valid(c)
  {
    sid in c.deliveries ==>
      var d := c.deliveries[sid];
      && d.epoch == epoch
      && (|| d.state in {Confirmed, ConfirmedUnattributed, RequiresUserResubmit}
          || (d.state == Blocked && !c.signals[d.cell].pasteStarted
              && d.failure in {Some(ComposerUnavailable), Some(ComposerNotReady)}))
  }

  /** A block replaces only what came to rest. */
  predicate AllowsBlock(c: T.Core, sid: SessionId, epoch: nat) {
    sid in c.deliveries ==>
      c.deliveries[sid].epoch == epoch
      && c.deliveries[sid].state in {Confirmed, ConfirmedUnattributed, RequiresUserResubmit}
  }

  /** Fewer than 256 records, or one of its own, or one that can make room. */
  ghost predicate Fits(c: T.Core, sid: SessionId) {
    || sid in c.deliveries || |c.deliveries| < 256
    || exists t :: t in c.deliveries && c.deliveries[t].state !in {WritingPaste, AwaitingProviderAck}
  }

  lemma FitsExactly(c: T.Core, sid: SessionId)
    requires T.Valid(c)
    ensures Fits(c, sid) <==> T.HasRoom(T.MakeRoom(c, sid), sid)
  {
    T.MakeRoomKeepsValid(c, sid);
  }

  lemma AllowsExactly(c: T.Core, sid: SessionId, epoch: nat)
    requires T.Valid(c)
    ensures Allows(c, sid, epoch) <==> T.MayBegin(c, sid, epoch)
  {
  }

  /** `begin` inserts a record exactly if the one there allows it and there is room, and says so. */
  lemma BeginsExactly(c: T.Core, l: Label)
    requires T.Valid(c) && l.Begins?
    ensures var (r, accepted) := T.Begin(c, l.sid, l.epoch, l.baseline, l.submission, l.settlement, l.terminal);
            && (accepted <==> Allows(c, l.sid, l.epoch) && Fits(c, l.sid))
            && |r.signals| == |c.signals| + (if accepted then 1 else 0)
  {
    FitsExactly(c, l.sid);
    AllowsExactly(c, l.sid, l.epoch);
    T.BeginInserts(c, l.sid, l.epoch, l.baseline, l.submission, l.settlement, l.terminal);
  }

  /** A block inserts a record exactly if the one there came to rest and there is room. */
  lemma BlocksExactly(c: T.Core, l: Label)
    requires T.Valid(c) && l.Blocks? && !(l.sid in c.deliveries && c.deliveries[l.sid].state.WritingPaste?)
    ensures var (r, accepted) := T.Block(c, l.sid, l.epoch, l.baseline, l.submission, l.cause, l.notification);
            && (accepted <==> AllowsBlock(c, l.sid, l.epoch) && Fits(c, l.sid))
            && |r.signals| == |c.signals| + (if accepted then 1 else 0)
  {
    FitsExactly(c, l.sid);
    T.BlockInserts(c, l.sid, l.epoch, l.baseline, l.submission, l.cause, l.notification);
  }

  // ----- what with -----

  /** The terminal answers all that the launch of a worker takes. */
  predicate CanLaunch(settlement: Settlement, t: T.Terminal) { Reaches(settlement, t) && t.threadStarts }

  /** All of it but the thread. */
  predicate Reaches(settlement: Settlement, t: T.Terminal) {
    t.activity.Some? && t.readiness && (settlement.IsComposer() || (t.snapshot && t.pasteQueued))
  }

  /** Without a composer to wait for, the paste is prepared, and handed over if it can be, before the worker starts. */
  predicate IsPrepared(settlement: Settlement, t: T.Terminal) {
    !settlement.IsComposer() && t.activity.Some? && t.readiness && t.snapshot
  }

  /** A record as it is begun: it is being written, or failed at once, for the reason there is. */
  ghost predicate Begun(d: Delivery, g: Signals, l: Label)
    requires l.Begins?
  {
    && d.epoch == l.epoch && d.baseline == l.baseline && d.submission == l.submission && d.settlement == l.settlement
    && d.confirmation.None? && d.learned == NO_DIAGNOSTICS && d.userInputMutated.None?
    && (l.terminal.activity.Some? ==> d.inputBaseline == l.terminal.activity.value)
    && (if CanLaunch(l.settlement, l.terminal) then d.state.WritingPaste? && d.failure.None? && g.ack.Open?
        else d.state.Failed? && !g.ack.Open?
             && d.failure == Some(if Reaches(l.settlement, l.terminal) then WorkerUnavailable else TerminalUnavailable))
    && !g.cancel && !g.submitReceipted && (g.pasteStarted <==> IsPrepared(l.settlement, l.terminal))
  }

  /** A diagnosis is inherited from a block under which nothing was written, and from nothing else. */
  ghost predicate Inherits(c: T.Core, sid: SessionId, d: Delivery)
    requires T.Valid(c)
  {
    if sid in c.deliveries && c.deliveries[sid].state.Blocked? then
      && d.cancelCause == c.deliveries[sid].cancelCause && d.cancelNotification == c.deliveries[sid].cancelNotification
      && (c.deliveries[sid].originalFailure.Some? ==> d.originalFailure == c.deliveries[sid].originalFailure)
    else
      && d.cancelCause.None? && d.cancelNotification.None? && d.originalFailure == d.failure
  }

  lemma FreshIsBegun(c: T.Core, l: Label, x: Slot)
    requires T.Valid(c) && l.Begins?
    requires x == T.FreshSlot(l.epoch, l.baseline, l.submission, l.settlement, l.terminal, T.Inherited(c, l.sid))
    ensures forall id: nat, cell: nat :: Begun(x.record.(id := id, cell := cell), x.signals, l)
    ensures Allows(c, l.sid, l.epoch) ==>
              forall id: nat, cell: nat :: Inherits(c, l.sid, x.record.(id := id, cell := cell))
  {
  }

  /** The worker that goes with a record: it runs if it could be launched, its paste handed over or still to come. */
  ghost predicate Launched(w: Worker, l: Label)
    requires l.Begins?
  {
    && w.session == l.sid && w.epoch == l.epoch && w.submission == l.submission && w.settlement == l.settlement
    && (w.wake <==> l.submission.template == "builtin.assistant.wake") && w.learned == NO_DIAGNOSTICS
    && (!CanLaunch(l.settlement, l.terminal) ==> w.pc.NoWorker?)
    && (CanLaunch(l.settlement, l.terminal) ==>
          w.pc == Pasting(if l.settlement.IsComposer() then WaitReady else PasteReceipt))
    && w.trace == (if !l.settlement.IsComposer() && Reaches(l.settlement, l.terminal) then PASTED else Start)
  }

  lemma NewIsLaunched(l: Label, k: nat)
    requires l.Begins?
    ensures Launched(NewWorker(l, k), l)
  {
  }

  lemma BeginStarts(s: System, l: Label, t: System)
    requires Inv(s) && l.Begins? && t == Step(s, l) && Allows(s.core, l.sid, l.epoch) && Fits(s.core, l.sid)
    ensures var k := |s.workers|;
            && |t.workers| == |t.core.signals| == k + 1 && Held(t.core, l.sid, k)
            && Begun(t.core.deliveries[l.sid], t.core.signals[k], l)
            && Inherits(s.core, l.sid, t.core.deliveries[l.sid]) && Launched(t.workers[k], l)
  {
    var c := CoreAfter(s, l);
    BeginsExactly(s.core, l);
    T.BeginInserts(s.core, l.sid, l.epoch, l.baseline, l.submission, l.settlement, l.terminal);
    FreshIsBegun(s.core, l, T.FreshSlot(l.epoch, l.baseline, l.submission, l.settlement, l.terminal,
                                        T.Inherited(s.core, l.sid)));
    CoreStepGrows(s, l, c);
    NewIsLaunched(l, |s.workers|);
  }

  /** In every run `begin` starts a delivery exactly where it may, with what the terminal allows. */
  lemma StartsExactly(states: seq<System>, labels: seq<Label>, n: nat)
    requires IsRun(states, labels) && n < |labels| && Unsaturated(states[n]) && labels[n].Begins?
    ensures T.Valid(states[n].core)
    ensures var s, l, t := states[n], labels[n], states[n + 1];
            var k := |s.workers|;
            if Allows(s.core, l.sid, l.epoch) && Fits(s.core, l.sid) then
              && |t.workers| == |t.core.signals| == k + 1 && Held(t.core, l.sid, k)
              && Begun(t.core.deliveries[l.sid], t.core.signals[k], l)
              && Inherits(s.core, l.sid, t.core.deliveries[l.sid]) && Launched(t.workers[k], l)
            else t == s
  {
    RunKeepsInv(states, labels, n);
    RunNext(states, labels, n);
    var s, l := states[n], labels[n];
    if Allows(s.core, l.sid, l.epoch) && Fits(s.core, l.sid) {
      BeginStarts(s, l, states[n + 1]);
    } else {
      BeginsExactly(s.core, l);
      T.BeginInserts(s.core, l.sid, l.epoch, l.baseline, l.submission, l.settlement, l.terminal);
      UnchangedStep(s, l);
    }
  }

  /** A block on record: a delivery that never had a worker, with the reason for it. */
  ghost predicate IsBlock(d: Delivery, g: Signals, w: Worker, l: Label)
    requires l.Blocks?
  {
    && d.epoch == l.epoch && d.baseline == l.baseline && d.submission == l.submission
    && d.state.Blocked? && d.failure == d.originalFailure == Some(ComposerUnavailable) && d.cancelCause == Some(l.cause)
    && (l.notification.None? ==> d.cancelNotification.None?)
    && (l.notification.Some? ==> d.cancelNotification.Some? && d.cancelNotification.value <= l.notification.value
                                 && |d.cancelNotification.value| == Min(|l.notification.value|, 64))
    && d.confirmation.None? && d.learned == NO_DIAGNOSTICS
    && g.cancel && !g.pasteStarted && !g.submitReceipted && !g.ack.Open?
    && w.pc.NoWorker? && w.trace == Start && w.session == l.sid && w.submission == l.submission
  }

  lemma NewIsBlock(l: Label, k: nat, d: Delivery, id: nat)
    requires l.Blocks?
    requires d == T.BlockedRecord(l.epoch, l.baseline, l.submission, l.cause, l.notification).(id := id, cell := k)
    ensures IsBlock(d, Signals(true, false, false, Dropped), NewWorker(l, k), l)
  {
  }

  lemma BlockStarts(s: System, l: Label, t: System)
    requires Inv(s) && l.Blocks? && t == Step(s, l)
    requires !(l.sid in s.core.deliveries && s.core.deliveries[l.sid].state.WritingPaste?)
    requires AllowsBlock(s.core, l.sid, l.epoch) && Fits(s.core, l.sid)
    ensures var k := |s.workers|;
            && |t.workers| == |t.core.signals| == k + 1 && Held(t.core, l.sid, k)
            && IsBlock(t.core.deliveries[l.sid], t.core.signals[k], t.workers[k], l)
  {
    BlocksExactly(s.core, l);
    T.BlockInserts(s.core, l.sid, l.epoch, l.baseline, l.submission, l.cause, l.notification);
    CoreStepGrows(s, l, CoreAfter(s, l));
    NewIsBlock(l, |s.workers|, t.core.deliveries[l.sid], s.core.nextId);
  }

  /** In every run a block is put on record exactly where nothing is being written and what is there came to rest. */
  lemma BlockedExactly(states: seq<System>, labels: seq<Label>, n: nat)
    requires IsRun(states, labels) && n < |labels| && Unsaturated(states[n]) && labels[n].Blocks?
    requires var c, sid := states[n].core, labels[n].sid;
             !(sid in c.deliveries && c.deliveries[sid].state.WritingPaste?)
    ensures var s, l, t := states[n], labels[n], states[n + 1];
            var k := |s.workers|;
            if AllowsBlock(s.core, l.sid, l.epoch) && Fits(s.core, l.sid) then
              && |t.workers| == |t.core.signals| == k + 1 && Held(t.core, l.sid, k)
              && IsBlock(t.core.deliveries[l.sid], t.core.signals[k], t.workers[k], l)
            else t == s
  {
    RunKeepsInv(states, labels, n);
    RunNext(states, labels, n);
    var s, l := states[n], labels[n];
    if AllowsBlock(s.core, l.sid, l.epoch) && Fits(s.core, l.sid) {
      BlockStarts(s, l, states[n + 1]);
    } else {
      BlocksExactly(s.core, l);
      T.BlockInserts(s.core, l.sid, l.epoch, l.baseline, l.submission, l.cause, l.notification);
      UnchangedStep(s, l);
    }
  }

  // ----- who makes room -----

  /** The insertion order is the order of age. */
  ghost predicate Aged(c: T.Core) {
    && T.Listing(c.order, c.deliveries)
    && forall i, j :: 0 <= i < j < |c.order| ==> c.deliveries[c.order[i]].cell < c.deliveries[c.order[j]].cell
  }

  /** The order of what is left is that of before. */
  ghost predicate Sorted(order: seq<SessionId>, cells: map<SessionId, nat>) {
    && (forall i :: 0 <= i < |order| ==> order[i] in cells)
    && forall i, j :: 0 <= i < j < |order| ==> cells[order[i]] < cells[order[j]]
  }

  lemma {:induction false} WithoutIsSorted(order: seq<SessionId>, sid: SessionId, cells: map<SessionId, nat>)
    requires Sorted(order, cells)
    ensures Sorted(T.Without(order, sid), cells)
  {
    if order != [] {
      assert forall i :: 0 <= i < |order[1..]| ==> order[1..][i] == order[i + 1];
      WithoutIsSorted(order[1..], sid, cells);
      var rest := T.Without(order[1..], sid);
      forall x | x in rest ensures x in cells && cells[order[0]] < cells[x] {
        assert x in order[1..];
        var i :| 0 <= i < |order[1..]| && order[1..][i] == x;
        assert order[i + 1] == x;
      }
    }
  }

  ghost function Cells(c: T.Core): map<SessionId, nat> { map sid | sid in c.deliveries :: c.deliveries[sid].cell }

  lemma AgedIsSorted(c: T.Core)
    requires T.Listing(c.order, c.deliveries)
    ensures Aged(c) <==> Sorted(c.order, Cells(c))
  {
    forall i | 0 <= i < |c.order| ensures c.order[i] in c.deliveries { assert c.order[i] in c.order; }
  }

  lemma SortedAlike(order: seq<SessionId>, cells: map<SessionId, nat>, others: map<SessionId, nat>)
    requires Sorted(order, cells) && forall sid :: sid in order ==> sid in others && others[sid] == cells[sid]
    ensures Sorted(order, others)
  {
    assert forall i :: 0 <= i < |order| ==> order[i] in order;
  }

  lemma DropIsAged(c: T.Core, sid: SessionId)
    requires T.Valid(c) && Aged(c)
    ensures Aged(T.Drop(c, sid)) && Aged(T.Remove(c, sid))
  {
    T.DropKeepsValid(c, sid);
    AgedIsSorted(c);
    WithoutIsSorted(c.order, sid, Cells(c));
    SortedAlike(T.Without(c.order, sid), Cells(c), Cells(T.Drop(c, sid)));
    AgedIsSorted(T.Drop(c, sid));
    SortedAlike(T.Without(c.order, sid), Cells(c), Cells(T.Remove(c, sid)));
    AgedIsSorted(T.Remove(c, sid));
  }

  lemma PutIsAged(c: T.Core, sid: SessionId, x: Slot)
    requires T.Valid(c) && Aged(c) && sid in c.deliveries && x.record.cell == c.deliveries[sid].cell
    ensures Aged(T.Put(c, sid, x))
  {
    assert T.Put(c, sid, x).deliveries.Keys == c.deliveries.Keys;
    forall i | 0 <= i < |c.order| ensures c.order[i] in c.deliveries { assert c.order[i] in c.order; }
  }

  lemma InsertIsAged(c: T.Core, sid: SessionId, d: Delivery, g: Signals)
    requires T.Valid(c) && Aged(c)
    ensures Aged(T.Insert(c, sid, d, g))
  {
    var e, r := T.Drop(c, sid), T.Insert(c, sid, d, g);
    DropIsAged(c, sid);
    T.DropKeepsValid(c, sid);
    T.AppendKeepsListing(e.order, e.deliveries, sid, r.deliveries[sid]);
    forall i | 0 <= i < |e.order|
      ensures e.order[i] in e.deliveries && r.deliveries[r.order[i]] == e.deliveries[e.order[i]]
    {
      assert e.order[i] in e.order;
    }
  }

  lemma MakeRoomIsAged(c: T.Core, sid: SessionId)
    requires T.Valid(c) && Aged(c)
    ensures T.Valid(T.MakeRoom(c, sid)) && Aged(T.MakeRoom(c, sid))
  {
    T.MakeRoomKeepsValid(c, sid);
    var victim := T.OldestInactive(c.order, c.deliveries);
    if victim.Some? { DropIsAged(c, victim.value); }
  }

  lemma BeginIsAged(c: T.Core, l: Label)
    requires T.Valid(c) && Aged(c) && l.Begins?
    ensures Aged(T.Begin(c, l.sid, l.epoch, l.baseline, l.submission, l.settlement, l.terminal).0)
  {
    MakeRoomIsAged(c, l.sid);
    var x := T.FreshSlot(l.epoch, l.baseline, l.submission, l.settlement, l.terminal, T.Inherited(c, l.sid));
    InsertIsAged(T.MakeRoom(c, l.sid), l.sid, x.record, x.signals);
  }

  lemma BlockIsAged(c: T.Core, l: Label)
    requires T.Valid(c) && Aged(c) && l.Blocks? && !(l.sid in c.deliveries && c.deliveries[l.sid].state.WritingPaste?)
    ensures Aged(T.Block(c, l.sid, l.epoch, l.baseline, l.submission, l.cause, l.notification).0)
  {
    MakeRoomIsAged(c, l.sid);
    T.MakeRoomThins(c, l.sid);
    var room := T.MakeRoom(c, l.sid);
    var record := T.BlockedRecord(l.epoch, l.baseline, l.submission, l.cause, l.notification);
    var g := Signals(true, false, false, Dropped);
    if l.sid !in c.deliveries {
      InsertIsAged(room, l.sid, record, g);
    } else {
      var x := Slot(c.deliveries[l.sid], T.SlotOf(c, l.sid).signals.(cancel := true));
      PutIsAged(room, l.sid, x);
      T.PutKeepsValid(room, l.sid, x);
      InsertIsAged(T.Put(room, l.sid, x), l.sid, record, g);
    }
  }

  lemma CoreIsAged(s: System, l: Label)
    requires Inv(s) && Enabled(s, l) && Aged(s.core)
    ensures Aged(Step(s, l).core)
  {
    if l.WorkerMoves? {
    } else if Touches(s, l).Some? {
      TouchOk(s, l);
      PutIsAged(s.core, Touches(s, l).value.0, Touches(s, l).value.1);
    } else if l.Begins? {
      BeginIsAged(s.core, l);
    } else if l.Removes? {
      DropIsAged(s.core, l.sid);
    } else if l.Blocks? && !(l.sid in s.core.deliveries && s.core.deliveries[l.sid].state.WritingPaste?) {
      BlockIsAged(s.core, l);
    }
  }

  lemma AgedAtStep(states: seq<System>, labels: seq<Label>, m: nat)
    requires IsRun(states, labels) && m < |labels| && Unsaturated(states[m + 1]) && Aged(states[m].core)
    ensures Aged(states[m + 1].core)
  {
    WorkersGrow1(states, labels, m);
    RunKeepsInv(states, labels, m);
    RunNext(states, labels, m);
    CoreIsAged(states[m], labels[m]);
  }

  lemma {:induction false} RunIsAged(states: seq<System>, labels: seq<Label>, n: nat)
    requires IsRun(states, labels) && n < |states| && Unsaturated(states[n])
    ensures Aged(states[n].core)
  {
    if n > 0 {
      WorkersGrow1(states, labels, n - 1);
      RunIsAged(states, labels, n - 1);
      AgedAtStep(states, labels, n - 1);
    }
  }

  lemma {:induction false} OldestIsFirst(order: seq<SessionId>, deliveries: map<SessionId, Delivery>) returns (i: nat)
    requires T.OldestInactive(order, deliveries).Some?
    ensures i < |order| && order[i] == T.OldestInactive(order, deliveries).value
    ensures forall j :: 0 <= j < i && order[j] in deliveries ==> deliveries[order[j]].state.IsActive()
  {
    if order[0] in deliveries && !deliveries[order[0]].state.IsActive() {
      i := 0;
    } else {
      var k := OldestIsFirst(order[1..], deliveries);
      i := k + 1;
      forall j | 0 <= j < i && order[j] in deliveries ensures deliveries[order[j]].state.IsActive() {
        if j > 0 { assert order[1..][j - 1] == order[j]; }
      }
    }
  }

  /** Every record older than `t` is active. */
  ghost predicate IsOldestInactive(c: T.Core, t: SessionId) {
    && t in c.deliveries && !c.deliveries[t].state.IsActive()
    && forall u :: u in c.deliveries && c.deliveries[u].cell < c.deliveries[t].cell ==> c.deliveries[u].state.IsActive()
  }

  lemma VictimIsOldest(c: T.Core, t: SessionId)
    requires T.Valid(c) && Aged(c) && T.OldestInactive(c.order, c.deliveries) == Some(t)
    ensures IsOldestInactive(c, t)
  {
    var i := OldestIsFirst(c.order, c.deliveries);
    forall u | u in c.deliveries && c.deliveries[u].cell < c.deliveries[t].cell
      ensures c.deliveries[u].state.IsActive()
    {
      assert u in c.order;
      var j :| 0 <= j < |c.order| && c.order[j] == u;
      assert j < i;
    }
  }

  lemma MakeRoomEvicts(c: T.Core, sid: SessionId, t: SessionId)
    requires T.Valid(c) && Aged(c) && t in c.deliveries && t !in T.MakeRoom(c, sid).deliveries
    ensures IsOldestInactive(c, t) && |c.deliveries| == 256 && sid !in c.deliveries
    ensures forall u :: u in c.deliveries && u != t ==> u in T.MakeRoom(c, sid).deliveries
  {
    var victim := T.OldestInactive(c.order, c.deliveries);
    T.DropKeepsValid(c, victim.value);
    VictimIsOldest(c, t);
  }

  /** Apart from making room, the operation drops nobody but the session's own record. */
  ghost predicate KeepsRoomed(c: T.Core, sid: SessionId, r: T.Core)
    requires T.Valid(c)
  {
    forall u :: u != sid && u in T.MakeRoom(c, sid).deliveries ==> u in r.deliveries
  }

  lemma BeginKeepsRoomed(c: T.Core, l: Label)
    requires T.Valid(c) && l.Begins?
    ensures KeepsRoomed(c, l.sid, T.Begin(c, l.sid, l.epoch, l.baseline, l.submission, l.settlement, l.terminal).0)
  {
    T.MakeRoomKeepsValid(c, l.sid);
    T.MakeRoomThins(c, l.sid);
    DroppedFromRoom(c, l.sid);
  }

  /** Making room only drops. */
  lemma DroppedFromRoom(c: T.Core, sid: SessionId)
    requires T.Valid(c)
    ensures forall u :: u in T.MakeRoom(c, sid).deliveries ==> u in c.deliveries
  {
    var victim := T.OldestInactive(c.order, c.deliveries);
    if victim.Some? { T.DropKeepsValid(c, victim.value); }
  }

  lemma BlockKeepsRoomed(c: T.Core, l: Label)
    requires T.Valid(c) && l.Blocks?
    ensures KeepsRoomed(c, l.sid, T.Block(c, l.sid, l.epoch, l.baseline, l.submission, l.cause, l.notification).0)
  {
    T.MakeRoomKeepsValid(c, l.sid);
    T.MakeRoomThins(c, l.sid);
    DroppedFromRoom(c, l.sid);
  }

  lemma EvictedFrom(s: System, l: Label, t: SessionId)
    requires Inv(s) && (l.Begins? || l.Blocks?) && t in s.core.deliveries && t != l.sid
    requires t !in CoreAfter(s, l).deliveries
    ensures t !in T.MakeRoom(s.core, l.sid).deliveries && KeepsRoomed(s.core, l.sid, CoreAfter(s, l))
  {
    if l.Begins? { BeginKeepsRoomed(s.core, l); } else { BlockKeepsRoomed(s.core, l); }
  }

  /** A record makes room for another session's only in a full table, alone, and as the oldest that is not active. */
  lemma EvictionTakesOldest(states: seq<System>, labels: seq<Label>, n: nat, t: SessionId)
    requires IsRun(states, labels) && n < |labels| && Unsaturated(states[n]) && (labels[n].Begins? || labels[n].Blocks?)
    requires t in states[n].core.deliveries && t !in states[n + 1].core.deliveries && t != labels[n].sid
    ensures IsOldestInactive(states[n].core, t) && |states[n].core.deliveries| == 256
    ensures forall u :: u in states[n].core.deliveries && u != t ==> u in states[n + 1].core.deliveries
    ensures labels[n].sid !in states[n].core.deliveries
  {
    RunKeepsInv(states, labels, n);
    RunIsAged(states, labels, n);
    RunNext(states, labels, n);
    EvictedFrom(states[n], labels[n], t);
    MakeRoomEvicts(states[n].core, labels[n].sid, t);
  }

  // ----- records that are dropped -----

  /** The flags say that nobody listens to the k-th worker any more, and whether it was told to stop. */
  ghost predicate IsLetGo(c: T.Core, k: nat, cancelled: bool) {
    k < |c.signals| && !c.signals[k].ack.Open? && (cancelled ==> c.signals[k].cancel)
  }

  lemma RoomLetsGo(c: T.Core, room: T.Core, sid: SessionId, t: SessionId)
    requires T.Valid(c) && room == T.MakeRoom(c, sid) && t in c.deliveries && t !in room.deliveries
    ensures IsLetGo(room, c.deliveries[t].cell, false) && sid !in room.deliveries
  {
  }

  lemma InsertLetsGo(c: T.Core, sid: SessionId, d: Delivery, g: Signals, k: nat)
    requires T.Valid(c) && k < |c.signals|
    ensures sid in c.deliveries && k == c.deliveries[sid].cell ==>
              IsLetGo(T.Insert(c, sid, d, g), k, c.signals[k].cancel)
    ensures sid !in c.deliveries && !c.signals[k].ack.Open? ==>
              IsLetGo(T.Insert(c, sid, d, g), k, c.signals[k].cancel)
  {
  }

  lemma RemoveLetsGo(c: T.Core, sid: SessionId)
    requires T.Valid(c) && sid in c.deliveries
    ensures IsLetGo(T.Remove(c, sid), c.deliveries[sid].cell, true)
  {
  }

  lemma BeginLetsGo(c: T.Core, l: Label, t: SessionId, r: T.Core)
    requires T.Valid(c) && l.Begins? && t in c.deliveries
    requires r == T.Begin(c, l.sid, l.epoch, l.baseline, l.submission, l.settlement, l.terminal).0
    requires !Held(r, t, c.deliveries[t].cell)
    ensures IsLetGo(r, c.deliveries[t].cell, false)
  {
    var room := T.MakeRoom(c, l.sid);
    var x := T.FreshSlot(l.epoch, l.baseline, l.submission, l.settlement, l.terminal, T.Inherited(c, l.sid));
    T.MakeRoomKeepsValid(c, l.sid);
    InsertLetsGo(room, l.sid, x.record, x.signals, c.deliveries[t].cell);
    if t !in room.deliveries { RoomLetsGo(c, room, l.sid, t); }
  }

  lemma BlockLetsGo(c: T.Core, l: Label, t: SessionId, r: T.Core)
    requires T.Valid(c) && l.Blocks? && t in c.deliveries
    requires !(l.sid in c.deliveries && c.deliveries[l.sid].state.WritingPaste?)
    requires r == T.Block(c, l.sid, l.epoch, l.baseline, l.submission, l.cause, l.notification).0
    requires !Held(r, t, c.deliveries[t].cell)
    ensures IsLetGo(r, c.deliveries[t].cell, t == l.sid)
  {
    var room := T.MakeRoom(c, l.sid);
    var record := T.BlockedRecord(l.epoch, l.baseline, l.submission, l.cause, l.notification);
    T.MakeRoomKeepsValid(c, l.sid);
    if l.sid in c.deliveries {
      var put := T.Put(room, l.sid, Slot(c.deliveries[l.sid], T.SlotOf(c, l.sid).signals.(cancel := true)));
      T.PutKeepsValid(c, l.sid, Slot(c.deliveries[l.sid], T.SlotOf(c, l.sid).signals.(cancel := true)));
      InsertLetsGo(put, l.sid, record, Signals(true, false, false, Dropped), c.deliveries[t].cell);
    } else {
      InsertLetsGo(room, l.sid, record, Signals(true, false, false, Dropped), c.deliveries[t].cell);
      if t !in room.deliveries { RoomLetsGo(c, room, l.sid, t); }
    }
  }

  /** The step cancels what it drops of the session: a removal, and a block in its place. */
  predicate Dismisses(l: Label, sid: SessionId) { (l.Removes? || l.Blocks?) && l.sid == sid }

  lemma TouchHolds(s: System, l: Label, sid: SessionId)
    requires Inv(s) && Enabled(s, l) && Touches(s, l).Some? && !l.WorkerMoves? && sid in s.core.deliveries
    ensures Held(CoreAfter(s, l), sid, s.core.deliveries[sid].cell)
  {
    TouchOk(s, l);
  }

  lemma RemovalLetsGo(s: System, l: Label, sid: SessionId, c: T.Core)
    requires Inv(s) && l.Removes? && c == CoreAfter(s, l) && sid in s.core.deliveries
    requires !Held(c, sid, s.core.deliveries[sid].cell)
    ensures IsLetGo(c, s.core.deliveries[sid].cell, true) && sid == l.sid
  {
    RemoveLeaves(s, l, T.Remove(s.core, l.sid));
    T.DropKeepsValid(s.core, l.sid);
    if l.sid in s.core.deliveries { RemoveLetsGo(s.core, l.sid); }
  }

  lemma CoreLetsGo(s: System, l: Label, sid: SessionId, c: T.Core)
    requires Inv(s) && Enabled(s, l) && !l.WorkerMoves? && c == CoreAfter(s, l) && sid in s.core.deliveries
    requires !Held(c, sid, s.core.deliveries[sid].cell)
    ensures IsLetGo(c, s.core.deliveries[sid].cell, Dismisses(l, sid))
  {
    if Touches(s, l).Some? {
      TouchHolds(s, l, sid);
    } else if l.Removes? {
      RemovalLetsGo(s, l, sid, c);
    } else if l.Begins? {
      BeginLetsGo(s.core, l, sid, c);
    } else if l.Blocks? {
      BlockLetsGo(s.core, l, sid, c);
    }
  }

  /** In every run Core stops listening to a worker whose record it drops, and cancels it if it puts none to work. */
  lemma DroppedIsLetGo(states: seq<System>, labels: seq<Label>, n: nat, sid: SessionId)
    requires IsRun(states, labels) && n < |labels| && Unsaturated(states[n]) && sid in states[n].core.deliveries
    requires !Held(states[n + 1].core, sid, states[n].core.deliveries[sid].cell)
    ensures IsLetGo(states[n + 1].core, states[n].core.deliveries[sid].cell, Dismisses(labels[n], sid))
  {
    RunKeepsInv(states, labels, n);
    RunNext(states, labels, n);
    if !labels[n].WorkerMoves? { CoreLetsGo(states[n], labels[n], sid, CoreAfter(states[n], labels[n])); }
  }
}
