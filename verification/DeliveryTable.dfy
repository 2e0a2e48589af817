/**
The runtime table of deliveries, one record a session: each operation as a
function on a value (`Core`), and what it leaves alone.
 */
module DeliveryTable {
  import opened Common
  import opened DeliveryRecord

  const MAX_RUNTIME_DELIVERIES: nat := 256

  /** `signals[k]` are the flags allocated for the k-th record ever inserted. */
  datatype Core = Core(nextId: nat, deliveries: map<SessionId, Delivery>, order: seq<SessionId>, signals: seq<Signals>)

  const EMPTY_CORE := Core(1, map[], [], [])

  /** The identity given to the k-th record; it saturates like the counter it comes from. */
  function IdOf(cell: nat): nat { Min(cell + 1, U64_MAX) }

  ghost predicate Distinct(order: seq<SessionId>) {
    forall i, j :: 0 <= i < j < |order| ==> order[i] != order[j]
  }

  ghost predicate Listing(order: seq<SessionId>, deliveries: map<SessionId, Delivery>) {
    && Distinct(order)
    && (forall sid :: sid in order <==> sid in deliveries)
  }

  ghost predicate Valid(c: Core) {
    && Listing(c.order, c.deliveries)
    && |c.deliveries| <= MAX_RUNTIME_DELIVERIES
    && c.nextId == IdOf(|c.signals|)
    && (forall sid :: sid in c.deliveries ==>
          c.deliveries[sid].cell < |c.signals| && c.deliveries[sid].id == IdOf(c.deliveries[sid].cell))
  }

  function SlotOf(c: Core, sid: SessionId): Slot
    requires sid in c.deliveries && c.deliveries[sid].cell < |c.signals|
  {
    Slot(c.deliveries[sid], c.signals[c.deliveries[sid].cell])
  }

  /** Writes a changed record and its flags back. */
  function Put(c: Core, sid: SessionId, x: Slot): Core
    requires x.record.cell < |c.signals|
  {
    c.(deliveries := c.deliveries[sid := x.record], signals := c.signals[x.record.cell := x.signals])
  }

  /** `order.retain(|candidate| candidate != sid)`. */
  function Without(order: seq<SessionId>, sid: SessionId): (r: seq<SessionId>)
    ensures forall x :: x in r <==> x in order && x != sid
    ensures |r| <= |order|
  {
    if order == [] then []
    else if order[0] == sid then Without(order[1..], sid)
    else [order[0]] + Without(order[1..], sid)
  }

  lemma {:induction false} WithoutIsDistinct(order: seq<SessionId>, sid: SessionId)
    requires Distinct(order)
    ensures Distinct(Without(order, sid))
  {
    if order != [] {
      WithoutIsDistinct(order[1..], sid);
      var rest := Without(order[1..], sid);
      assert forall j :: 0 <= j < |rest| ==> rest[j] in rest && rest[j] in order[1..];
    }
  }

  /** In a listing, removing an entry by position removes it by value. */
  lemma {:induction false} RemoveAtIsWithout(order: seq<SessionId>, i: nat)
    requires Distinct(order) && i < |order|
    ensures Without(order, order[i]) == order[..i] + order[i + 1..]
  {
    if i == 0 {
      WithoutAbsent(order[1..], order[0]);
    } else {
      RemoveAtIsWithout(order[1..], i - 1);
      assert order[..i] + order[i + 1..] == [order[0]] + (order[1..][..i - 1] + order[1..][i..]);
    }
  }

  lemma {:induction false} WithoutAbsent(order: seq<SessionId>, sid: SessionId)
    requires sid !in order
    ensures Without(order, sid) == order
  {
    if order != [] { WithoutAbsent(order[1..], sid); }
  }

  /** Dropping the record of `sid`, and with it the sender of its channel. */
  function Drop(c: Core, sid: SessionId): Core
    requires sid in c.deliveries ==> c.deliveries[sid].cell < |c.signals|
  {
    if sid !in c.deliveries then c.(order := Without(c.order, sid))
    else
      var k := c.deliveries[sid].cell;
      Core(c.nextId, c.deliveries - {sid}, Without(c.order, sid), c.signals[k := c.signals[k].HangUp()])
  }

  /** `remove_session`. */
  function Remove(c: Core, sid: SessionId): Core
    requires sid in c.deliveries ==> c.deliveries[sid].cell < |c.signals|
  {
    if sid !in c.deliveries then Drop(c, sid)
    else
      var k := c.deliveries[sid].cell;
      Drop(c.(signals := c.signals[k := c.signals[k].(cancel := true)]), sid)
  }

  /** The first session, in insertion order, whose record is not active. */
  function OldestInactive(order: seq<SessionId>, deliveries: map<SessionId, Delivery>): (r: Option<SessionId>)
    ensures r.Some? ==> r.value in order && r.value in deliveries && !deliveries[r.value].state.IsActive()
    ensures r.None? ==> forall sid :: sid in order && sid in deliveries ==> deliveries[sid].state.IsActive()
  {
    if order == [] then None
    else if order[0] in deliveries && !deliveries[order[0]].state.IsActive() then Some(order[0])
    else OldestInactive(order[1..], deliveries)
  }

  /** Makes room for a session that has no record, if the table is full. */
  function MakeRoom(c: Core, sid: SessionId): Core
    requires Valid(c)
  {
    var victim := OldestInactive(c.order, c.deliveries);
    if sid in c.deliveries || |c.deliveries| < MAX_RUNTIME_DELIVERIES || victim.None? then c
    else Drop(c, victim.value)
  }

  predicate HasRoom(c: Core, sid: SessionId) { sid in c.deliveries || |c.deliveries| < MAX_RUNTIME_DELIVERIES }

  /** Inserts a new record at the back of the order; a record it replaces is dropped. */
  function Insert(c: Core, sid: SessionId, d: Delivery, g: Signals): Core
    requires sid in c.deliveries ==> c.deliveries[sid].cell < |c.signals|
  {
    var dropped := Drop(c, sid);
    Core(SaturatingSucc(c.nextId), dropped.deliveries[sid := d.(id := c.nextId, cell := |c.signals|)],
         dropped.order + [sid], dropped.signals + [g])
  }

  lemma DropKeepsValid(c: Core, sid: SessionId)
    requires Valid(c)
    ensures Valid(Drop(c, sid)) && Valid(Remove(c, sid)) && sid !in Drop(c, sid).deliveries
    ensures sid in c.deliveries ==> |Drop(c, sid).deliveries| == |c.deliveries| - 1
    ensures forall t :: t in Drop(c, sid).deliveries <==> t in c.deliveries && t != sid
  {
    WithoutIsDistinct(c.order, sid);
    if sid in c.deliveries {
      assert (c.deliveries - {sid}).Keys == c.deliveries.Keys - {sid};
    }
  }

  /** A new record at the back of a table that has none for its session. */
  lemma AppendKeepsListing(order: seq<SessionId>, deliveries: map<SessionId, Delivery>, sid: SessionId, d: Delivery)
    requires Listing(order, deliveries) && sid !in deliveries
    ensures Listing(order + [sid], deliveries[sid := d])
    ensures |deliveries[sid := d]| == |deliveries| + 1
  {
    assert deliveries[sid := d].Keys == deliveries.Keys + {sid};
  }

  lemma InsertKeepsValid(c: Core, sid: SessionId, d: Delivery, g: Signals)
    requires Valid(c) && HasRoom(c, sid)
    ensures Valid(Insert(c, sid, d, g))
  {
    DropKeepsValid(c, sid);
    var e := Drop(c, sid);
    AppendKeepsListing(e.order, e.deliveries, sid, d.(id := c.nextId, cell := |c.signals|));
  }

  lemma MakeRoomKeepsValid(c: Core, sid: SessionId)
    requires Valid(c)
    ensures Valid(MakeRoom(c, sid))
    ensures HasRoom(MakeRoom(c, sid), sid) <==>
            HasRoom(c, sid) || exists t :: t in c.deliveries && !c.deliveries[t].state.IsActive()
  {
    var victim := OldestInactive(c.order, c.deliveries);
    if victim.Some? { DropKeepsValid(c, victim.value); }
  }

  // ----- specification of the operations -----

  predicate MayBegin(c: Core, sid: SessionId, epoch: nat)
    requires Valid(c)
  {
    sid in c.deliveries ==> SlotOf(c, sid).MayBegin(epoch)
  }

  /** What the terminal answers while `begin` runs, and whether the worker thread starts. */
  datatype Terminal = Terminal(
    activity: Option<InputActivity>, readiness: bool, snapshot: bool, pasteQueued: bool, threadStarts: bool)

  /** How far `begin` gets after inserting the record. */
  datatype Launch = Launch(failure: Option<Failure>, pasteStarted: bool, pasteHanded: bool)

  function LaunchOf(settlement: Settlement, t: Terminal): Launch {
    if t.activity.None? || !t.readiness then Launch(Some(TerminalUnavailable), false, false)
    else if settlement.IsComposer() then
      Launch(if t.threadStarts then None else Some(WorkerUnavailable), false, false)
    else if !t.snapshot then Launch(Some(TerminalUnavailable), false, false)
    else if !t.pasteQueued then Launch(Some(TerminalUnavailable), true, false)
    else Launch(if t.threadStarts then None else Some(WorkerUnavailable), true, true)
  }

  /** The block whose diagnosis a new record inherits. */
  function Inherited(c: Core, sid: SessionId): Option<Delivery>
    requires Valid(c)
  {
    if sid in c.deliveries && SlotOf(c, sid).UnwrittenBlock() then Some(c.deliveries[sid]) else None
  }

  /** The record `begin` inserts and its flags; a launch that failed has failed them at once. */
  function FreshSlot(epoch: nat, baseline: nat, m: Submission, settlement: Settlement, t: Terminal,
                     inherited: Option<Delivery>): Slot
  {
    var launch := LaunchOf(settlement, t);
    var d := Delivery(0, 0, epoch, baseline, settlement, m, WritingPaste, None,
                      if inherited.Some? then inherited.value.originalFailure else None,
                      if inherited.Some? then inherited.value.cancelCause else None,
                      if inherited.Some? then inherited.value.cancelNotification else None,
                      NO_DIAGNOSTICS, None, if t.activity.Some? then t.activity.value else InputActivity(0, 0), None);
    var x := Slot(d, Signals(false, launch.pasteStarted, false, Open));
    if launch.failure.None? then x else FailImmediately(x, launch.failure.value)
  }

  /** `begin`, except for the worker it starts. */
  function Begin(c: Core, sid: SessionId, epoch: nat, baseline: nat, m: Submission, settlement: Settlement,
                 t: Terminal): (r: (Core, bool))
    requires Valid(c)
  {
    var room := MakeRoom(c, sid);
    if !MayBegin(c, sid, epoch) then (c, false)
    else if !HasRoom(room, sid) then (room, false)
    else
      var x := FreshSlot(epoch, baseline, m, settlement, t, Inherited(c, sid));
      (Insert(room, sid, x.record, x.signals), true)
  }

  function BlockedRecord(epoch: nat, baseline: nat, m: Submission, cause: CancelCause, n: Option<string>): Delivery {
    Delivery(0, 0, epoch, baseline, OutputActivity, m, Blocked, Some(ComposerUnavailable), Some(ComposerUnavailable),
             Some(cause), BoundedNotification(n), NO_DIAGNOSTICS, None, InputActivity(0, 0), None)
  }

  /** `block_for_unavailable_composer`. */
  function Block(c: Core, sid: SessionId, epoch: nat, baseline: nat, m: Submission, cause: CancelCause,
                 n: Option<string>): (r: (Core, bool))
    requires Valid(c)
  {
    if sid in c.deliveries && c.deliveries[sid].epoch != epoch then (c, false)
    else if sid in c.deliveries && c.deliveries[sid].state.WritingPaste? then
      (Put(c, sid, CancelForComposer(SlotOf(c, sid), cause, n)), true)
    else if sid in c.deliveries && !c.deliveries[sid].state.AcceptsReplacement() then (c, false)
    else
      var room := MakeRoom(c, sid);
      if !HasRoom(room, sid) then (room, false)
      else
        var cancelled := if sid !in c.deliveries then room
                         else Put(room, sid, Slot(c.deliveries[sid], SlotOf(c, sid).signals.(cancel := true)));
        var record := BlockedRecord(epoch, baseline, m, cause, n);
        (Insert(cancelled, sid, record, Signals(true, false, false, Dropped)), true)
  }

  /** `transition_runtime_epoch`. */
  function ChangeEpoch(c: Core, sid: SessionId, epoch: nat): (r: (Core, bool))
    requires Valid(c)
  {
    if sid !in c.deliveries || c.deliveries[sid].epoch == epoch then (c, false)
    else (Put(c, sid, MoveEpoch(SlotOf(c, sid), epoch)), true)
  }

  predicate Addressed(c: Core, e: Event) {
    e.session in c.deliveries && c.deliveries[e.session].id == e.id && c.deliveries[e.session].epoch == e.epoch
  }

  /** `apply_transport_event`. */
  function Apply(c: Core, e: Event): (r: (Core, bool))
    requires Valid(c)
  {
    if !Addressed(c, e) then (c, false)
    else
      var x := SlotOf(c, e.session);
      var y := Merge(x, e.diagnostics);
      (Put(c, e.session, Conclusion(y, e.outcome)),
       OutcomeIsDue(x.record.state, e.outcome) || y.record.learned != x.record.learned)
  }

  predicate InEpoch(c: Core, sid: SessionId, epoch: nat) { sid in c.deliveries && c.deliveries[sid].epoch == epoch }

  function Acknowledge(c: Core, sid: SessionId, epoch: nat, sequence: nat, a: Option<InputActivity>): (r: (Core, bool))
    requires Valid(c)
  {
    if !InEpoch(c, sid, epoch) then (c, false)
    else var (x, changed) := ConfirmSubmission(SlotOf(c, sid), sequence, a); (Put(c, sid, x), changed)
  }

  function Progress(c: Core, sid: SessionId, epoch: nat, sequence: nat): (r: (Core, bool))
    requires Valid(c)
  {
    if !InEpoch(c, sid, epoch) then (c, false)
    else var (x, changed) := ConfirmProgress(SlotOf(c, sid), sequence); (Put(c, sid, x), changed)
  }

  function QueueProgress(c: Core, sid: SessionId, epoch: nat, sequence: nat): (r: (Core, bool))
    requires Valid(c)
  {
    if !InEpoch(c, sid, epoch) then (c, false)
    else var (x, changed) := ConfirmQueueProgress(SlotOf(c, sid), sequence); (Put(c, sid, x), changed)
  }

  // ----- what the operations do to the rest of the table -----

  lemma PutKeepsValid(c: Core, sid: SessionId, x: Slot)
    requires Valid(c) && sid in c.deliveries
    requires x.record.id == c.deliveries[sid].id && x.record.cell == c.deliveries[sid].cell
    ensures Valid(Put(c, sid, x))
  {
    assert Put(c, sid, x).deliveries.Keys == c.deliveries.Keys;
  }

  lemma ApplyKeepsValid(c: Core, e: Event)
    requires Valid(c)
    ensures Valid(Apply(c, e).0)
  {
    if Addressed(c, e) {
      PutKeepsValid(c, e.session, Conclusion(Merge(SlotOf(c, e.session), e.diagnostics), e.outcome));
    }
  }

  lemma AcknowledgeKeepsValid(c: Core, sid: SessionId, epoch: nat, sequence: nat, a: Option<InputActivity>)
    requires Valid(c)
    ensures Valid(Acknowledge(c, sid, epoch, sequence, a).0)
  {
    if InEpoch(c, sid, epoch) { PutKeepsValid(c, sid, ConfirmSubmission(SlotOf(c, sid), sequence, a).0); }
  }

  lemma ProgressKeepsValid(c: Core, sid: SessionId, epoch: nat, sequence: nat)
    requires Valid(c)
    ensures Valid(Progress(c, sid, epoch, sequence).0)
  {
    if InEpoch(c, sid, epoch) { PutKeepsValid(c, sid, ConfirmProgress(SlotOf(c, sid), sequence).0); }
  }

  lemma PutSame(c: Core, sid: SessionId)
    requires Valid(c) && sid in c.deliveries
    ensures Put(c, sid, SlotOf(c, sid)) == c
  {
    assert c.deliveries[sid := c.deliveries[sid]] == c.deliveries;
  }

  /** Flags as a step that is not about their record leaves them. */
  predicate Aside(g: Signals, h: Signals) {
    && h.pasteStarted == g.pasteStarted && h.submitReceipted == g.submitReceipted
    && (g.cancel ==> h.cancel) && (h.ack.Open? ==> g.ack.Open?)
  }

  /** `after` keeps some records of `before` unchanged and drops the others. */
  ghost predicate Thins(before: Core, after: Core) {
    && |after.signals| >= |before.signals|
    && (forall k :: 0 <= k < |before.signals| ==> Aside(before.signals[k], after.signals[k]))
    && (forall t :: t in after.deliveries && after.deliveries[t].cell < |before.signals| ==>
          t in before.deliveries && after.deliveries[t] == before.deliveries[t])
  }

  /** A record for `sid` was inserted; whatever else is gone was inactive. */
  ghost predicate Inserts(before: Core, after: Core, sid: SessionId) {
    && Thins(before, after)
    && |after.signals| == |before.signals| + 1
    && sid in after.deliveries && after.deliveries[sid].cell == |before.signals|
    && (forall t :: t in after.deliveries && t != sid ==> after.deliveries[t].cell < |before.signals|)
    && (forall t :: t in before.deliveries && t !in after.deliveries ==> !before.deliveries[t].state.IsActive())
  }

  lemma DropThins(c: Core, sid: SessionId)
    requires Valid(c)
    ensures Thins(c, Drop(c, sid)) && |Drop(c, sid).signals| == |c.signals|
  {
  }

  lemma InsertInserts(c: Core, sid: SessionId, d: Delivery, g: Signals)
    requires Valid(c) && HasRoom(c, sid)
    ensures Inserts(c, Insert(c, sid, d, g), sid)
    ensures Insert(c, sid, d, g).deliveries[sid] == d.(id := c.nextId, cell := |c.signals|)
    ensures Insert(c, sid, d, g).signals[|c.signals|] == g
  {
    DropKeepsValid(c, sid);
    DropThins(c, sid);
    var e := Drop(c, sid);
    var r := Insert(c, sid, d, g);
    forall k | 0 <= k < |c.signals| ensures Aside(c.signals[k], r.signals[k]) {
      assert r.signals[k] == e.signals[k];
    }
  }

  lemma MakeRoomThins(c: Core, sid: SessionId)
    requires Valid(c)
    ensures Thins(c, MakeRoom(c, sid)) && |MakeRoom(c, sid).signals| == |c.signals|
    ensures MakeRoom(c, sid).nextId == c.nextId
    ensures sid in c.deliveries ==> MakeRoom(c, sid) == c
    ensures forall t :: t in c.deliveries && t !in MakeRoom(c, sid).deliveries ==> !c.deliveries[t].state.IsActive()
  {
    var victim := OldestInactive(c.order, c.deliveries);
    if victim.Some? { DropKeepsValid(c, victim.value); }
  }

  lemma ThinThenInsert(a: Core, b: Core, c: Core, sid: SessionId)
    requires Valid(b) && Thins(a, b) && |b.signals| == |a.signals| && Inserts(b, c, sid)
    requires forall t :: t in a.deliveries && t !in b.deliveries ==> !a.deliveries[t].state.IsActive()
    ensures Inserts(a, c, sid)
  {
    forall k | 0 <= k < |a.signals| ensures Aside(a.signals[k], c.signals[k]) {
      assert Aside(a.signals[k], b.signals[k]) && Aside(b.signals[k], c.signals[k]);
    }
    forall t | t in a.deliveries && t !in c.deliveries ensures !a.deliveries[t].state.IsActive() {
      if t in b.deliveries { assert !b.deliveries[t].state.IsActive(); }
    }
  }

  lemma ThinThenInsertNew(c: Core, b: Core, sid: SessionId, d: Delivery, g: Signals)
    requires Valid(b) && Thins(c, b) && |b.signals| == |c.signals| && b.nextId == c.nextId && HasRoom(b, sid)
    requires forall t :: t in c.deliveries && t !in b.deliveries ==> !c.deliveries[t].state.IsActive()
    ensures var r := Insert(b, sid, d, g);
            Valid(r) && Inserts(c, r, sid) && r.deliveries[sid] == d.(id := c.nextId, cell := |c.signals|)
            && r.signals[|c.signals|] == g
  {
    InsertKeepsValid(b, sid, d, g);
    InsertInserts(b, sid, d, g);
    ThinThenInsert(c, b, Insert(b, sid, d, g), sid);
  }

  /** `begin` either changes nothing or inserts its record, evicting only an inactive one. */
  lemma BeginInserts(c: Core, sid: SessionId, epoch: nat, baseline: nat, m: Submission, settlement: Settlement,
                     t: Terminal)
    requires Valid(c)
    ensures var (r, accepted) := Begin(c, sid, epoch, baseline, m, settlement, t);
            var x := FreshSlot(epoch, baseline, m, settlement, t, Inherited(c, sid));
            && Valid(r) && (!accepted ==> r == c)
            && (accepted ==> MayBegin(c, sid, epoch) && Inserts(c, r, sid)
                             && r.deliveries[sid] == x.record.(id := c.nextId, cell := |c.signals|)
                             && r.signals[|c.signals|] == x.signals)
  {
    MakeRoomKeepsValid(c, sid);
    MakeRoomThins(c, sid);
    var room := MakeRoom(c, sid);
    if MayBegin(c, sid, epoch) && HasRoom(room, sid) {
      var x := FreshSlot(epoch, baseline, m, settlement, t, Inherited(c, sid));
      ThinThenInsertNew(c, room, sid, x.record, x.signals);
    }
  }

  /** `block_for_unavailable_composer` when it does not cancel a record in place. */
  lemma BlockInserts(c: Core, sid: SessionId, epoch: nat, baseline: nat, m: Submission, cause: CancelCause,
                     n: Option<string>)
    requires Valid(c) && !(sid in c.deliveries && c.deliveries[sid].state.WritingPaste?)
    ensures var (r, accepted) := Block(c, sid, epoch, baseline, m, cause, n);
            && Valid(r) && (!accepted ==> r == c)
            && (accepted ==>
                  && (sid in c.deliveries ==> c.deliveries[sid].state.AcceptsReplacement()) && Inserts(c, r, sid)
                  && r.deliveries[sid]
                     == BlockedRecord(epoch, baseline, m, cause, n).(id := c.nextId, cell := |c.signals|)
                  && r.signals[|c.signals|] == Signals(true, false, false, Dropped))
  {
    MakeRoomKeepsValid(c, sid);
    MakeRoomThins(c, sid);
    var room := MakeRoom(c, sid);
    var (r, accepted) := Block(c, sid, epoch, baseline, m, cause, n);
    if accepted {
      var cancelled := if sid !in c.deliveries then room
                       else Put(room, sid, Slot(c.deliveries[sid], SlotOf(c, sid).signals.(cancel := true)));
      if sid in c.deliveries { CancelThins(c, sid); }
      ThinThenInsertNew(c, cancelled, sid, BlockedRecord(epoch, baseline, m, cause, n),
                        Signals(true, false, false, Dropped));
    }
  }

  lemma CancelThins(c: Core, sid: SessionId)
    requires Valid(c) && sid in c.deliveries
    ensures var r := Put(c, sid, Slot(c.deliveries[sid], SlotOf(c, sid).signals.(cancel := true)));
            Valid(r) && Thins(c, r) && r.deliveries == c.deliveries && r.nextId == c.nextId
  {
    PutKeepsValid(c, sid, Slot(c.deliveries[sid], SlotOf(c, sid).signals.(cancel := true)));
    assert c.deliveries[sid := c.deliveries[sid]] == c.deliveries;
  }

  lemma RemoveThins(c: Core, sid: SessionId)
    requires Valid(c)
    ensures Valid(Remove(c, sid)) && Thins(c, Remove(c, sid)) && |Remove(c, sid).signals| == |c.signals|
    ensures forall t :: t in Remove(c, sid).deliveries <==> t in c.deliveries && t != sid
    ensures sid in c.deliveries ==> Remove(c, sid).signals[c.deliveries[sid].cell].cancel
  {
    DropKeepsValid(c, sid);
  }
}
