/** `GeneratedInputDeliveryRuntime`: the table of deliveries, updated in place. */
module DeliveryRuntime {
  import opened Common
  import opened DeliveryRecord
  import T = DeliveryTable

  class GeneratedInputDeliveryRuntime {
    var nextId: nat
    var deliveries: map<SessionId, Delivery>
    var order: seq<SessionId>
    /** The flags shared with workers: entry k was allocated for the k-th record. */
    var signals: seq<Signals>

    function View(): T.Core
      reads this
    {
      T.Core(nextId, deliveries, order, signals)
    }

    ghost predicate Valid()
      reads this
    {
      T.Valid(View())
    }

    constructor ()
      ensures Valid() && View() == T.EMPTY_CORE
    {
      nextId, deliveries, order, signals := 1, map[], [], [];
    }

    method RemoveSession(sid: SessionId)
      requires Valid()
      modifies this
      ensures Valid() && View() == T.Remove(old(View()), sid)
    {
      if sid in deliveries {
        var k := deliveries[sid].cell;
        signals := signals[k := signals[k].(cancel := true)];
      }
      DropRecord(sid);
    }

    method CanBeginPendingSubmission(sid: SessionId, epoch: nat) returns (r: bool)
      requires Valid()
      ensures r == T.MayBegin(View(), sid, epoch)
    {
      if sid !in deliveries { return true; }
      var d := deliveries[sid];
      if d.epoch != epoch { return false; }
      if d.state.AcceptsReplacement() { return true; }
      return d.state.Blocked?
             && (d.failure == Some(ComposerUnavailable) || d.failure == Some(ComposerNotReady))
             && !signals[d.cell].pasteStarted;
    }

    method EvictOldestTerminalDelivery()
      requires Valid()
      modifies this
      ensures var victim := T.OldestInactive(old(order), old(deliveries));
              View() == if victim.None? then old(View()) else T.Drop(old(View()), victim.value)
    {
      var i := 0;
      while i < |order| && (order[i] !in deliveries || deliveries[order[i]].state.IsActive())
        invariant 0 <= i <= |order|
        invariant T.OldestInactive(order, deliveries) == T.OldestInactive(order[i..], deliveries)
      {
        assert order[i..][1..] == order[i + 1..];
        i := i + 1;
      }
      if i < |order| {
        var sid := order[i];
        T.RemoveAtIsWithout(order, i);
        var k := deliveries[sid].cell;
        order := order[..i] + order[i + 1..];
        deliveries := deliveries - {sid};
        signals := signals[k := signals[k].HangUp()];
      }
    }

    /** Makes room for a session without a record, if the table is full. */
    method MakeRoom(sid: SessionId) returns (room: bool)
      requires Valid()
      modifies this
      ensures Valid() && View() == T.MakeRoom(old(View()), sid) && room == T.HasRoom(View(), sid)
    {
      T.MakeRoomKeepsValid(View(), sid);
      if sid !in deliveries && |deliveries| >= T.MAX_RUNTIME_DELIVERIES {
        EvictOldestTerminalDelivery();
      }
      room := sid in deliveries || |deliveries| < T.MAX_RUNTIME_DELIVERIES;
    }

    /** Drops the record of `sid`, and with it the sender of its channel. */
    method DropRecord(sid: SessionId)
      requires Valid()
      modifies this
      ensures Valid() && View() == T.Drop(old(View()), sid)
    {
      T.DropKeepsValid(View(), sid);
      if sid in deliveries {
        var k := deliveries[sid].cell;
        signals := signals[k := signals[k].HangUp()];
        deliveries := deliveries - {sid};
      }
      order := T.Without(order, sid);
    }

    /** Inserts a record under the next identity, at the back of the order. */
    method Insert(sid: SessionId, d: Delivery, g: Signals)
      requires Valid() && T.HasRoom(View(), sid)
      modifies this
      ensures Valid() && View() == T.Insert(old(View()), sid, d, g)
    {
      T.InsertKeepsValid(View(), sid, d, g);
      DropRecord(sid);
      order := order + [sid];
      deliveries := deliveries[sid := d.(id := nextId, cell := |signals|)];
      signals := signals + [g];
      nextId := SaturatingSucc(nextId);
    }

    /** `launch` says whether a worker thread now runs and whether the paste was handed over. */
    method Begin(sid: SessionId, epoch: nat, baseline: nat, m: Submission, settlement: Settlement, terminal: T.Terminal)
      returns (accepted: bool, launch: T.Launch)
      requires Valid()
      modifies this
      ensures Valid()
      ensures (View(), accepted) == T.Begin(old(View()), sid, epoch, baseline, m, settlement, terminal)
      ensures launch == T.LaunchOf(settlement, terminal)
    {
      launch := T.LaunchOf(settlement, terminal);
      var may := CanBeginPendingSubmission(sid, epoch);
      if !may { return false, launch; }
      var inherited := None;
      if sid in deliveries && Slot(deliveries[sid], signals[deliveries[sid].cell]).UnwrittenBlock() {
        inherited := Some(deliveries[sid]);
      }
      var room := MakeRoom(sid);
      if !room { return false, launch; }
      var d, g := Fresh(epoch, baseline, m, settlement, terminal, launch, inherited);
      Insert(sid, d, g);
      accepted := true;
    }

    /** The record and flags `begin` inserts; a launch that failed has failed them at once. */
    static method Fresh(epoch: nat, baseline: nat, m: Submission, settlement: Settlement, terminal: T.Terminal,
                        launch: T.Launch, inherited: Option<Delivery>) returns (d: Delivery, g: Signals)
      requires launch == T.LaunchOf(settlement, terminal)
      ensures Slot(d, g) == T.FreshSlot(epoch, baseline, m, settlement, terminal, inherited)
    {
      d := Delivery(0, 0, epoch, baseline, settlement, m, WritingPaste, None, None, None, None, NO_DIAGNOSTICS, None,
                    if terminal.activity.Some? then terminal.activity.value else InputActivity(0, 0), None);
      if inherited.Some? {
        var b := inherited.value;
        d := d.(originalFailure := b.originalFailure, cancelCause := b.cancelCause,
                cancelNotification := b.cancelNotification);
      }
      g := Signals(false, launch.pasteStarted, false, Open);
      if launch.failure.Some? {
        g := g.HangUp();
        d := d.(state := Failed);
        d := d.Record(launch.failure.value);
      }
    }

    method BlockForUnavailableComposer(sid: SessionId, epoch: nat, baseline: nat, m: Submission, cause: CancelCause,
                                       notification: Option<string>) returns (changed: bool)
      requires Valid()
      modifies this
      ensures Valid() && (View(), changed) == T.Block(old(View()), sid, epoch, baseline, m, cause, notification)
    {
      if sid in deliveries {
        var d := deliveries[sid];
        if d.epoch != epoch { return false; }
        if d.state.WritingPaste? {
          var g := signals[d.cell].(cancel := true).HangUp();
          d := d.(state := Blocked).Record(ComposerUnavailable);
          d := d.(cancelCause := Some(cause), cancelNotification := BoundedNotification(notification));
          Store(sid, d, g);
          return true;
        }
        if !d.state.AcceptsReplacement() { return false; }
        Store(sid, d, signals[d.cell].(cancel := true));
      }
      var room := MakeRoom(sid);
      if !room { return false; }
      Insert(sid, T.BlockedRecord(epoch, baseline, m, cause, notification),
             Signals(true, false, false, Dropped));
      changed := true;
    }

    method TransitionRuntimeEpoch(sid: SessionId, epoch: nat) returns (changed: bool)
      requires Valid()
      modifies this
      ensures Valid() && (View(), changed) == T.ChangeEpoch(old(View()), sid, epoch)
    {
      if sid !in deliveries || deliveries[sid].epoch == epoch { return false; }
      var d := deliveries[sid];
      var g := signals[d.cell].(cancel := true).HangUp();
      d := d.(epoch := epoch, confirmation := None);
      if !d.state.Confirmed? {
        d := d.(state := RequiresUserResubmit).Record(RuntimeEpochChanged);
      }
      Store(sid, d, g);
      changed := true;
    }

    /** Writes a changed record and its flags back. */
    method Store(sid: SessionId, d: Delivery, g: Signals)
      requires Valid() && sid in deliveries && d.id == deliveries[sid].id && d.cell == deliveries[sid].cell
      modifies this
      ensures Valid() && View() == T.Put(old(View()), sid, Slot(d, g))
    {
      T.PutKeepsValid(View(), sid, Slot(d, g));
      deliveries := deliveries[sid := d];
      signals := signals[d.cell := g];
    }

    method ApplyTransportEvent(e: Event) returns (changed: bool)
      requires Valid()
      modifies this
      ensures Valid() && (View(), changed) == T.Apply(old(View()), e)
    {
      if e.session !in deliveries { return false; }
      if deliveries[e.session].id != e.id || deliveries[e.session].epoch != e.epoch { return false; }
      var x := T.SlotOf(View(), e.session);
      var d, g := Reconcile(x.record, x.signals, e.outcome, e.diagnostics);
      changed := OutcomeIsDue(x.record.state, e.outcome) || d.learned != x.record.learned;
      Store(e.session, d, g);
    }

    /** The body of `apply_transport_event`, on the record and flags it found. */
    static method Reconcile(x: Delivery, f: Signals, o: Outcome, m: Diagnostics) returns (d: Delivery, g: Signals)
      ensures Slot(d, g) == Conclusion(Merge(Slot(x, f), m), o)
      ensures d.id == x.id && d.cell == x.cell && d.learned == Merge(Slot(x, f), m).record.learned
    {
      d, g := x, f;
      if m.submitReceipted { g := g.(submitReceipted := true); }
      d := Merge(Slot(d, g), m).record;
      match o {
        case Submitted =>
          if d.state.WritingPaste? {
            if d.confirmation.Some? && d.confirmation.value.0 > d.baseline {
              d := d.RecordActivity(d.confirmation.value.1);
              d := d.(state := Confirmed);
            } else {
              d := d.(state := AwaitingProviderAck);
            }
            d := d.(failure := None);
          }
        case SubmitRetried =>
        case SubmitRetryFailed(f) =>
          if d.state.AwaitingProviderAck? {
            g := g.HangUp();
            d := d.(state := Stalled);
            d := d.Record(f);
          }
        case ProviderAckTimedOut =>
          if d.state.AwaitingProviderAck? {
            g := g.HangUp();
            d := d.(state := Stalled);
            d := d.Record(ProviderAckMissing);
          }
        case BlockedBy(f) => if d.state.WritingPaste? { d, g := Rest(d, g, f, Blocked); }
        case FailedBy(f) => if d.state.WritingPaste? { d, g := Rest(d, g, f, Failed); }
      }
    }

    static method Rest(x: Delivery, h: Signals, f: Failure, resting: State) returns (d: Delivery, g: Signals)
      ensures Slot(d, g) == Conclude(Slot(x, h), f, resting)
    {
      g := h.HangUp();
      d := x.Record(f);
      if f.ComposerNotReady? && !g.pasteStarted {
        d := d.(confirmation := None, state := resting);
      } else if d.confirmation.Some? {
        var activity := d.confirmation.value.1;
        d := d.RecordActivity(activity);
        if d.Attributed(f, activity) { d := d.(state := Confirmed); } else { d := d.(state := ConfirmedUnattributed); }
        d := d.(failure := None);
      } else {
        d := d.(state := resting);
      }
    }

    method ConfirmProviderSubmission(sid: SessionId, epoch: nat, sequence: nat, activity: Option<InputActivity>)
      returns (changed: bool)
      requires Valid()
      modifies this
      ensures Valid() && (View(), changed) == T.Acknowledge(old(View()), sid, epoch, sequence, activity)
    {
      if sid !in deliveries || deliveries[sid].epoch != epoch { return false; }
      var d, g;
      d, g, changed := Credit(deliveries[sid], signals[deliveries[sid].cell], sequence, activity);
      Store(sid, d, g);
    }

    /** The body of `confirm_provider_submission`, on the record and flags it found. */
    static method Credit(x: Delivery, f: Signals, sequence: nat, activity: Option<InputActivity>)
      returns (d: Delivery, g: Signals, changed: bool)
      ensures (Slot(d, g), changed) == ConfirmSubmission(Slot(x, f), sequence, activity)
      ensures d.id == x.id && d.cell == x.cell
    {
      d, g, changed := x, f, false;
      if sequence <= d.baseline { return; }
      if d.failure == Some(ComposerNotReady) && !g.pasteStarted { return; }
      if d.state.WritingPaste? {
        if d.confirmation.None? || d.confirmation.value.0 <= sequence {
          d := d.(confirmation := Some((sequence, activity)));
        }
        g := g.SendAck();
        return;
      }
      var next := Confirmed;
      if d.state.Blocked? || d.state.Failed? {
        if d.failure.None? || !d.Attributed(d.failure.value, activity) { next := ConfirmedUnattributed; }
      } else if !d.state.AwaitingProviderAck? && !d.state.Stalled? {
        return;
      }
      d := d.(confirmation := Some((sequence, activity)));
      d := d.RecordActivity(activity);
      d := d.(state := next, failure := None);
      g := g.SendAck();
      changed := true;
    }

    method ConfirmProviderProgress(sid: SessionId, epoch: nat, sequence: nat) returns (changed: bool)
      requires Valid()
      modifies this
      ensures Valid() && (View(), changed) == T.Progress(old(View()), sid, epoch, sequence)
    {
      if sid !in deliveries || deliveries[sid].epoch != epoch { return false; }
      T.PutSame(View(), sid);
      var d := deliveries[sid];
      var g := signals[d.cell];
      if d.state.AwaitingProviderAck? && sequence > d.baseline {
        Store(sid, d, g.(cancel := true));
        return false;
      }
      if !d.state.ConfirmedUnattributed? || d.confirmation.None? || sequence <= d.confirmation.value.0 { return false; }
      Store(sid, d.(state := Confirmed, failure := None), g.SendAck());
      changed := true;
    }

    method ConfirmProviderQueueProgress(sid: SessionId, epoch: nat, sequence: nat) returns (changed: bool)
      requires Valid()
      modifies this
      ensures Valid() && (View(), changed) == T.QueueProgress(old(View()), sid, epoch, sequence)
    {
      if sid !in deliveries || deliveries[sid].epoch != epoch { return false; }
      T.PutSame(View(), sid);
      var d := deliveries[sid];
      var g := signals[d.cell];
      if !d.settlement.ProviderQueue? || !g.submitReceipted || sequence <= d.baseline { return false; }
      if d.state.WritingPaste? {
        if d.confirmation.None? || d.confirmation.value.0 <= sequence {
          d := d.(confirmation := Some((sequence, None)));
        }
        Store(sid, d, g);
        return false;
      }
      if !d.state.AwaitingProviderAck? { return false; }
      Store(sid, d.(confirmation := Some((sequence, None)), state := Confirmed, failure := None), g.SendAck());
      changed := true;
    }
  }
}
