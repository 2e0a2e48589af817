/** `ObservedSession`: the desk of one session and its table, updated in place. */
module ObservedSession {
  import opened Common
  import opened DeliveryRecord
  import opened DeliveryRuntime
  import opened Ingress
  import opened Observation
  import opened SessionDesk
  import T = DeliveryTable

  class ObservedSession {
    const config: Config
    const token: string
    const ingress: ProviderObservationIngress
    const deliveries: GeneratedInputDeliveryRuntime
    var observation: Option<AgentObservation>
    var lastSignal: Option<Signal>
    var pending: seq<Submission>
    var hookPending: bool
    /** What the two channels hold. */
    var arrivals: seq<Arrival>
    var events: seq<Event>

    function View(): Desk
      reads this
    {
      Desk(observation, lastSignal, pending, hookPending)
    }

    ghost predicate Valid()
      reads this, deliveries, ingress
    {
      deliveries.Valid() && ingress.Valid()
    }

    constructor (f: Config, secret: string)
      ensures Valid() && fresh(deliveries) && fresh(ingress)
      ensures config == f && token == secret && View() == EMPTY_DESK && deliveries.View() == T.EMPTY_CORE
      ensures arrivals == [] && events == []
    {
      config, token := f, secret;
      ingress := new ProviderObservationIngress();
      deliveries := new GeneratedInputDeliveryRuntime();
      observation, lastSignal, pending, hookPending, arrivals, events := None, None, [], false, [], [];
    }

    method AddSubmission(m: Submission) returns (accepted: bool)
      modifies this
      ensures (View(), accepted) == Enqueue(old(View()), m)
      ensures arrivals == old(arrivals) && events == old(events)
    {
      if |pending| >= MAX_PENDING { return false; }
      pending := pending + [m];
      accepted := true;
    }

    predicate TokenMatches(given: string) { 0 < |token| <= 256 && |given| <= 256 && given == token }

    /** `signal` is what the hook normalises to, if anything. */
    method Hook(given: string, signal: Option<Signal>, at: nat, activity: Option<InputActivity>) returns (taken: bool)
      requires Valid()
      modifies this, deliveries, ingress
      ensures Valid() && arrivals == old(arrivals) && events == old(events)
      ensures taken
              <==> TokenMatches(given) && Admitted(WindowOf(old(ingress.windows), config.id), at).1 && signal.Some?
      ensures !TokenMatches(given) ==> ingress.windows == old(ingress.windows)
      ensures if taken then
                && View() == ObserveFrom(old(View()), signal.value, Source.Hook, at)
                && deliveries.View()
                   == Tell(config, old(deliveries.View()), NextSequence(old(View())), signal.value, activity)
              else View() == old(View()) && deliveries.View() == old(deliveries.View())
    {
      if !TokenMatches(given) { return false; }
      var admitted := ingress.Admit(config.id, at);
      if !admitted || signal.None? { return false; }
      if signal.value.SessionStarted? { hookPending := true; }
      Observe(signal.value, Source.Hook, at, activity);
      taken := true;
    }

    method ReleaseHookResponse(given: string)
      modifies this
      ensures View() == if TokenMatches(given) then old(View()).(hookPending := false) else old(View())
      ensures arrivals == old(arrivals) && events == old(events)
    {
      if TokenMatches(given) { hookPending := false; }
    }

    method Observe(signal: Signal, source: Source, at: nat, activity: Option<InputActivity>)
      requires deliveries.Valid()
      modifies this`observation, this`lastSignal, deliveries
      ensures deliveries.Valid()
      ensures View() == SessionDesk.Observe(old(View()), signal, source, at)
      ensures deliveries.View() == Tell(config, old(deliveries.View()), NextSequence(old(View())), signal, activity)
    {
      var sequence := if observation.Some? then SaturatingSucc(observation.value.sequence) else 1;
      observation := Some(Reduce(observation, signal, source, sequence, at));
      lastSignal := Some(signal);
      TellDeliveries(sequence, signal, activity);
    }

    method TellDeliveries(sequence: nat, signal: Signal, activity: Option<InputActivity>)
      requires deliveries.Valid()
      modifies deliveries
      ensures deliveries.Valid()
      ensures deliveries.View() == Tell(config, old(deliveries.View()), sequence, signal, activity)
    {
      if signal.PromptSubmitted? {
        var _ := deliveries.ConfirmProviderSubmission(config.id, config.epoch, sequence, activity);
      } else if IsProgress(signal) {
        var _ := deliveries.ConfirmProviderProgress(config.id, config.epoch, sequence);
      }
    }

    method HearNext(ghost desk: Desk, ghost before: T.Core, heard: seq<Arrival>, i: nat, at: nat)
      requires deliveries.Valid() && i < |heard| && T.Valid(before)
      requires (View(), deliveries.View()) == HearAll(config, desk, before, heard[..i], at)
      modifies this, deliveries
      ensures deliveries.Valid() && events == old(events) && arrivals == old(arrivals)
      ensures (View(), deliveries.View()) == HearAll(config, desk, before, heard[..i + 1], at)
    {
      assert heard[..i + 1][..i] == heard[..i];
      var a := heard[i];
      if a.session == config.id && a.epoch == config.epoch && a.signal.Some? {
        Observe(a.signal.value, DaemonBridge, at, a.activity);
      }
    }

    /** Hears at most 256 arrivals. */
    method Hear(at: nat)
      requires deliveries.Valid()
      modifies this, deliveries
      ensures deliveries.Valid() && events == old(events)
      ensures var n := Min(MAX_POLLED, |old(arrivals)|);
              && arrivals == old(arrivals)[n..]
              && (View(), deliveries.View())
                 == HearAll(config, old(View()), old(deliveries.View()), old(arrivals)[..n], at)
    {
      ghost var desk, before := View(), deliveries.View();
      var n := Min(MAX_POLLED, |arrivals|);
      var heard := arrivals[..n];
      arrivals := arrivals[n..];
      for i := 0 to n
        invariant deliveries.Valid() && events == old(events) && arrivals == old(arrivals)[n..]
        invariant (View(), deliveries.View()) == HearAll(config, desk, before, heard[..i], at)
      {
        HearNext(desk, before, heard, i, at);
      }
      assert heard[..n] == heard;
    }

    method ReceiveNext(ghost before: T.Core, taken: seq<Event>, i: nat)
      requires deliveries.Valid() && i < |taken| && T.Valid(before)
      requires deliveries.View() == ReceiveAll(before, taken[..i])
      modifies deliveries
      ensures deliveries.Valid() && deliveries.View() == ReceiveAll(before, taken[..i + 1])
    {
      assert taken[..i + 1][..i] == taken[..i];
      var _ := deliveries.ApplyTransportEvent(taken[i]);
    }

    /** Applies at most 256 transport events. */
    method Receive()
      requires deliveries.Valid()
      modifies this`events, deliveries
      ensures deliveries.Valid()
      ensures var n := Min(MAX_POLLED, |old(events)|);
              events == old(events)[n..] && deliveries.View() == ReceiveAll(old(deliveries.View()), old(events)[..n])
    {
      ghost var before := deliveries.View();
      var n := Min(MAX_POLLED, |events|);
      var taken := events[..n];
      events := events[n..];
      for i := 0 to n
        invariant deliveries.Valid() && deliveries.View() == ReceiveAll(before, taken[..i])
        invariant events == old(events)[n..]
      {
        ReceiveNext(before, taken, i);
      }
      assert taken[..n] == taken;
    }

    /** Drops a front submission that is done with, and its record. */
    method Settle()
      requires deliveries.Valid()
      modifies this`pending, deliveries
      ensures deliveries.Valid()
      ensures (View(), deliveries.View()) == SettleDesk(config, old(View()), old(deliveries.View()))
    {
      if pending != [] && config.id in deliveries.deliveries {
        var d := deliveries.deliveries[config.id];
        if d.epoch == config.epoch && d.submission == pending[0] && d.state.AcceptsReplacement() {
          pending := pending[1..];
          deliveries.RemoveSession(config.id);
        }
      }
    }

    /** Begins or blocks the front submission, or leaves it be. */
    method Dispatch(terminal: T.Terminal)
      requires deliveries.Valid()
      modifies deliveries
      ensures deliveries.Valid()
      ensures deliveries.View() == DispatchTable(config, old(View()), old(deliveries.View()), terminal)
    {
      if hookPending || pending == [] { return; }
      var sequence := if observation.Some? then observation.value.sequence else 0;
      var may := deliveries.CanBeginPendingSubmission(config.id, config.epoch);
      if !may {
        if observation.Some? && observation.value.state.AwaitingInput?
           && config.id in deliveries.deliveries && deliveries.deliveries[config.id].epoch == config.epoch
           && deliveries.deliveries[config.id].state.WritingPaste?
        {
          var _ := deliveries.BlockForUnavailableComposer(config.id, config.epoch, sequence, pending[0],
                                                          CauseFor(observation, lastSignal), None);
        }
        return;
      }
      if !MayAccept(config.provider, observation) {
        if observation.Some? {
          var _ := deliveries.BlockForUnavailableComposer(config.id, config.epoch, sequence, pending[0],
                                                          CauseFor(observation, lastSignal), None);
        }
        return;
      }
      var _, _ := deliveries.Begin(config.id, config.epoch, sequence, pending[0],
                                   SettlementFor(config.provider, observation), terminal);
    }

    method Attend(at: nat)
      requires deliveries.Valid()
      modifies this, deliveries
      ensures deliveries.Valid()
      ensures (View(), deliveries.View())
              == Attended(config, old(View()), old(deliveries.View()), old(arrivals), old(events), at)
      ensures arrivals == old(arrivals)[Min(MAX_POLLED, |old(arrivals)|)..]
      ensures events == old(events)[Min(MAX_POLLED, |old(events)|)..]
    {
      Hear(at);
      Receive();
    }

    method Proceed(terminal: T.Terminal)
      requires deliveries.Valid()
      modifies this`pending, deliveries
      ensures deliveries.Valid()
      ensures (View(), deliveries.View()) == Proceeded(config, old(View()), old(deliveries.View()), terminal)
    {
      Settle();
      Dispatch(terminal);
    }

    method Poll(terminal: T.Terminal, at: nat)
      requires Valid()
      modifies this, deliveries
      ensures Valid()
      ensures (View(), deliveries.View())
              == Polled(config, old(View()), old(deliveries.View()), old(arrivals), old(events), terminal, at)
      ensures arrivals == old(arrivals)[Min(MAX_POLLED, |old(arrivals)|)..]
      ensures events == old(events)[Min(MAX_POLLED, |old(events)|)..]
    {
      Attend(at);
      Proceed(terminal);
    }

    method Close()
      requires Valid()
      modifies this`pending, deliveries
      ensures Valid() && View() == old(View()).(pending := [])
      ensures deliveries.View() == T.Remove(old(deliveries.View()), config.id)
    {
      deliveries.RemoveSession(config.id);
      pending := [];
    }
  }
}
