/**
One observed session: its observation of the provider, its queue of submissions,
and the decisions it takes about the delivery table. `ObservedSession` updates
these in place; SessionProtocol runs them against the delivery protocol.
 */
module SessionDesk {
  import opened Common
  import opened DeliveryRecord
  import opened Observation
  import T = DeliveryTable

  const MAX_PENDING: nat := 16

  datatype Config = Config(id: SessionId, epoch: nat, provider: Provider)

  datatype Desk = Desk(observation: Option<AgentObservation>, last: Option<Signal>, pending: seq<Submission>,
                       hookPending: bool)

  const EMPTY_DESK := Desk(None, None, [], false)

  /** The sequence of the latest observation; 0 before the first. */
  function Sequence(k: Desk): nat { if k.observation.Some? then k.observation.value.sequence else 0 }

  /** `enqueue`. */
  function Enqueue(k: Desk, m: Submission): (Desk, bool) {
    if |k.pending| >= MAX_PENDING then (k, false) else (k.(pending := k.pending + [m]), true)
  }

  /** The number `observe` gives a signal. */
  function NextSequence(k: Desk): nat {
    if k.observation.Some? then SaturatingSucc(k.observation.value.sequence) else 1
  }

  function Observe(k: Desk, signal: Signal, source: Source, at: nat): Desk {
    k.(observation := Some(Reduce(k.observation, signal, source, NextSequence(k), at)), last := Some(signal))
  }

  /** A signal from `hook` or from the channel; a hook that starts the session waits to be answered. */
  function ObserveFrom(k: Desk, signal: Signal, source: Source, at: nat): Desk {
    Observe(k, signal, source, at).(hookPending := k.hookPending || (source.Hook? && signal.SessionStarted?))
  }

  predicate IsProgress(signal: Signal) {
    signal.ToolStarted? || signal.ToolFinished? || signal.Stopped? || signal.PermissionAsked?
  }

  /** What a signal numbered `sequence` tells the table. */
  function Tell(f: Config, c: T.Core, sequence: nat, signal: Signal, activity: Option<InputActivity>): (r: T.Core)
    requires T.Valid(c)
    ensures T.Valid(r)
  {
    if signal.PromptSubmitted? then
      T.AcknowledgeKeepsValid(c, f.id, f.epoch, sequence, activity);
      T.Acknowledge(c, f.id, f.epoch, sequence, activity).0
    else if IsProgress(signal) then
      T.ProgressKeepsValid(c, f.id, f.epoch, sequence);
      T.Progress(c, f.id, f.epoch, sequence).0
    else c
  }

  /** The front submission is done with. */
  predicate FrontIsDone(f: Config, k: Desk, c: T.Core) {
    && k.pending != [] && f.id in c.deliveries
    && c.deliveries[f.id].epoch == f.epoch && c.deliveries[f.id].submission == k.pending[0]
    && c.deliveries[f.id].state.AcceptsReplacement()
  }

  datatype Decision = Wait | Block(cause: CancelCause) | Begin(settlement: Settlement)

  /** What `poll` does about the front submission, after dropping one that is done. */
  function Decide(f: Config, k: Desk, c: T.Core): (r: Decision)
    requires T.Valid(c)
    ensures !r.Wait? ==> k.pending != [] && !k.hookPending && k.observation.Some?
    ensures r.Begin? ==> MayAccept(f.provider, k.observation) && T.MayBegin(c, f.id, f.epoch)
  {
    if k.hookPending || k.pending == [] then Wait
    else if !T.MayBegin(c, f.id, f.epoch) then
      if k.observation.Some? && k.observation.value.state.AwaitingInput?
         && T.InEpoch(c, f.id, f.epoch) && c.deliveries[f.id].state.WritingPaste?
      then Block(CauseFor(k.observation, k.last)) else Wait
    else if MayAccept(f.provider, k.observation) then Begin(SettlementFor(f.provider, k.observation))
    else if k.observation.Some? then Block(CauseFor(k.observation, k.last))
    else Wait
  }

  /** The composer asks something of the user while the paste is still being written. */
  predicate Interferes(f: Config, k: Desk, c: T.Core) {
    && k.observation.Some? && k.observation.value.state.AwaitingInput?
    && T.InEpoch(c, f.id, f.epoch) && c.deliveries[f.id].state.WritingPaste?
  }

  /**
  A submission begins exactly when one waits, no hook does, the table allows it and
  the composer may accept. It is blocked exactly when instead the composer may not
  accept, or asks something while the paste is being written.
   */
  lemma DecideExactly(f: Config, k: Desk, c: T.Core)
    requires T.Valid(c)
    ensures var may, ready := T.MayBegin(c, f.id, f.epoch), k.pending != [] && !k.hookPending;
            && (Decide(f, k, c).Begin? <==> ready && may && MayAccept(f.provider, k.observation))
            && (Decide(f, k, c).Block? <==>
                  && ready && k.observation.Some?
                  && if may then !MayAccept(f.provider, k.observation) else Interferes(f, k, c))
            && (Decide(f, k, c).Begin? ==> Decide(f, k, c).settlement == SettlementFor(f.provider, k.observation))
            && (Decide(f, k, c).Block? ==> Decide(f, k, c).cause == CauseFor(k.observation, k.last))
  {
  }

  // ----- the parts of `poll` -----

  const MAX_POLLED: nat := 256

  /** What arrives from the provider's runtime; `activity` is what the terminal answers when it is heard. */
  datatype Arrival = Arrival(session: SessionId, epoch: nat, signal: Option<Signal>, activity: Option<InputActivity>)

  predicate Concerns(f: Config, a: Arrival) { a.session == f.id && a.epoch == f.epoch && a.signal.Some? }

  /** The desk and the table after hearing what arrived, in order. */
  function HearAll(f: Config, k: Desk, c: T.Core, arrivals: seq<Arrival>, at: nat): (r: (Desk, T.Core))
    requires T.Valid(c)
    ensures T.Valid(r.1)
  {
    if arrivals == [] then (k, c)
    else
      var a := arrivals[|arrivals| - 1];
      var (k1, c1) := HearAll(f, k, c, arrivals[..|arrivals| - 1], at);
      if !Concerns(f, a) then (k1, c1)
      else
        (ObserveFrom(k1, a.signal.value, DaemonBridge, at), Tell(f, c1, NextSequence(k1), a.signal.value, a.activity))
  }

  function ReceiveAll(c: T.Core, events: seq<Event>): (r: T.Core)
    requires T.Valid(c)
    ensures T.Valid(r)
  {
    if events == [] then c
    else
      var before := ReceiveAll(c, events[..|events| - 1]);
      T.ApplyKeepsValid(before, events[|events| - 1]);
      T.Apply(before, events[|events| - 1]).0
  }

  function SettleDesk(f: Config, k: Desk, c: T.Core): (r: (Desk, T.Core))
    requires T.Valid(c)
    ensures T.Valid(r.1)
  {
    if !FrontIsDone(f, k, c) then (k, c)
    else T.DropKeepsValid(c, f.id); (k.(pending := k.pending[1..]), T.Remove(c, f.id))
  }

  function DispatchTable(f: Config, k: Desk, c: T.Core, t: T.Terminal): T.Core
    requires T.Valid(c)
  {
    match Decide(f, k, c)
    case Wait => c
    case Block(cause) => T.Block(c, f.id, f.epoch, Sequence(k), k.pending[0], cause, None).0
    case Begin(settlement) => T.Begin(c, f.id, f.epoch, Sequence(k), k.pending[0], settlement, t).0
  }

  /** The first half of `poll`: what arrived is heard and received. */
  function Attended(f: Config, k: Desk, c: T.Core, arrivals: seq<Arrival>, events: seq<Event>,
                    at: nat): (r: (Desk, T.Core))
    requires T.Valid(c)
    ensures T.Valid(r.1)
  {
    var (k1, c1) := HearAll(f, k, c, arrivals[..Min(MAX_POLLED, |arrivals|)], at);
    (k1, ReceiveAll(c1, events[..Min(MAX_POLLED, |events|)]))
  }

  /** The second half: the front is settled, and the next one dispatched. */
  function Proceeded(f: Config, k: Desk, c: T.Core, t: T.Terminal): (Desk, T.Core)
    requires T.Valid(c)
  {
    var (k1, c1) := SettleDesk(f, k, c);
    (k1, DispatchTable(f, k1, c1, t))
  }

  function Polled(f: Config, k: Desk, c: T.Core, arrivals: seq<Arrival>, events: seq<Event>, t: T.Terminal, at: nat)
    : (Desk, T.Core)
    requires T.Valid(c)
  {
    var (k1, c1) := Attended(f, k, c, arrivals, events, at);
    Proceeded(f, k1, c1, t)
  }
}
