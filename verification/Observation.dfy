/** What is known of the provider, and when its composer may take generated input. */
module Observation {
  import opened Common
  import opened DeliveryRecord

  datatype AgentState = Unknown | Working | AwaitingInput | Idle | Compacting | TurnFailed | Interrupted | Exited

  datatype Signal =
    | SignalUnavailable | SessionStarted | PromptSubmitted | ToolStarted | ToolFinished | PermissionAsked | Notified
    | IdleNotified | AmbientNotification | CompactStarted | CompactResumedTurn | Stopped | TurnFailure
    | InterruptSeen | ClientRestartInterrupted | DaemonRestartInterrupted | SessionEnded

  datatype Source = Hook | DaemonBridge | Transcript | Process

  datatype AgentObservation = AgentObservation(state: AgentState, source: Source, sequence: nat, at: nat)

  /** Signals that an earlier, more telling state outweighs. */
  predicate Outweighed(o: AgentObservation, signal: Signal, source: Source) {
    || (o.state.Interrupted? && (signal.Stopped? || signal.IdleNotified?))
    || (o.state.Interrupted? && o.source.Process?
        && (signal.SessionStarted? || signal.ToolStarted? || signal.ToolFinished?))
    || (o.state.TurnFailed? && (signal.Stopped? || signal.IdleNotified? || signal.AmbientNotification?))
    || (o.state.Idle? && source.DaemonBridge? && signal.ToolFinished?)
  }

  function StateAfter(previous: Option<AgentObservation>, signal: Signal): AgentState {
    match signal
    case SignalUnavailable => Unknown
    case SessionStarted => Idle
    case PromptSubmitted => Working
    case ToolStarted => Working
    case ToolFinished => Working
    case CompactResumedTurn => Working
    case PermissionAsked => AwaitingInput
    case Notified => AwaitingInput
    case AmbientNotification => if previous.Some? then previous.value.state else Unknown
    case CompactStarted => Compacting
    case Stopped => Idle
    case IdleNotified => Idle
    case TurnFailure => TurnFailed
    case InterruptSeen => Interrupted
    case ClientRestartInterrupted => Interrupted
    case DaemonRestartInterrupted => Interrupted
    case SessionEnded => Exited
  }

  /** `reduce_observation`. */
  function Reduce(previous: Option<AgentObservation>, signal: Signal, source: Source, sequence: nat,
                  at: nat): AgentObservation {
    if previous.Some? && sequence <= previous.value.sequence then previous.value
    else if previous.Some? && previous.value.state.Interrupted? && previous.value.source.Process?
            && signal.SessionStarted? && source.Hook? then AgentObservation(Interrupted, source, sequence, at)
    else if previous.Some? && Outweighed(previous.value, signal, source) then previous.value
    else AgentObservation(StateAfter(previous, signal), source, sequence, at)
  }

  /** A turn that failed or was interrupted is not at rest until it is shown to have ended otherwise. */
  predicate Unwell(o: AgentObservation) { o.state.TurnFailed? || o.state.Interrupted? }

  /**
  A signal is news: nothing was known, or it is newer than what is and what is does
  not outweigh it. An interruption outweighs the end of a turn, and if the process
  reported it also signs of life, unless a hook reports the session's start; a
  failure outweighs the end of a turn and ambient notices; idleness outweighs a tool
  that is reported as finished late.
   */
  predicate IsNews(previous: Option<AgentObservation>, signal: Signal, source: Source, sequence: nat) {
    previous.Some? ==>
      && sequence > previous.value.sequence
      && match previous.value.state {
           case Interrupted =>
             && signal !in {Stopped, IdleNotified}
             && (previous.value.source == Process ==>
                   signal !in {ToolStarted, ToolFinished} && (signal == SessionStarted ==> source == Hook))
           case TurnFailed => signal !in {Stopped, IdleNotified, AmbientNotification}
           case Idle => signal != ToolFinished || source != DaemonBridge
           case _ => true
         }
  }

  /**
  The sequence never goes back; it moves, and the observation changes, exactly when
  the signal is news; a newer prompt is always news, and recorded as work.
   */
  lemma SequenceAdvances(previous: Option<AgentObservation>, signal: Signal, source: Source, sequence: nat, at: nat)
    ensures var r := Reduce(previous, signal, source, sequence, at);
            && (previous.Some? ==> r.sequence >= previous.value.sequence)
            && (previous.Some? ==>
                  (r.sequence > previous.value.sequence <==> IsNews(previous, signal, source, sequence)))
            && (if IsNews(previous, signal, source, sequence) then r == AgentObservation(r.state, source, sequence, at)
                else Some(r) == previous)
            && (signal.PromptSubmitted? && (previous.Some? ==> sequence > previous.value.sequence) ==>
                  IsNews(previous, signal, source, sequence) && r.state.Working?)
  {
  }

  /** From there only the start of a session leads to idle, and not out of an interruption the process reported. */
  lemma IdleIsEarned(o: AgentObservation, signal: Signal, source: Source, sequence: nat, at: nat)
    requires Unwell(o)
    ensures Reduce(Some(o), signal, source, sequence, at).state.Idle? <==>
            sequence > o.sequence && signal.SessionStarted? && !(o.state.Interrupted? && o.source.Process?)
  {
  }

  /** An interruption the process reported, after which a hook starts the session anew. */
  predicate IsResumedInterruption(previous: Option<AgentObservation>, signal: Signal, source: Source) {
    && previous.Some? && previous.value.state.Interrupted? && previous.value.source.Process?
    && signal.SessionStarted? && source.Hook?
  }

  /** Read by the state it leads to, what each signal means when it is news. */
  lemma NewsMeans(previous: Option<AgentObservation>, signal: Signal, source: Source, sequence: nat, at: nat)
    requires IsNews(previous, signal, source, sequence)
    ensures var s, again := Reduce(previous, signal, source, sequence, at).state,
                            IsResumedInterruption(previous, signal, source);
            var ambient := signal.AmbientNotification?;
            if ambient then s == (if previous.Some? then previous.value.state else Unknown)
            else
              && (s == Unknown <==> signal == SignalUnavailable)
              && (s == Working <==> signal in {PromptSubmitted, ToolStarted, ToolFinished, CompactResumedTurn})
              && (s == AwaitingInput <==> signal in {PermissionAsked, Notified})
              && (s == Idle <==> signal in {Stopped, IdleNotified} || (signal == SessionStarted && !again))
              && (s == Compacting <==> signal == CompactStarted)
              && (s == TurnFailed <==> signal == TurnFailure)
              && (s == Interrupted <==>
                    again || signal in {InterruptSeen, ClientRestartInterrupted, DaemonRestartInterrupted})
              && (s == Exited <==> signal == SessionEnded)
  {
  }

  /** Signals that say no more than that the provider stopped. */
  predicate Quiet(signal: Signal) { signal.Stopped? || signal.IdleNotified? }

  datatype Heard = Heard(signal: Signal, source: Source, sequence: nat, at: nat)

  function ReduceAll(o: AgentObservation, heard: seq<Heard>): AgentObservation {
    if heard == [] then o
    else
      var h := heard[|heard| - 1];
      Reduce(Some(ReduceAll(o, heard[..|heard| - 1])), h.signal, h.source, h.sequence, h.at)
  }

  /** The i-th signal heard was news when it came. */
  predicate WasNews(o: AgentObservation, heard: seq<Heard>, i: nat)
    requires i < |heard|
  {
    IsNews(Some(ReduceAll(o, heard[..i])), heard[i].signal, heard[i].source, heard[i].sequence)
  }

  lemma ReduceLast(o: AgentObservation, heard: seq<Heard>, i: nat)
    requires i < |heard|
    ensures ReduceAll(o, heard[..i + 1])
            == Reduce(Some(ReduceAll(o, heard[..i])), heard[i].signal, heard[i].source, heard[i].sequence, heard[i].at)
  {
    assert heard[..i + 1][..i] == heard[..i];
  }

  /** What is on view comes from the last signal that was news, and is what was there if none was. */
  lemma {:induction false} ViewIsLastNews(o: AgentObservation, heard: seq<Heard>, n: nat) returns (i: nat)
    requires n <= |heard|
    ensures i <= n && forall j :: i <= j < n ==> !WasNews(o, heard, j)
    ensures if i == 0 then ReduceAll(o, heard[..n]) == o
            else WasNews(o, heard, i - 1) && ReduceAll(o, heard[..n]) == ReduceAll(o, heard[..i])
                 && ReduceAll(o, heard[..i]).sequence == heard[i - 1].sequence
  {
    if n == 0 {
      i := 0;
      assert heard[..0] == [];
    } else {
      var h := heard[n - 1];
      ReduceLast(o, heard, n - 1);
      SequenceAdvances(Some(ReduceAll(o, heard[..n - 1])), h.signal, h.source, h.sequence, h.at);
      if WasNews(o, heard, n - 1) { i := n; } else { i := ViewIsLastNews(o, heard, n - 1); }
    }
  }

  /** However often it is said that the provider stopped, the failure or interruption stays on view. */
  lemma {:induction false} QuietHidesNothing(o: AgentObservation, heard: seq<Heard>)
    requires Unwell(o) && forall i :: 0 <= i < |heard| ==> Quiet(heard[i].signal)
    ensures ReduceAll(o, heard) == o
  {
    if heard != [] { QuietHidesNothing(o, heard[..|heard| - 1]); }
  }

  datatype Provider = Claude | Codex | Other

  /** `generated_input_composer_may_accept`. */
  predicate MayAccept(p: Provider, o: Option<AgentObservation>) {
    o.Some? && (o.value.state.Idle?
                || (p.Claude? && o.value.state.Interrupted? && o.value.source.Hook?)
                || (p.Codex? && o.value.state.Interrupted?))
  }

  /** `generated_input_settlement`, never asked for the provider queue by an observed session. */
  function SettlementFor(p: Provider, o: Option<AgentObservation>): Settlement {
    if p.Codex? && !(o.Some? && o.value.source.DaemonBridge?) then CodexComposerRender
    else if p.Codex? || p.Claude? then ComposerRender
    else OutputActivity
  }

  /** `unavailable_composer_cause`. */
  function CauseFor(o: Option<AgentObservation>, last: Option<Signal>): CancelCause {
    if last == Some(PermissionAsked) then PermissionRequested
    else if last == Some(Notified) then Notification
    else if o.Some? && o.value.state.AwaitingInput? then ProviderAwaitingInput
    else if o.Some? && o.value.state.TurnFailed? then ProviderTurnFailed
    else ProviderBusy
  }
}
