/**
What an observed session does about its front submission and with what it hears,
in terms of states and signals.
 */
module SessionChoice {
  import opened Common
  import opened DeliveryRecord
  import opened DeliveryLaws
  import opened DeliveryProtocol
  import opened DeliverySafety
  import opened DeliveryChart
  import opened DeliveryStart
  import opened Observation
  import opened SessionDesk
  import opened SessionProtocol
  import opened SessionSafety
  import T = DeliveryTable

  /** The provider's composer is at rest: it is idle, or a turn was interrupted and the provider is known to live. */
  predicate AtRest(p: Provider, o: Option<AgentObservation>) {
    o.Some? &&
    match o.value.state {
      case Idle => true
      case Interrupted => p == Codex || (p == Claude && o.value.source == Hook)
      case _ => false
    }
  }

  /** The composer asks something of the user while the front is being pasted. */
  predicate AsksDuringPaste(f: Config, k: Desk, c: T.Core) {
    && k.observation.Some? && k.observation.value.state == AwaitingInput
    && f.id in c.deliveries && c.deliveries[f.id].epoch == f.epoch && c.deliveries[f.id].state == WritingPaste
  }

  /** How the session recognises that its paste has settled. */
  function SettlesBy(p: Provider, o: Option<AgentObservation>): Settlement {
    match p
    case Other => OutputActivity
    case Claude => ComposerRender
    case Codex => if o.Some? && o.value.source == DaemonBridge then ComposerRender else CodexComposerRender
  }

  /** Why the composer is not available; what it asked last counts first. */
  predicate IsCause(o: Option<AgentObservation>, last: Option<Signal>, cause: CancelCause) {
    match cause
    case PermissionRequested => last == Some(PermissionAsked)
    case Notification => last == Some(Notified)
    case _ =>
      && last !in {Some(PermissionAsked), Some(Notified)}
      && (cause == ProviderAwaitingInput <==> o.Some? && o.value.state == AwaitingInput)
      && (cause == ProviderTurnFailed <==> o.Some? && o.value.state == TurnFailed)
  }

  /**
  The front begins exactly when one waits, no hook does, the table allows it and
  the composer is at rest; it is blocked exactly when instead the composer is known
  not to be, or asks something during the paste.
   */
  lemma ChoosesExactly(f: Config, k: Desk, c: T.Core)
    requires T.Valid(c)
    ensures var waits, may, d := k.pending != [] && !k.hookPending, Allows(c, f.id, f.epoch), Decide(f, k, c);
            && (d.Begin? <==> waits && may && AtRest(f.provider, k.observation))
            && (d.Block? <==> waits && if may then k.observation.Some? && !AtRest(f.provider, k.observation)
                                       else AsksDuringPaste(f, k, c))
            && (d.Begin? ==> d.settlement == SettlesBy(f.provider, k.observation))
            && (d.Block? ==> IsCause(k.observation, k.last, d.cause))
  {
    AllowsExactly(c, f.id, f.epoch);
  }

  /** In every run a dispatch begins or blocks the front exactly then, numbered by what was last observed. */
  lemma DispatchesExactly(f: Config, xs: seq<Session>, acts: seq<Action>, n: nat)
    requires IsSessionRun(f, xs, acts) && n < |acts| && acts[n].Dispatches?
    ensures Possible(f, xs[n], acts[n]) && T.Valid(xs[n].system.core)
    ensures var x, l := xs[n], LabelOf(f, xs[n], acts[n]);
            var waits, may := x.head < |x.accepted| && !x.desk.hookPending, Allows(x.system.core, f.id, f.epoch);
            && (l.Some? && l.value.Begins? <==> waits && may && AtRest(f.provider, x.desk.observation))
            && (l.Some? && l.value.Blocks? <==>
                  waits && if may then x.desk.observation.Some? && !AtRest(f.provider, x.desk.observation)
                           else AsksDuringPaste(f, x.desk, x.system.core))
            && (l.Some? ==> l.value.Begins? || l.value.Blocks?)
            && (l.Some? ==> && l.value.sid == f.id && l.value.epoch == f.epoch && x.head < |x.accepted|
                            && l.value.baseline == Sequence(x.desk) && l.value.submission == x.accepted[x.head])
  {
    RunKeepsSession(f, xs, acts, n);
    assert ActsAt(f, xs, acts, n);
    ChoosesExactly(f, xs[n].desk, xs[n].system.core);
  }

  /** In every run the front leaves the queue by settling exactly when its record came to rest. */
  lemma SettlesExactly(f: Config, xs: seq<Session>, acts: seq<Action>, n: nat)
    requires IsSessionRun(f, xs, acts) && n < |acts| && acts[n].Settles?
    ensures var c := xs[n].system.core;
            xs[n + 1].head == xs[n].head +
              if f.id in c.deliveries
                 && c.deliveries[f.id].state in {Confirmed, ConfirmedUnattributed, RequiresUserResubmit} then 1 else 0
  {
    RunKeepsSession(f, xs, acts, n);
    assert ActsAt(f, xs, acts, n);
    if f.id in xs[n].system.core.deliveries { FrontIsOnRecord(f, xs[n]); }
  }

  /** What a signal is to the record: a prompt is a turn, signs of work or of its end are progress. */
  ghost predicate IsTold(f: Config, x: Session, a: Action, l: Option<Label>)
    requires f.id in x.system.core.deliveries && a.Observes? && (l.Some? ==> Enabled(x.system, l.value))
  {
    var next := if x.desk.observation.None? then 1 else Min(x.desk.observation.value.sequence + 1, U64_MAX);
    if a.signal == PromptSubmitted then
      l.Some? && NewsAbout(x.system, l.value, f.id) == Turn(next, a.activity)
    else if a.signal in {ToolStarted, ToolFinished, Stopped, PermissionAsked} then
      l.Some? && NewsAbout(x.system, l.value, f.id) == Progress(next)
    else l.None?
  }

  lemma SignalIsTold(f: Config, x: Session, a: Action)
    requires Possible(f, x, a) && a.Observes? && f.id in x.system.core.deliveries
    requires x.system.core.deliveries[f.id].epoch == f.epoch
    ensures IsTold(f, x, a, LabelOf(f, x, a))
  {
  }

  /** In every run what is heard is told, under its number, to the record of the front, and to no other. */
  lemma SignalsReachTheFront(f: Config, xs: seq<Session>, acts: seq<Action>, n: nat)
    requires IsSessionRun(f, xs, acts) && n < |acts| && acts[n].Observes? && f.id in xs[n].system.core.deliveries
    ensures Possible(f, xs[n], acts[n]) && IsTold(f, xs[n], acts[n], LabelOf(f, xs[n], acts[n]))
  {
    RunKeepsSession(f, xs, acts, n);
    assert ActsAt(f, xs, acts, n);
    SignalIsTold(f, xs[n], acts[n]);
  }

  /** In every run a submission is accepted, at the back, exactly if fewer than 16 wait. */
  lemma EnqueuesExactly(f: Config, xs: seq<Session>, acts: seq<Action>, n: nat)
    requires IsSessionRun(f, xs, acts) && n < |acts| && acts[n].Enqueues?
    ensures xs[n].head <= |xs[n].accepted| && xs[n + 1].head == xs[n].head
    ensures xs[n + 1].accepted
            == if |xs[n].accepted| - xs[n].head < 16 then xs[n].accepted + [acts[n].submission] else xs[n].accepted
  {
    RunKeepsSession(f, xs, acts, n);
    assert ActsAt(f, xs, acts, n);
  }

  /** A hook reports the start of the session, and is held until it is answered. */
  predicate HoldsHook(a: Action) { a.Observes? && a.signal == SessionStarted && a.source == Hook }

  lemma HookStep(f: Config, xs: seq<Session>, acts: seq<Action>, n: nat)
    requires IsSessionRun(f, xs, acts) && n < |acts|
    ensures xs[n + 1].desk.hookPending <==> HoldsHook(acts[n]) || (xs[n].desk.hookPending && !acts[n].ReleasesHook?)
  {
    assert ActsAt(f, xs, acts, n);
  }

  /** A hook is held at a moment exactly if one was held before and not answered since. */
  lemma {:induction false} HookIsHeldExactly(f: Config, xs: seq<Session>, acts: seq<Action>, n: nat)
    requires IsSessionRun(f, xs, acts) && n < |xs|
    ensures xs[n].desk.hookPending <==>
            exists m :: 0 <= m < n && HoldsHook(acts[m]) && forall i :: m < i < n ==> !acts[i].ReleasesHook?
  {
    if n > 0 {
      HookIsHeldExactly(f, xs, acts, n - 1);
      HookStep(f, xs, acts, n - 1);
    }
  }

  /** While a hook is held nothing is begun or blocked. */
  lemma HeldHookHoldsDispatch(f: Config, xs: seq<Session>, acts: seq<Action>, m: nat, n: nat)
    requires IsSessionRun(f, xs, acts) && m < n < |acts| && HoldsHook(acts[m]) && acts[n].Dispatches?
    requires forall i :: m < i < n ==> !acts[i].ReleasesHook?
    ensures Possible(f, xs[n], acts[n]) && LabelOf(f, xs[n], acts[n]).None? && xs[n + 1].system == xs[n].system
  {
    HookIsHeldExactly(f, xs, acts, n);
    DispatchesExactly(f, xs, acts, n);
    assert ActsAt(f, xs, acts, n);
  }
}
