/** What a session does in one `poll`, as actions of the session protocol. */
module SessionPoll {
  import opened Common
  import opened DeliveryRecord
  import opened DeliveryWorker
  import opened DeliveryLaws
  import opened DeliveryProtocol
  import opened DeliverySafety
  import opened Observation
  import opened SessionDesk
  import opened SessionProtocol
  import opened SessionSafety
  import opened SessionRace
  import T = DeliveryTable

  /** The signals of those arrivals that concern the session, in order. */
  function Hearings(f: Config, arrivals: seq<Arrival>, at: nat): seq<Action> {
    if arrivals == [] then []
    else
      var a := arrivals[|arrivals| - 1];
      var before := Hearings(f, arrivals[..|arrivals| - 1], at);
      if a.session == f.id && a.epoch == f.epoch && a.signal.Some? then
        before + [Observes(a.signal.value, DaemonBridge, at, a.activity)]
      else before
  }

  function Receipts(n: nat): seq<Action> { if n == 0 then [] else Receipts(n - 1) + [ReceivesEvent] }

  /** At most 256 arrivals are heard and 256 events received; then the front is settled, and the next dispatched. */
  function PollActions(f: Config, arrivals: seq<Arrival>, waiting: nat, t: T.Terminal, at: nat): seq<Action> {
    Hearings(f, arrivals[..if |arrivals| < 256 then |arrivals| else 256], at)
    + Receipts(if waiting < 256 then waiting else 256) + [Settles] + [Dispatches(t)]
  }

  /** The run goes on with the actions, without any step of a worker in between. */
  ghost predicate RunsOn(f: Config, xs: seq<Session>, acts: seq<Action>, more: seq<Action>, ys: seq<Session>) {
    IsSessionRun(f, ys, acts + more) && |xs| == |acts| + 1 && xs <= ys
  }

  lemma RunsOnMore(f: Config, xs: seq<Session>, acts: seq<Action>, more: seq<Action>, ys: seq<Session>, a: Action,
                   y: Session)
    requires RunsOn(f, xs, acts, more, ys) && Takes(f, ys[|acts + more|], a) && y == Act(f, ys[|acts + more|], a)
    ensures RunsOn(f, xs, acts, more + [a], ys + [y])
  {
    ExtendSession(f, ys, acts + more, a, y);
    assert acts + more + [a] == acts + (more + [a]);
  }

  /** The session is as `x` was, but for its desk, the table and the events received. */
  ghost predicate Stands(f: Config, x: Session, y: Session, k: Desk, c: T.Core, queue: seq<Event>) {
    && SessionInv(f, y) && Unsaturated(y.system)
    && y.desk == k && y.system.core == c && y.system.queue == queue && |y.system.workers| == |x.system.workers|
  }

  /** An action that starts no delivery. */
  lemma ActStands(f: Config, x: Session, y: Session, a: Action, z: Session)
    requires Stands(f, x, y, y.desk, y.system.core, y.system.queue) && Possible(f, y, a) && z == Act(f, y, a)
    requires a.Observes? || a.ReceivesEvent? || a.Settles?
    ensures var (k, c) := Operation(f, y.desk, y.system.core, y.system.queue, a);
            Stands(f, x, z, k, c, if a.ReceivesEvent? then y.system.queue[1..] else y.system.queue)
  {
    ActKeeps(f, y, a);
    ActIsOperation(f, y, a);
    ActQueues(f, y, a, z);
  }

  lemma ActQueues(f: Config, y: Session, a: Action, z: Session)
    requires SessionInv(f, y) && Takes(f, y, a) && z == Act(f, y, a)
    requires a.Observes? || a.ReceivesEvent? || a.Settles?
    ensures |z.system.workers| == |y.system.workers|
    ensures z.system.queue == if a.ReceivesEvent? then y.system.queue[1..] else y.system.queue
  {
  }

  lemma StandsMore(f: Config, xs: seq<Session>, acts: seq<Action>, more: seq<Action>, ys: seq<Session>, x: Session,
                   a: Action) returns (zs: seq<Session>)
    requires RunsOn(f, xs, acts, more, ys) && (a.Observes? || a.ReceivesEvent? || a.Settles?)
    requires var y := ys[|ys| - 1];
             Stands(f, x, y, y.desk, y.system.core, y.system.queue) && (a.ReceivesEvent? ==> y.system.queue != [])
    ensures RunsOn(f, xs, acts, more + [a], zs) && |zs| > 0
    ensures var y := ys[|ys| - 1];
            var (k, c) := Operation(f, y.desk, y.system.core, y.system.queue, a);
            Stands(f, x, zs[|zs| - 1], k, c, if a.ReceivesEvent? then y.system.queue[1..] else y.system.queue)
  {
    var y := ys[|ys| - 1];
    var z := Act(f, y, a);
    RunsOnMore(f, xs, acts, more, ys, a, z);
    ActStands(f, x, y, a, z);
    zs := ys + [z];
  }

  /** `ys` has heard the arrivals. */
  ghost predicate HasHeard(f: Config, xs: seq<Session>, acts: seq<Action>, x: Session, arrivals: seq<Arrival>, at: nat,
                           ys: seq<Session>)
    requires T.Valid(x.system.core)
  {
    && RunsOn(f, xs, acts, Hearings(f, arrivals, at), ys) && |ys| > 0
    && var (k, c) := HearAll(f, x.desk, x.system.core, arrivals, at);
       Stands(f, x, ys[|ys| - 1], k, c, x.system.queue)
  }

  lemma HearsNone(f: Config, xs: seq<Session>, acts: seq<Action>, x: Session, at: nat)
    requires IsSessionRun(f, xs, acts) && x == xs[|acts|] && SessionInv(f, x) && Unsaturated(x.system)
    ensures HasHeard(f, xs, acts, x, [], at, xs)
  {
    assert acts + [] == acts;
  }

  lemma HearsNext(f: Config, xs: seq<Session>, acts: seq<Action>, x: Session, arrivals: seq<Arrival>,
                  before: seq<Arrival>, a: Arrival, at: nat, ys: seq<Session>) returns (zs: seq<Session>)
    requires arrivals != [] && before == arrivals[..|arrivals| - 1] && a == arrivals[|arrivals| - 1]
    requires T.Valid(x.system.core) && HasHeard(f, xs, acts, x, before, at, ys)
    ensures HasHeard(f, xs, acts, x, arrivals, at, zs)
  {
    if Concerns(f, a) {
      zs := StandsMore(f, xs, acts, Hearings(f, before, at), ys, x,
                       Observes(a.signal.value, DaemonBridge, at, a.activity));
    } else {
      zs := ys;
    }
  }

  /** What arrived is heard by the actions that report it. */
  lemma {:induction false} HearsOn(f: Config, xs: seq<Session>, acts: seq<Action>, x: Session, arrivals: seq<Arrival>,
                                   at: nat) returns (ys: seq<Session>)
    requires IsSessionRun(f, xs, acts) && x == xs[|acts|] && SessionInv(f, x) && Unsaturated(x.system)
    ensures HasHeard(f, xs, acts, x, arrivals, at, ys)
  {
    if arrivals == [] {
      ys := xs;
      HearsNone(f, xs, acts, x, at);
    } else {
      var before, a := arrivals[..|arrivals| - 1], arrivals[|arrivals| - 1];
      ys := HearsOn(f, xs, acts, x, before, at);
      ys := HearsNext(f, xs, acts, x, arrivals, before, a, at, ys);
    }
  }

  lemma NextReceived(c: T.Core, queue: seq<Event>, m: nat, n: nat)
    requires T.Valid(c) && n == m + 1 <= |queue|
    ensures queue[m..] != [] && queue[m..][1..] == queue[n..]
    ensures ReceiveAll(c, queue[..n]) == T.Apply(ReceiveAll(c, queue[..m]), queue[m..][0]).0
  {
    assert queue[..n][..m] == queue[..m] && queue[m..][0] == queue[m];
  }

  /** `ys` has received the first n events after `more`. */
  ghost predicate HasReceived(f: Config, xs: seq<Session>, acts: seq<Action>, more: seq<Action>, x: Session, k: Desk,
                              c: T.Core, queue: seq<Event>, n: nat, ys: seq<Session>)
    requires T.Valid(c) && n <= |queue|
  {
    && RunsOn(f, xs, acts, more + Receipts(n), ys) && |ys| > 0
    && Stands(f, x, ys[|ys| - 1], k, ReceiveAll(c, queue[..n]), queue[n..])
  }

  lemma NextReceipt(more: seq<Action>, m: nat, n: nat)
    requires n == m + 1
    ensures more + Receipts(m) + [ReceivesEvent] == more + Receipts(n)
  {
  }

  lemma ReceivesFirst(f: Config, xs: seq<Session>, acts: seq<Action>, more: seq<Action>, ys: seq<Session>, x: Session,
                      k: Desk, c: T.Core, queue: seq<Event>) returns (zs: seq<Session>)
    requires RunsOn(f, xs, acts, more, ys) && queue != [] && T.Valid(c) && Stands(f, x, ys[|ys| - 1], k, c, queue)
    ensures RunsOn(f, xs, acts, more + [ReceivesEvent], zs) && |zs| > 0
    ensures Stands(f, x, zs[|zs| - 1], k, T.Apply(c, queue[0]).0, queue[1..])
  {
    zs := StandsMore(f, xs, acts, more, ys, x, ReceivesEvent);
  }

  lemma ReceivesNone(f: Config, xs: seq<Session>, acts: seq<Action>, more: seq<Action>, x: Session, k: Desk,
                     c: T.Core, queue: seq<Event>, ys: seq<Session>)
    requires RunsOn(f, xs, acts, more, ys) && T.Valid(c) && Stands(f, x, ys[|ys| - 1], k, c, queue)
    ensures HasReceived(f, xs, acts, more, x, k, c, queue, 0, ys)
  {
    assert more + [] == more && queue[..0] == [] && queue[0..] == queue;
  }

  lemma ReceivesNext(f: Config, xs: seq<Session>, acts: seq<Action>, more: seq<Action>, x: Session, k: Desk,
                     c: T.Core, queue: seq<Event>, m: nat, n: nat, ys: seq<Session>) returns (zs: seq<Session>)
    requires T.Valid(c) && n == m + 1 <= |queue| && HasReceived(f, xs, acts, more, x, k, c, queue, m, ys)
    ensures HasReceived(f, xs, acts, more, x, k, c, queue, n, zs)
  {
    NextReceived(c, queue, m, n);
    NextReceipt(more, m, n);
    zs := ReceivesFirst(f, xs, acts, more + Receipts(m), ys, x, k, ReceiveAll(c, queue[..m]), queue[m..]);
  }

  /** The first n events are received one by one. */
  lemma {:induction false} ReceivesOn(f: Config, xs: seq<Session>, acts: seq<Action>, more: seq<Action>, x: Session,
                                      k: Desk, c: T.Core, queue: seq<Event>, n: nat, ys: seq<Session>)
    returns (zs: seq<Session>)
    requires T.Valid(c) && n <= |queue| && HasReceived(f, xs, acts, more, x, k, c, queue, 0, ys)
    ensures HasReceived(f, xs, acts, more, x, k, c, queue, n, zs)
  {
    if n == 0 {
      zs := ys;
    } else {
      zs := ReceivesOn(f, xs, acts, more, x, k, c, queue, n - 1, ys);
      zs := ReceivesNext(f, xs, acts, more, x, k, c, queue, n - 1, n, zs);
    }
  }

  lemma SettlesOn(f: Config, xs: seq<Session>, acts: seq<Action>, more: seq<Action>, ys: seq<Session>, x: Session,
                  k: Desk, c: T.Core, queue: seq<Event>, t: T.Terminal) returns (zs: seq<Session>)
    requires RunsOn(f, xs, acts, more, ys) && T.Valid(c) && Stands(f, x, ys[|ys| - 1], k, c, queue)
    ensures RunsOn(f, xs, acts, more + [Settles], zs) && |zs| > 0 && Takes(f, zs[|zs| - 1], Dispatches(t))
    ensures var (l, d) := SettleDesk(f, k, c); Stands(f, x, zs[|zs| - 1], l, d, queue)
  {
    var y := ys[|ys| - 1];
    var z := Act(f, y, Settles);
    RunsOnMore(f, xs, acts, more, ys, Settles, z);
    ActStands(f, x, y, Settles, z);
    SettlingEnablesDispatch(f, y, t);
    zs := ys + [z];
  }

  lemma DispatchesOn(f: Config, xs: seq<Session>, acts: seq<Action>, more: seq<Action>, ys: seq<Session>,
                     t: T.Terminal) returns (zs: seq<Session>)
    requires RunsOn(f, xs, acts, more, ys) && Takes(f, ys[|ys| - 1], Dispatches(t))
    ensures RunsOn(f, xs, acts, more + [Dispatches(t)], zs) && |zs| > 0
    ensures var y := ys[|ys| - 1];
            (zs[|zs| - 1].desk, zs[|zs| - 1].system.core) == (y.desk, DispatchTable(f, y.desk, y.system.core, t))
  {
    var y := ys[|ys| - 1];
    var z := Act(f, y, Dispatches(t));
    RunsOnMore(f, xs, acts, more, ys, Dispatches(t), z);
    ActIsOperation(f, y, Dispatches(t));
    zs := ys + [z];
  }

  lemma ProceedsOn(f: Config, xs: seq<Session>, acts: seq<Action>, more: seq<Action>, ys: seq<Session>, x: Session,
                   k: Desk, c: T.Core, queue: seq<Event>, t: T.Terminal) returns (zs: seq<Session>)
    requires RunsOn(f, xs, acts, more, ys) && T.Valid(c) && Stands(f, x, ys[|ys| - 1], k, c, queue)
    ensures RunsOn(f, xs, acts, more + [Settles] + [Dispatches(t)], zs) && |zs| > 0
    ensures (zs[|zs| - 1].desk, zs[|zs| - 1].system.core) == Proceeded(f, k, c, t)
  {
    zs := SettlesOn(f, xs, acts, more, ys, x, k, c, queue, t);
    zs := DispatchesOn(f, xs, acts, more + [Settles], zs, t);
  }

  /**
  Every poll of a session is a piece of a run: at any moment of any run, the
  actions above lead to the desk and the table that `poll` leaves.
   */
  lemma PollRuns(f: Config, xs: seq<Session>, acts: seq<Action>, arrivals: seq<Arrival>, t: T.Terminal, at: nat)
    returns (ys: seq<Session>)
    requires IsSessionRun(f, xs, acts) && Unsaturated(xs[|acts|].system)
    ensures T.Valid(xs[|acts|].system.core)
    ensures RunsOn(f, xs, acts, PollActions(f, arrivals, |xs[|acts|].system.queue|, t, at), ys) && |ys| > 0
    ensures (ys[|ys| - 1].desk, ys[|ys| - 1].system.core)
            == Polled(f, xs[|acts|].desk, xs[|acts|].system.core, arrivals, xs[|acts|].system.queue, t, at)
  {
    var x := xs[|acts|];
    RunKeepsSession(f, xs, acts, |acts|);
    var queue := x.system.queue;
    var heard := arrivals[..if |arrivals| < 256 then |arrivals| else 256];
    var n := if |queue| < 256 then |queue| else 256;
    ys := HearsOn(f, xs, acts, x, heard, at);
    var (k, c) := HearAll(f, x.desk, x.system.core, heard, at);
    ReceivesNone(f, xs, acts, Hearings(f, heard, at), x, k, c, queue, ys);
    ys := ReceivesOn(f, xs, acts, Hearings(f, heard, at), x, k, c, queue, n, ys);
    ys := ProceedsOn(f, xs, acts, Hearings(f, heard, at) + Receipts(n), ys, x, k, ReceiveAll(c, queue[..n]),
                     queue[n..], t);
  }
}
