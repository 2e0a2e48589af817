/**
The race around a paste, in an observed session: how any run in which a delivery
is overtaken can go on, without another one, to paste out of order.
 */
module SessionRace {
  import opened Common
  import opened DeliveryRecord
  import opened DeliveryWorker
  import opened DeliveryLaws
  import opened DeliveryProtocol
  import opened DeliverySafety
  import opened DeliveryReplay
  import opened Observation
  import opened SessionDesk
  import opened SessionProtocol
  import opened SessionSafety
  import opened SessionOrder
  import T = DeliveryTable

  // ----- going on with a run -----

  lemma ActsIs(f: Config, xs: seq<Session>, acts: seq<Action>, i: nat, x: Session, a: Action, y: Session)
    requires i < |acts| && |xs| == |acts| + 1 && xs[i] == x && acts[i] == a && xs[i + 1] == y
    ensures ActsAt(f, xs, acts, i) == (Takes(f, x, a) && y == Act(f, x, a))
  {
  }

  /** The i-th action overtakes nobody, and does not close the session. */
  ghost predicate CalmlyAt(xs: seq<Session>, acts: seq<Action>, i: nat)
    requires i < |acts| && i + 1 < |xs|
  {
    !OvertakenAt(xs, i) && !acts[i].Closes?
  }

  ghost predicate Prefixes(xs: seq<Session>, acts: seq<Action>, ys: seq<Session>, bs: seq<Action>) {
    |xs| == |acts| + 1 && |ys| == |bs| + 1 && xs <= ys && acts <= bs
  }

  /** `ys` and `bs` go on with the run from `xs` and `acts`, calmly. */
  ghost predicate GoesOn(f: Config, xs: seq<Session>, acts: seq<Action>, ys: seq<Session>, bs: seq<Action>) {
    && IsSessionRun(f, ys, bs) && Prefixes(xs, acts, ys, bs)
    && forall i :: |acts| <= i < |bs| ==> CalmlyAt(ys, bs, i)
  }

  lemma ExtendSession(f: Config, xs: seq<Session>, acts: seq<Action>, a: Action, y: Session)
    requires IsSessionRun(f, xs, acts) && Takes(f, xs[|acts|], a) && y == Act(f, xs[|acts|], a)
    ensures IsSessionRun(f, xs + [y], acts + [a]) && Prefixes(xs, acts, xs + [y], acts + [a])
  {
    var ys, bs := xs + [y], acts + [a];
    forall i | 0 <= i < |bs| ensures ActsAt(f, ys, bs, i) {
      ActsIs(f, ys, bs, i, ys[i], bs[i], ys[i + 1]);
      if i < |acts| { ActsIs(f, xs, acts, i, xs[i], acts[i], xs[i + 1]); }
    }
  }

  ghost predicate Calmly(f: Config, x: Session, a: Action, y: Session) {
    Takes(f, x, a) && y == Act(f, x, a) && !Overtaking(x.system, y.system) && !a.Closes?
  }

  lemma GoOn(f: Config, xs: seq<Session>, acts: seq<Action>, a: Action, y: Session)
    requires IsSessionRun(f, xs, acts) && Calmly(f, xs[|acts|], a, y)
    ensures GoesOn(f, xs, acts, xs + [y], acts + [a])
  {
    ExtendSession(f, xs, acts, a, y);
    assert CalmlyAt(xs + [y], acts + [a], |acts|);
  }

  lemma CalmStays(xs: seq<Session>, acts: seq<Action>, ys: seq<Session>, bs: seq<Action>, i: nat)
    requires Prefixes(xs, acts, ys, bs) && i < |acts| && CalmlyAt(xs, acts, i)
    ensures CalmlyAt(ys, bs, i)
  {
    assert ys[i] == xs[i] && ys[i + 1] == xs[i + 1] && bs[i] == acts[i];
  }

  lemma GoesOnFrom(f: Config, xs: seq<Session>, acts: seq<Action>, ys: seq<Session>, bs: seq<Action>,
                   zs: seq<Session>, ds: seq<Action>)
    requires GoesOn(f, xs, acts, ys, bs) && GoesOn(f, ys, bs, zs, ds)
    ensures GoesOn(f, xs, acts, zs, ds)
  {
    forall i | |acts| <= i < |ds| ensures CalmlyAt(zs, ds, i) {
      if i < |bs| { CalmStays(ys, bs, zs, ds, i); }
    }
  }

  /** A paste in the wrong order, or a second paste of the same entry. */
  ghost predicate Disordered(xs: seq<Session>, i: nat, a: nat, j: nat, b: nat) {
    && i < j < |xs| - 1 && PastesAt(xs, i, a) && PastesAt(xs, j, b)
    && a < |xs[i + 1].entry| && b < |xs[j + 1].entry| && xs[i + 1].entry[a] >= xs[j + 1].entry[b]
  }

  // ----- two workers on their way to paste -----

  /** The worker goes on to its paste when the terminal is fine and nobody cancels. */
  predicate Runs(w: Worker, g: Signals) {
    CanPaste(w.pc) && (w.pc.paste.WaitReady? || w.pc.paste.PasteCheck? ==> !g.cancel)
  }

  function Left(pc: Pc): nat {
    if !pc.Pasting? then 0
    else if pc.paste.WaitReady? then 3 else if pc.paste.PasteCheck? then 2 else if pc.paste.PasteMark? then 1 else 0
  }

  lemma RunsOn(w: Worker, g: Signals)
    requires WorkerOk(w, g) && Runs(w, g)
    ensures var m := Move(w, g, FINE);
            if w.pc == Pasting(PasteWrite) then m.worker.Pasted() && !w.Pasted()
            else Runs(m.worker, m.signals) && Left(m.worker.pc) < Left(w.pc)
                 && (InWindow(w.pc) ==> InWindow(m.worker.pc))
  {
  }

  /** The j-th worker takes a step. */
  ghost predicate Stepped(x: Session, j: nat, y: Session)
    requires j < |x.system.workers| == |x.system.core.signals|
  {
    var m := Move(x.system.workers[j], x.system.core.signals[j], FINE);
    && y.entry == x.entry && y.desk == x.desk && y.accepted == x.accepted && y.head == x.head
    && y.system.workers == x.system.workers[j := m.worker] && y.system.fates == x.system.fates
    && y.system.core == x.system.core.(signals := x.system.core.signals[j := m.signals])
  }

  lemma WorkStep(f: Config, x: Session, j: nat, y: Session)
    requires SessionInv(f, x) && Unsaturated(x.system) && j < |x.system.workers| && y == Act(f, x, Works(j, FINE))
    ensures Takes(f, x, Works(j, FINE)) && SessionInv(f, y) && Unsaturated(y.system) && Stepped(x, j, y)
  {
    ActKeeps(f, x, Works(j, FINE));
  }

  /** The k-th worker is past its check, and the c-th, for a later or the same entry, on its way. */
  ghost predicate Racing(f: Config, x: Session, k: nat, c: nat) {
    && SessionInv(f, x) && Unsaturated(x.system) && k != c && k < |x.entry| && c < |x.entry| && x.entry[k] <= x.entry[c]
    && InWindow(x.system.workers[k].pc) && Runs(x.system.workers[c], x.system.core.signals[c])
  }

  lemma RacerMoves(f: Config, x: Session, k: nat, c: nat, y: Session)
    requires Racing(f, x, k, c) && y == Act(f, x, Works(c, FINE))
    ensures Takes(f, x, Works(c, FINE)) && SessionInv(f, y) && Unsaturated(y.system) && y.entry == x.entry
    ensures y.system.workers[k] == x.system.workers[k] && !Overtaking(x.system, y.system)
    ensures if x.system.workers[c].pc == Pasting(PasteWrite) then HandsPaste(x.system, y.system, c)
            else Racing(f, y, k, c) && Left(y.system.workers[c].pc) < Left(x.system.workers[c].pc)
  {
    WorkStep(f, x, c, y);
    FatesStay(x.system, y.system);
    assert WorkerOk(x.system.workers[c], x.system.core.signals[c]);
    RunsOn(x.system.workers[c], x.system.core.signals[c]);
  }

  lemma LoserMoves(f: Config, x: Session, k: nat, y: Session)
    requires SessionInv(f, x) && Unsaturated(x.system) && k < |x.system.workers| && InWindow(x.system.workers[k].pc)
    requires y == Act(f, x, Works(k, FINE))
    ensures Takes(f, x, Works(k, FINE)) && SessionInv(f, y) && Unsaturated(y.system) && y.entry == x.entry
    ensures !Overtaking(x.system, y.system)
    ensures if x.system.workers[k].pc == Pasting(PasteWrite) then HandsPaste(x.system, y.system, k)
            else k < |y.system.workers| && y.system.workers[k].pc == Pasting(PasteWrite)
  {
    WorkStep(f, x, k, y);
    FatesStay(x.system, y.system);
    assert WorkerOk(x.system.workers[k], x.system.core.signals[k]);
    RunsOn(x.system.workers[k], x.system.core.signals[k]);
  }

  /** From `n` on only workers act. */
  predicate WorkOnly(acts: seq<Action>, n: nat) { forall i :: n <= i < |acts| ==> acts[i].Works? }

  lemma LoserGoesOn(f: Config, xs: seq<Session>, acts: seq<Action>, k: nat) returns (ys: seq<Session>, bs: seq<Action>)
    requires IsSessionRun(f, xs, acts) && SessionInv(f, xs[|acts|]) && Unsaturated(xs[|acts|].system)
    requires k < |xs[|acts|].system.workers| && InWindow(xs[|acts|].system.workers[k].pc)
    ensures GoesOn(f, xs, acts, ys, bs) && |bs| == |acts| + 1 && ys[|bs|].entry == xs[|acts|].entry
    ensures SessionInv(f, ys[|bs|]) && Unsaturated(ys[|bs|].system) && WorkOnly(bs, |acts|)
    ensures if xs[|acts|].system.workers[k].pc == Pasting(PasteWrite) then PastesAt(ys, |acts|, k)
            else k < |ys[|bs|].system.workers| && ys[|bs|].system.workers[k].pc == Pasting(PasteWrite)
  {
    var x := xs[|acts|];
    var y := Act(f, x, Works(k, FINE));
    LoserMoves(f, x, k, y);
    GoOn(f, xs, acts, Works(k, FINE), y);
    ys, bs := xs + [y], acts + [Works(k, FINE)];
  }

  lemma {:induction false} LoserPastes(f: Config, xs: seq<Session>, acts: seq<Action>, k: nat)
    returns (ys: seq<Session>, bs: seq<Action>)
    requires IsSessionRun(f, xs, acts) && SessionInv(f, xs[|acts|]) && Unsaturated(xs[|acts|].system)
    requires k < |xs[|acts|].system.workers| && InWindow(xs[|acts|].system.workers[k].pc)
    ensures GoesOn(f, xs, acts, ys, bs) && |bs| > |acts| && WorkOnly(bs, |acts|)
    ensures PastesAt(ys, |bs| - 1, k) && ys[|bs|].entry == xs[|acts|].entry
    decreases Left(xs[|acts|].system.workers[k].pc)
  {
    ys, bs := LoserGoesOn(f, xs, acts, k);
    if xs[|acts|].system.workers[k].pc != Pasting(PasteWrite) {
      var zs, ds := ys, bs;
      ys, bs := LoserPastes(f, zs, ds, k);
      GoesOnFrom(f, xs, acts, zs, ds, ys, bs);
    }
  }

  lemma StillPastes(f: Config, xs: seq<Session>, acts: seq<Action>, ys: seq<Session>, bs: seq<Action>, i: nat, c: nat)
    requires GoesOn(f, xs, acts, ys, bs) && i + 1 < |xs| && PastesAt(xs, i, c)
    ensures PastesAt(ys, i, c) && ys[i + 1] == xs[i + 1]
  {
    assert ys[i] == xs[i] && ys[i + 1] == xs[i + 1];
  }

  /** The run went on until the c-th worker had pasted, and then the k-th, nobody having begun in between. */
  ghost predicate Raced(f: Config, xs: seq<Session>, acts: seq<Action>, ys: seq<Session>, bs: seq<Action>,
                        i: nat, j: nat, k: nat, c: nat)
    requires |xs| == |acts| + 1
  {
    && GoesOn(f, xs, acts, ys, bs) && WorkOnly(bs, |acts|)
    && |bs| == j + 1 && |acts| <= i + 1 && Disordered(ys, i, c, j, k)
    && ys[i + 1].entry == ys[j + 1].entry == xs[|acts|].entry
  }

  lemma RacedFrom(f: Config, xs: seq<Session>, acts: seq<Action>, zs: seq<Session>, ds: seq<Action>,
                  ys: seq<Session>, bs: seq<Action>, i: nat, j: nat, k: nat, c: nat)
    requires |xs| == |acts| + 1 && |zs| == |ds| + 1 && GoesOn(f, xs, acts, zs, ds) && WorkOnly(ds, |acts|)
    requires Raced(f, zs, ds, ys, bs, i, j, k, c)
    requires zs[|ds|].entry == xs[|acts|].entry
    ensures Raced(f, xs, acts, ys, bs, i, j, k, c)
  {
    GoesOnFrom(f, xs, acts, zs, ds, ys, bs);
  }

  lemma LoserFollows(f: Config, xs: seq<Session>, acts: seq<Action>, i: nat, k: nat, c: nat)
    returns (ys: seq<Session>, bs: seq<Action>, j: nat)
    requires IsSessionRun(f, xs, acts) && |acts| == i + 1 && PastesAt(xs, i, c)
    requires SessionInv(f, xs[|acts|]) && Unsaturated(xs[|acts|].system)
    requires k < |xs[|acts|].entry| && c < |xs[|acts|].entry|
    requires InWindow(xs[|acts|].system.workers[k].pc) && xs[|acts|].entry[k] <= xs[|acts|].entry[c]
    ensures Raced(f, xs, acts, ys, bs, i, j, k, c)
  {
    ys, bs := LoserPastes(f, xs, acts, k);
    j := |bs| - 1;
    StillPastes(f, xs, acts, ys, bs, i, c);
  }

  lemma RacerGoesOn(f: Config, xs: seq<Session>, acts: seq<Action>, k: nat, c: nat)
    returns (ys: seq<Session>, bs: seq<Action>)
    requires IsSessionRun(f, xs, acts) && Racing(f, xs[|acts|], k, c)
    ensures GoesOn(f, xs, acts, ys, bs) && |bs| == |acts| + 1 && ys[|bs|].entry == xs[|acts|].entry
    ensures WorkOnly(bs, |acts|)
    ensures SessionInv(f, ys[|bs|]) && Unsaturated(ys[|bs|].system) && InWindow(ys[|bs|].system.workers[k].pc)
    ensures if xs[|acts|].system.workers[c].pc == Pasting(PasteWrite) then PastesAt(ys, |acts|, c)
            else Racing(f, ys[|bs|], k, c)
                 && Left(ys[|bs|].system.workers[c].pc) < Left(xs[|acts|].system.workers[c].pc)
  {
    var x := xs[|acts|];
    var y := Act(f, x, Works(c, FINE));
    RacerMoves(f, x, k, c, y);
    GoOn(f, xs, acts, Works(c, FINE), y);
    ys, bs := xs + [y], acts + [Works(c, FINE)];
  }

  /** Both workers paste, the later entry first. */
  lemma {:induction false} BothPaste(f: Config, xs: seq<Session>, acts: seq<Action>, k: nat, c: nat)
    returns (ys: seq<Session>, bs: seq<Action>, i: nat, j: nat)
    requires IsSessionRun(f, xs, acts) && Racing(f, xs[|acts|], k, c)
    ensures Raced(f, xs, acts, ys, bs, i, j, k, c) && |acts| <= i
    decreases Left(xs[|acts|].system.workers[c].pc)
  {
    var zs, ds := RacerGoesOn(f, xs, acts, k, c);
    if xs[|acts|].system.workers[c].pc == Pasting(PasteWrite) {
      i := |acts|;
      ys, bs, j := LoserFollows(f, zs, ds, i, k, c);
    } else {
      ys, bs, i, j := BothPaste(f, zs, ds, k, c);
    }
    RacedFrom(f, xs, acts, zs, ds, ys, bs, i, j, k, c);
  }

  // ----- starting a worker -----

  /** Nothing is on record, and the front of the queue may begin. */
  ghost predicate Ready(f: Config, x: Session) {
    && SessionInv(f, x) && Unsaturated(x.system) && x.system.core.deliveries == map[] && x.head < |x.accepted|
    && !f.provider.Other? && !x.desk.hookPending && AgentIs(x, Idle)
  }

  predicate AgentIs(x: Session, state: AgentState) {
    x.desk.observation.Some? && x.desk.observation.value.state == state
  }

  ghost function BeginLabel(f: Config, x: Session): Label
    requires x.desk.pending != []
  {
    Begins(f.id, f.epoch, Sequence(x.desk), x.desk.pending[0], SettlementFor(f.provider, x.desk.observation), WILLING)
  }

  lemma BeginDecided(f: Config, x: Session)
    requires SessionInv(f, x) && x.head < |x.accepted| && !x.desk.hookPending && AgentIs(x, Idle)
    requires T.MayBegin(x.system.core, f.id, f.epoch) && !FrontIsDone(f, x.desk, x.system.core)
    ensures x.desk.pending != [] && Possible(f, x, Dispatches(WILLING))
    ensures LabelOf(f, x, Dispatches(WILLING)) == Some(BeginLabel(f, x))
  {
  }

  /** The new worker waits for the composer, uncancelled, for the front submission. */
  ghost predicate Launches(f: Config, x: Session, y: Session) {
    var c := |x.system.workers|;
    && SessionInv(f, y) && y.desk == x.desk
    && y.accepted == x.accepted && y.head == x.head && y.entry == x.entry + [x.head]
    && |y.system.workers| == c + 1 == |y.system.core.signals|
    && (forall k :: 0 <= k < c ==> y.system.workers[k] == x.system.workers[k])
    && y.system.workers[c].pc == Pasting(WaitReady) && y.system.core.signals[c] == Signals(false, false, false, Open)
    && f.id in y.system.core.deliveries && y.system.core.deliveries[f.id].cell == c
    && y.system.core.deliveries[f.id].state.WritingPaste? && y.system.core.deliveries[f.id].epoch == f.epoch
  }

  lemma NewcomerWaits(f: Config, x: Session, l: Label, k: nat, i: Option<Delivery>)
    requires !f.provider.Other? && x.desk.pending != [] && l == BeginLabel(f, x)
    ensures NewWorker(l, k).pc == Pasting(WaitReady)
    ensures var s := T.FreshSlot(l.epoch, l.baseline, l.submission, l.settlement, l.terminal, i);
            s.signals == Signals(false, false, false, Open) && s.record.state.WritingPaste? && s.record.epoch == f.epoch
  {
  }

  /** `begin` where it may: the record is inserted behind all flags there were. */
  lemma BeginAppends(c: T.Core, l: Label, d: T.Core)
    requires T.Valid(c) && l.Begins? && T.MayBegin(c, l.sid, l.epoch) && T.HasRoom(c, l.sid)
    requires d == T.Begin(c, l.sid, l.epoch, l.baseline, l.submission, l.settlement, l.terminal).0
    ensures var x := T.FreshSlot(l.epoch, l.baseline, l.submission, l.settlement, l.terminal, T.Inherited(c, l.sid));
            && |d.signals| == |c.signals| + 1 && d.signals[|c.signals|] == x.signals
            && l.sid in d.deliveries && d.deliveries[l.sid] == x.record.(id := c.nextId, cell := |c.signals|)
  {
  }

  lemma FrontLaunches(f: Config, x: Session, y: Session)
    requires SessionInv(f, x) && Unsaturated(x.system) && x.head < |x.accepted|
    requires !x.desk.hookPending && AgentIs(x, Idle)
    requires !f.provider.Other? && T.MayBegin(x.system.core, f.id, f.epoch) && T.HasRoom(x.system.core, f.id)
    requires !FrontIsDone(f, x.desk, x.system.core) && Possible(f, x, Dispatches(WILLING))
    requires y == Act(f, x, Dispatches(WILLING))
    ensures Takes(f, x, Dispatches(WILLING)) && Launches(f, x, y)
    ensures y.system == CoreStep(x.system, BeginLabel(f, x), y.system.core)
    ensures T.Inserts(x.system.core, y.system.core, f.id)
  {
    BeginDecided(f, x);
    var l := BeginLabel(f, x);
    DispatchingKeeps(f, x, Dispatches(WILLING), l, y);
    DispatchActs(f, x, Dispatches(WILLING), l, y);
    LaunchedSystem(f, x, l, y.system);
  }

  lemma LaunchedSystem(f: Config, x: Session, l: Label, t: System)
    requires Inv(x.system) && !f.provider.Other? && x.desk.pending != [] && l == BeginLabel(f, x)
    requires T.MayBegin(x.system.core, f.id, f.epoch) && T.HasRoom(x.system.core, f.id) && t == Step(x.system, l)
    ensures var c := |x.system.workers|;
            && |t.workers| == c + 1 == |t.core.signals|
            && (forall k :: 0 <= k < c ==> t.workers[k] == x.system.workers[k])
            && t.workers[c].pc == Pasting(WaitReady) && t.core.signals[c] == Signals(false, false, false, Open)
            && f.id in t.core.deliveries && t.core.deliveries[f.id].cell == c
            && t.core.deliveries[f.id].state.WritingPaste? && t.core.deliveries[f.id].epoch == f.epoch
    ensures t == CoreStep(x.system, l, t.core) && T.Inserts(x.system.core, t.core, f.id)
  {
    var d := CoreAfter(x.system, l);
    NewcomerWaits(f, x, l, |x.system.workers|, T.Inherited(x.system.core, l.sid));
    BeginAppends(x.system.core, l, d);
    T.BeginInserts(x.system.core, l.sid, l.epoch, l.baseline, l.submission, l.settlement, l.terminal);
    CoreStepGrows(x.system, l, d);
  }

  // ----- what an overtaking action leaves -----

  /** The only record, if any, has come to rest without a worker. */
  ghost predicate Spent(f: Config, x: Session) {
    f.id in x.system.core.deliveries ==>
      var d := x.system.core.deliveries[f.id];
      && d.cell < |x.system.workers| && x.system.workers[d.cell].pc.NoWorker?
      && (d.state.AcceptsReplacement() || (Rested(d) && d.failure.Some? && !d.failure.value.ComposerNotReady?))
  }

  ghost predicate Done(f: Config, x: Session) {
    f.id in x.system.core.deliveries ==> x.system.core.deliveries[f.id].state.AcceptsReplacement()
  }

  /** The k-th worker is past its check, and nobody else is in its way. */
  ghost predicate Adrift(f: Config, x: Session, k: nat) {
    && SessionInv(f, x) && Unsaturated(x.system) && k < |x.entry| && InWindow(x.system.workers[k].pc) && Spent(f, x)
  }

  lemma LaunchedSlot(f: Config, x: Session, l: Label, i: Option<Delivery>)
    requires !f.provider.Other? && l.Begins? && l.settlement == SettlementFor(f.provider, x.desk.observation)
    ensures var s := T.FreshSlot(l.epoch, l.baseline, l.submission, l.settlement, l.terminal, i);
            if NewWorker(l, |x.system.workers|).pc.NoWorker?
            then Rested(s.record) && s.record.failure.Some? && !s.record.failure.value.ComposerNotReady?
            else NewWorker(l, |x.system.workers|).pc == Pasting(WaitReady) && !s.signals.cancel
  {
  }

  /** After a dispatch that inserts a record: either its worker is on its way, or it has none. */
  ghost predicate Arrived(f: Config, y: Session, c: nat) {
    && c < |y.system.workers| == |y.system.core.signals|
    && Held(y.system.core, f.id, c)
    && if y.system.workers[c].pc.NoWorker? then Spent(f, y)
       else y.system.workers[c].pc == Pasting(WaitReady) && !y.system.core.signals[c].cancel
  }

  lemma BeginArrives(f: Config, x: Session, l: Label, y: Session)
    requires Inv(x.system) && !f.provider.Other? && l.Begins? && l.sid == f.id
    requires l.settlement == SettlementFor(f.provider, x.desk.observation)
    requires y.system == Step(x.system, l) && CoreAfter(x.system, l) != x.system.core
    ensures Arrived(f, y, |x.system.workers|)
  {
    var c := CoreAfter(x.system, l);
    T.BeginInserts(x.system.core, l.sid, l.epoch, l.baseline, l.submission, l.settlement, l.terminal);
    LaunchedSlot(f, x, l, T.Inherited(x.system.core, l.sid));
    CoreStepGrows(x.system, l, c);
  }

  lemma BlockArrives(f: Config, x: Session, l: Label, y: Session)
    requires Inv(x.system) && l.Blocks? && l.sid == f.id && Touches(x.system, l).None?
    requires y.system == Step(x.system, l) && CoreAfter(x.system, l) != x.system.core
    ensures Arrived(f, y, |x.system.workers|)
  {
    var c := CoreAfter(x.system, l);
    T.BlockInserts(x.system.core, l.sid, l.epoch, l.baseline, l.submission, l.cause, l.notification);
    CoreStepGrows(x.system, l, c);
  }

  // ----- from there to another delivery -----

  /** Where the signals of a provider come from. */
  function Via(p: Provider): Source { if p.Codex? then DaemonBridge else Hook }

  function Prompted(p: Provider): Action { Observes(PromptSubmitted, Via(p), 0, None) }

  function Ended(p: Provider): Action { Observes(Stopped, Via(p), 0, None) }

  predicate IsAside(a: Action) {
    a.ReleasesHook? || a.Enqueues? || (a.Observes? && (a.signal.PromptSubmitted? || a.signal.Stopped?))
  }

  lemma SignalKeepsWorkers(s: System, l: Label)
    requires Inv(s) && (l.Acknowledges? || l.Progresses?)
    ensures Step(s, l).workers == s.workers && Step(s, l).fates == s.fates
  {
    StepInPlace(s, l);
    forall k | 0 <= k < |s.workers| ensures Step(s, l).workers[k] == s.workers[k] { StepFrame(s, l, k); }
  }

  /** The action leaves the workers alone, and overtakes nobody. */
  ghost predicate StandsAside(f: Config, x: Session, a: Action, y: Session) {
    && SessionInv(f, y) && y.system.workers == x.system.workers && y.system.fates == x.system.fates
    && y.entry == x.entry && y.desk == DeskAfter(f, x, a)
  }

  lemma AsideKeeps(f: Config, x: Session, a: Action, y: Session)
    requires SessionInv(f, x) && Takes(f, x, a) && IsAside(a) && y == Act(f, x, a)
    ensures StandsAside(f, x, a, y) && !Overtaking(x.system, y.system)
  {
    ActKeeps(f, x, a);
    if LabelOf(f, x, a).Some? { SignalKeepsWorkers(x.system, LabelOf(f, x, a).value); }
    FatesStay(x.system, y.system);
  }

  /** A prompt that is newer than a resting record settles it; one that is settled stays so. */
  lemma AcknowledgeSettles(c: T.Core, sid: SessionId, epoch: nat, sequence: nat, a: Option<InputActivity>, r: T.Core)
    requires T.Valid(c) && r == T.Acknowledge(c, sid, epoch, sequence, a).0 && sid in c.deliveries
    requires var d := c.deliveries[sid];
             && d.epoch == epoch && d.baseline < sequence
             && (d.state.AcceptsReplacement() || (Rested(d) && d.failure.Some? && !d.failure.value.ComposerNotReady?))
    ensures sid in r.deliveries && r.deliveries[sid].state.AcceptsReplacement()
  {
  }

  lemma ProgressStays(c: T.Core, sid: SessionId, epoch: nat, sequence: nat, r: T.Core)
    requires T.Valid(c) && r == T.Progress(c, sid, epoch, sequence).0 && sid in c.deliveries
    requires c.deliveries[sid].state.AcceptsReplacement()
    ensures sid in r.deliveries && r.deliveries[sid].state.AcceptsReplacement()
  {
  }

  lemma PromptSettles(f: Config, x: Session, a: Action, y: Session)
    requires SessionInv(f, x) && Spent(f, x) && Sequence(x.desk) + 1 <= U64_MAX
    requires a.Observes? && a.signal.PromptSubmitted? && Takes(f, x, a) && y == Act(f, x, a)
    ensures Done(f, y)
  {
    var l := LabelOf(f, x, a).value;
    StepCore(x.system, l);
    if f.id in x.system.core.deliveries {
      AcknowledgeSettles(x.system.core, f.id, f.epoch, NextSequence(x.desk), a.activity, y.system.core);
    } else {
      StepInPlace(x.system, l);
    }
  }

  lemma StopStays(f: Config, x: Session, a: Action, y: Session)
    requires SessionInv(f, x) && Done(f, x)
    requires a.Observes? && a.signal.Stopped? && Takes(f, x, a) && y == Act(f, x, a)
    ensures Done(f, y)
  {
    var l := LabelOf(f, x, a).value;
    StepCore(x.system, l);
    if f.id in x.system.core.deliveries {
      ProgressStays(x.system.core, f.id, f.epoch, NextSequence(x.desk), y.system.core);
    } else {
      StepInPlace(x.system, l);
    }
  }

  /** The k-th worker is still adrift after an action, and nobody else moved. */
  ghost predicate Drifts(f: Config, x: Session, k: nat, a: Action, y: Session) {
    Calmly(f, x, a, y) && Adrift(f, y, k) && y.system.workers == x.system.workers && y.entry == x.entry
  }

  lemma HookReleased(f: Config, x: Session, k: nat, y: Session)
    requires Adrift(f, x, k) && Possible(f, x, ReleasesHook) && y == Act(f, x, ReleasesHook)
    ensures Drifts(f, x, k, ReleasesHook, y) && y.desk == x.desk.(hookPending := false)
  {
    AsideKeeps(f, x, ReleasesHook, y);
  }

  lemma PlaceStays(f: Config, x: Session, a: Action, y: Session)
    requires SessionInv(f, x) && Takes(f, x, a) && a.Observes? && IsAside(a) && y == Act(f, x, a)
    requires f.id in y.system.core.deliveries
    ensures f.id in x.system.core.deliveries
    ensures y.system.core.deliveries[f.id].cell == x.system.core.deliveries[f.id].cell
  {
    MovingKeeps(f, x, a, LabelOf(f, x, a).value, y);
  }

  /** The turn starts: that settles the record. */
  lemma PromptHeard(f: Config, x: Session, k: nat, a: Action, y: Session)
    requires Adrift(f, x, k) && Sequence(x.desk) + 1 <= U64_MAX
    requires a == Prompted(f.provider) && Possible(f, x, a) && y == Act(f, x, a)
    ensures Drifts(f, x, k, a, y) && Done(f, y) && y.desk == DeskAfter(f, x, a)
  {
    AsideKeeps(f, x, a, y);
    PromptSettles(f, x, a, y);
    if f.id in y.system.core.deliveries { PlaceStays(f, x, a, y); }
  }

  lemma EndHeard(f: Config, x: Session, k: nat, a: Action, y: Session)
    requires Adrift(f, x, k) && Done(f, x) && a == Ended(f.provider) && Possible(f, x, a) && y == Act(f, x, a)
    ensures Drifts(f, x, k, a, y) && Done(f, y) && y.desk == DeskAfter(f, x, a)
  {
    AsideKeeps(f, x, a, y);
    StopStays(f, x, a, y);
    if f.id in y.system.core.deliveries { PlaceStays(f, x, a, y); }
  }

  /** The settled record is removed, and its worker was not there to be overtaken. */
  lemma SettlesCalmly(f: Config, x: Session, k: nat, y: Session)
    requires Adrift(f, x, k) && Done(f, x) && Possible(f, x, Settles) && y == Act(f, x, Settles)
    ensures Drifts(f, x, k, Settles, y) && y.system.core.deliveries == map[]
    ensures y.desk.observation == x.desk.observation && y.desk.hookPending == x.desk.hookPending
  {
    if f.id in x.system.core.deliveries {
      FrontIsOnRecord(f, x);
      RemovingKeeps(f, x, Settles, y);
      RemovalOvertakesNobody(x.system, f.id, y.system);
    } else {
      FatesStay(x.system, y.system);
    }
  }

  lemma Queued(f: Config, x: Session, k: nat, a: Action, y: Session)
    requires Adrift(f, x, k) && a == Enqueues(PROMPT) && Possible(f, x, a) && y == Act(f, x, a)
    requires x.system.core.deliveries == map[] && !x.desk.hookPending && AgentIs(x, Idle) && !f.provider.Other?
    ensures Drifts(f, x, k, a, y) && Ready(f, y)
  {
    AsideKeeps(f, x, a, y);
    assert QueueOk(y);
  }

  /** Whatever was observed before, a turn that starts and ends leaves the provider idle. */
  lemma TurnEndsIdle(k: Desk, p: Provider)
    requires Sequence(k) + 2 <= U64_MAX
    ensures var d := ObserveFrom(ObserveFrom(k, PromptSubmitted, Via(p), 0), Stopped, Via(p), 0);
            && d.observation.Some? && d.observation.value.state.Idle?
            && d.pending == k.pending && d.hookPending == k.hookPending
  {
  }

  lemma ReadyLaunches(f: Config, x: Session, k: nat, y: Session)
    requires Ready(f, x) && Adrift(f, x, k) && |x.system.workers| + 1 < U64_MAX
    requires Possible(f, x, Dispatches(WILLING)) && y == Act(f, x, Dispatches(WILLING))
    ensures Calmly(f, x, Dispatches(WILLING), y) && Racing(f, y, k, |x.system.workers|)
  {
    FrontLaunches(f, x, y);
    BeginDecided(f, x);
    BeginOvertakesNobody(x.system, BeginLabel(f, x), y.system);
    assert LinkOk(f, x, k);
  }

  lemma OneMore(f: Config, xs: seq<Session>, acts: seq<Action>, ys: seq<Session>, bs: seq<Action>, a: Action,
                y: Session)
    requires GoesOn(f, xs, acts, ys, bs) && Calmly(f, ys[|bs|], a, y)
    ensures GoesOn(f, xs, acts, ys + [y], bs + [a])
  {
    GoOn(f, ys, bs, a, y);
    GoesOnFrom(f, xs, acts, ys, bs, ys + [y], bs + [a]);
  }

  /** The states an adrift session goes through until it is ready for another delivery. */
  lemma TurnPasses(f: Config, x: Session, k: nat) returns (y: Session, z: Session, w: Session)
    requires Adrift(f, x, k) && Sequence(x.desk) + 2 <= U64_MAX
    ensures Drifts(f, x, k, ReleasesHook, y) && Drifts(f, y, k, Prompted(f.provider), z)
    ensures Drifts(f, z, k, Ended(f.provider), w) && Done(f, w) && AgentIs(w, Idle) && !w.desk.hookPending
  {
    y := Act(f, x, ReleasesHook);
    HookReleased(f, x, k, y);
    z := Act(f, y, Prompted(f.provider));
    PromptHeard(f, y, k, Prompted(f.provider), z);
    w := Act(f, z, Ended(f.provider));
    EndHeard(f, z, k, Ended(f.provider), w);
    TurnEndsIdle(y.desk, f.provider);
  }

  lemma TurnGoesOn(f: Config, xs: seq<Session>, acts: seq<Action>, k: nat) returns (ys: seq<Session>, bs: seq<Action>)
    requires IsSessionRun(f, xs, acts) && Adrift(f, xs[|acts|], k) && Sequence(xs[|acts|].desk) + 2 <= U64_MAX
    ensures GoesOn(f, xs, acts, ys, bs) && ys[|bs|].system.workers == xs[|acts|].system.workers
    ensures Adrift(f, ys[|bs|], k) && Done(f, ys[|bs|]) && AgentIs(ys[|bs|], Idle) && !ys[|bs|].desk.hookPending
  {
    var y, z, w := TurnPasses(f, xs[|acts|], k);
    GoOn(f, xs, acts, ReleasesHook, y);
    ys, bs := xs + [y], acts + [ReleasesHook];
    OneMore(f, xs, acts, ys, bs, Prompted(f.provider), z);
    ys, bs := ys + [z], bs + [Prompted(f.provider)];
    OneMore(f, xs, acts, ys, bs, Ended(f.provider), w);
    ys, bs := ys + [w], bs + [Ended(f.provider)];
  }

  lemma SettlesAndQueues(f: Config, x: Session, k: nat) returns (y: Session, z: Session)
    requires Adrift(f, x, k) && Done(f, x) && AgentIs(x, Idle) && !x.desk.hookPending && !f.provider.Other?
    ensures Drifts(f, x, k, Settles, y) && Drifts(f, y, k, Enqueues(PROMPT), z) && Ready(f, z)
  {
    y := Act(f, x, Settles);
    SettlesCalmly(f, x, k, y);
    z := Act(f, y, Enqueues(PROMPT));
    Queued(f, y, k, Enqueues(PROMPT), z);
  }

  lemma MakesReady(f: Config, xs: seq<Session>, acts: seq<Action>, k: nat) returns (ys: seq<Session>, bs: seq<Action>)
    requires IsSessionRun(f, xs, acts) && Adrift(f, xs[|acts|], k) && Sequence(xs[|acts|].desk) + 2 <= U64_MAX
    requires !f.provider.Other?
    ensures GoesOn(f, xs, acts, ys, bs) && ys[|bs|].system.workers == xs[|acts|].system.workers
    ensures Adrift(f, ys[|bs|], k) && Ready(f, ys[|bs|])
  {
    ys, bs := TurnGoesOn(f, xs, acts, k);
    var y, z := SettlesAndQueues(f, ys[|bs|], k);
    OneMore(f, xs, acts, ys, bs, Settles, y);
    ys, bs := ys + [y], bs + [Settles];
    OneMore(f, xs, acts, ys, bs, Enqueues(PROMPT), z);
    ys, bs := ys + [z], bs + [Enqueues(PROMPT)];
  }

  lemma AdriftRaces(f: Config, xs: seq<Session>, acts: seq<Action>, k: nat)
    returns (ys: seq<Session>, bs: seq<Action>, c: nat)
    requires IsSessionRun(f, xs, acts) && Adrift(f, xs[|acts|], k) && Sequence(xs[|acts|].desk) + 2 <= U64_MAX
    requires !f.provider.Other? && |xs[|acts|].system.workers| + 1 < U64_MAX
    ensures GoesOn(f, xs, acts, ys, bs) && Racing(f, ys[|bs|], k, c)
  {
    ys, bs := MakesReady(f, xs, acts, k);
    c := |xs[|acts|].system.workers|;
    var y := Act(f, ys[|bs|], Dispatches(WILLING));
    ReadyLaunches(f, ys[|bs|], k, y);
    OneMore(f, xs, acts, ys, bs, Dispatches(WILLING), y);
    ys, bs := ys + [y], bs + [Dispatches(WILLING)];
  }

  lemma AdriftDisorders(f: Config, xs: seq<Session>, acts: seq<Action>, k: nat)
    returns (ys: seq<Session>, bs: seq<Action>, i: nat, j: nat, c: nat)
    requires IsSessionRun(f, xs, acts) && Adrift(f, xs[|acts|], k) && Sequence(xs[|acts|].desk) + 2 <= U64_MAX
    requires !f.provider.Other? && |xs[|acts|].system.workers| + 1 < U64_MAX
    ensures GoesOn(f, xs, acts, ys, bs) && |bs| == j + 1 && Disordered(ys, i, c, j, k)
  {
    var zs, ds;
    zs, ds, c := AdriftRaces(f, xs, acts, k);
    ys, bs, i, j := BothPaste(f, zs, ds, k, c);
    GoesOnFrom(f, xs, acts, zs, ds, ys, bs);
  }

  // ----- after any overtaking action -----

  lemma OvertakenStep(s: System, l: Label, t: System, k: nat)
    requires Inv(s) && Next(s, l, t) && Overtakes(s, t, k)
    ensures k < |t.workers| && InWindow(t.workers[k].pc)
    ensures !l.WorkerMoves? && Touches(s, l).None? && CoreAfter(s, l) != s.core
  {
    RetiringLabel(s, l, k);
    StepFrame(s, l, k);
  }

  lemma OvertakingActs(f: Config, x: Session, a: Action, l: Label)
    requires Possible(f, x, a) && LabelOf(f, x, a) == Some(l)
    requires !l.WorkerMoves? && Touches(x.system, l).None? && CoreAfter(x.system, l) != x.system.core
    ensures a.Settles? || a.Closes? || a.Dispatches?
  {
  }

  lemma OvertakenWaits(f: Config, x: Session, a: Action, y: Session, k: nat)
    requires SessionInv(f, x) && Takes(f, x, a) && y == Act(f, x, a) && Overtakes(x.system, y.system, k)
    ensures SessionInv(f, y) && k < |x.entry| <= |y.entry| && InWindow(y.system.workers[k].pc)
    ensures a.Settles? || a.Closes? || a.Dispatches?
    ensures LabelOf(f, x, a).Some? && CoreAfter(x.system, LabelOf(f, x, a).value) != x.system.core
    ensures Touches(x.system, LabelOf(f, x, a).value).None?
  {
    ActKeeps(f, x, a);
    ActIsStep(f, x, a, y);
    var l := LabelOf(f, x, a).value;
    OvertakenStep(x.system, l, y.system, k);
    OvertakingActs(f, x, a, l);
  }

  lemma DispatchLabel(f: Config, x: Session, a: Action, l: Label)
    requires Possible(f, x, a) && a.Dispatches? && LabelOf(f, x, a) == Some(l)
    ensures l.sid == f.id
    ensures l.Blocks? || (l.Begins? && l.settlement == SettlementFor(f.provider, x.desk.observation))
  {
  }

  lemma DispatchArrives(f: Config, x: Session, a: Action, l: Label, y: Session)
    requires Inv(x.system) && Possible(f, x, a) && a.Dispatches? && LabelOf(f, x, a) == Some(l) && !f.provider.Other?
    requires y.system == Step(x.system, l) && CoreAfter(x.system, l) != x.system.core && Touches(x.system, l).None?
    ensures Arrived(f, y, |x.system.workers|)
  {
    DispatchLabel(f, x, a, l);
    if l.Begins? { BeginArrives(f, x, l, y); } else { BlockArrives(f, x, l, y); }
  }

  lemma OvertakenIsFront(f: Config, x: Session, k: nat)
    requires SessionInv(f, x) && k < |x.entry| && x.system.fates[k].None?
    ensures x.entry[k] == x.head
  {
    assert FateOk(x.system, k) && LinkOk(f, x, k);
  }

  /** The session was settled or closed: nothing is on record any more. */
  lemma RemovalLeaves(f: Config, x: Session, a: Action, y: Session, k: nat)
    requires SessionInv(f, x) && Takes(f, x, a) && y == Act(f, x, a) && Overtakes(x.system, y.system, k)
    requires Unsaturated(y.system) && (a.Settles? || a.Closes?)
    ensures Adrift(f, y, k)
  {
    OvertakenWaits(f, x, a, y, k);
    RemovingKeeps(f, x, a, y);
  }

  /** The front was dispatched again: either a second worker is on its way for it, or its record is at rest. */
  lemma DispatchLeaves(f: Config, x: Session, a: Action, y: Session, k: nat, c: nat)
    requires SessionInv(f, x) && Takes(f, x, a) && y == Act(f, x, a) && Overtakes(x.system, y.system, k)
    requires Unsaturated(y.system) && a.Dispatches? && !f.provider.Other? && c == |x.system.workers|
    ensures c < |y.entry| && k < |y.entry| && y.entry[k] == y.entry[c]
    ensures if y.system.workers[c].pc.NoWorker? then Adrift(f, y, k) else Racing(f, y, k, c)
  {
    OvertakenWaits(f, x, a, y, k);
    DispatchArrives(f, x, a, LabelOf(f, x, a).value, y);
    OvertakenIsFront(f, x, k);
  }

  lemma OvertakenInRun(f: Config, xs: seq<Session>, acts: seq<Action>, n: nat, k: nat)
    requires IsSessionRun(f, xs, acts) && n < |acts| && Overtakes(xs[n].system, xs[n + 1].system, k)
    ensures SessionInv(f, xs[n]) && Takes(f, xs[n], acts[n]) && xs[n + 1] == Act(f, xs[n], acts[n])
    ensures !f.provider.Other?
  {
    RunKeepsSession(f, xs, acts, n);
    assert ActsAt(f, xs, acts, n);
    if f.provider.Other? { NobodyIsOvertaken(f, xs, acts, n); }
  }

  lemma FirstPart(f: Config, xs: seq<Session>, acts: seq<Action>, n: nat)
    requires IsSessionRun(f, xs, acts) && n <= |acts|
    ensures IsSessionRun(f, xs[..n + 1], acts[..n])
  {
    var ys, bs := xs[..n + 1], acts[..n];
    forall i | 0 <= i < |bs| ensures ActsAt(f, ys, bs, i) {
      ActsIs(f, ys, bs, i, xs[i], acts[i], xs[i + 1]);
      ActsIs(f, xs, acts, i, xs[i], acts[i], xs[i + 1]);
    }
  }

  /** An overtaking dispatch started a second worker for the same submission. */
  ghost predicate StartsSecond(xs: seq<Session>, acts: seq<Action>, n: nat)
    requires n < |acts| && n + 1 < |xs|
  {
    acts[n].Dispatches? && |xs[n].system.workers| < |xs[n + 1].system.workers|
    && !xs[n + 1].system.workers[|xs[n].system.workers|].pc.NoWorker?
  }

  /** Then the workers alone can go on to paste that submission twice. */
  lemma SecondPastes(f: Config, xs: seq<Session>, acts: seq<Action>, n: nat, k: nat)
    returns (ys: seq<Session>, bs: seq<Action>, i: nat, j: nat, c: nat)
    requires IsSessionRun(f, xs, acts) && n < |acts| && Overtakes(xs[n].system, xs[n + 1].system, k)
    requires Unsaturated(xs[n + 1].system) && StartsSecond(xs, acts, n)
    ensures Raced(f, xs[..n + 2], acts[..n + 1], ys, bs, i, j, k, c)
    ensures k < |xs[n + 1].entry| && c < |xs[n + 1].entry| && xs[n + 1].entry[k] == xs[n + 1].entry[c]
  {
    OvertakenInRun(f, xs, acts, n, k);
    c := |xs[n].system.workers|;
    DispatchLeaves(f, xs[n], acts[n], xs[n + 1], k, c);
    FirstPart(f, xs, acts, n + 1);
    ys, bs, i, j := BothPaste(f, xs[..n + 2], acts[..n + 1], k, c);
  }

  lemma OvertakenDrifts(f: Config, xs: seq<Session>, acts: seq<Action>, n: nat, k: nat)
    requires IsSessionRun(f, xs, acts) && n < |acts| && Overtakes(xs[n].system, xs[n + 1].system, k)
    requires Unsaturated(xs[n + 1].system) && !StartsSecond(xs, acts, n)
    ensures Adrift(f, xs[n + 1], k) && !f.provider.Other?
  {
    OvertakenInRun(f, xs, acts, n, k);
    OvertakenWaits(f, xs[n], acts[n], xs[n + 1], k);
    if acts[n].Dispatches? { DispatchLeaves(f, xs[n], acts[n], xs[n + 1], k, |xs[n].system.workers|); }
    else { RemovalLeaves(f, xs[n], acts[n], xs[n + 1], k); }
  }

  /**
  Conversely, after any action that overtakes a delivery the session can go on,
  without another such action and without being closed, to paste that delivery
  after one whose submission was not accepted before.
   */
  lemma OvertakingDisorders(f: Config, xs: seq<Session>, acts: seq<Action>, n: nat, k: nat)
    returns (ys: seq<Session>, bs: seq<Action>, i: nat, j: nat, c: nat)
    requires IsSessionRun(f, xs, acts) && n < |acts| && Overtakes(xs[n].system, xs[n + 1].system, k)
    requires |xs[n + 1].system.workers| + 1 < U64_MAX && Sequence(xs[n + 1].desk) + 2 <= U64_MAX
    ensures GoesOn(f, xs[..n + 2], acts[..n + 1], ys, bs) && |bs| == j + 1 && Disordered(ys, i, c, j, k)
  {
    if StartsSecond(xs, acts, n) {
      ys, bs, i, j, c := SecondPastes(f, xs, acts, n, k);
    } else {
      OvertakenDrifts(f, xs, acts, n, k);
      FirstPart(f, xs, acts, n + 1);
      ys, bs, i, j, c := AdriftDisorders(f, xs[..n + 2], acts[..n + 1], k);
    }
  }

  ghost predicate DisordersAfter(f: Config, xs: seq<Session>, acts: seq<Action>, ys: seq<Session>, bs: seq<Action>,
                                 i: nat, a: nat, j: nat, b: nat)
  {
    GoesOn(f, xs, acts, ys, bs) && |bs| == j + 1 && Disordered(ys, i, a, j, b)
  }

  /** The session can go on, overtaking nobody, to paste out of order. */
  ghost predicate CanDisorder(f: Config, xs: seq<Session>, acts: seq<Action>) {
    exists ys: seq<Session>, bs: seq<Action>, i: nat, a: nat, j: nat, b: nat ::
      DisordersAfter(f, xs, acts, ys, bs, i, a, j, b)
  }

  lemma NobodySoFar(f: Config, xs: seq<Session>, acts: seq<Action>, ys: seq<Session>, bs: seq<Action>, m: nat)
    requires GoesOn(f, xs, acts, ys, bs) && m < |bs| && (m < |acts| ==> !OvertakenAt(xs, m))
    ensures !OvertakenAt(ys, m)
  {
    if m < |acts| { assert ys[m] == xs[m] && ys[m + 1] == xs[m + 1]; } else { assert CalmlyAt(ys, bs, m); }
  }

  lemma StaysInOrder(f: Config, xs: seq<Session>, acts: seq<Action>, ys: seq<Session>, bs: seq<Action>,
                     i: nat, a: nat, j: nat, b: nat)
    requires GoesOn(f, xs, acts, ys, bs) && forall m :: 0 <= m < |acts| ==> !OvertakenAt(xs, m)
    requires i < j < |bs| && PastesAt(ys, i, a) && PastesAt(ys, j, b)
    ensures a < |ys[i + 1].entry| && b < |ys[j + 1].entry| && ys[i + 1].entry[a] < ys[j + 1].entry[b]
  {
    forall m | 0 <= m < |bs| ensures !OvertakenAt(ys, m) { NobodySoFar(f, xs, acts, ys, bs, m); }
    PastesInOrder(f, ys, bs, i, a, j, b);
  }

  lemma CalmCannotDisorder(f: Config, xs: seq<Session>, acts: seq<Action>)
    requires |xs| == |acts| + 1 && forall m :: 0 <= m < |acts| ==> !OvertakenAt(xs, m)
    ensures !CanDisorder(f, xs, acts)
  {
    forall ys: seq<Session>, bs: seq<Action>, i: nat, a: nat, j: nat, b: nat
      ensures !DisordersAfter(f, xs, acts, ys, bs, i, a, j, b)
    {
      if DisordersAfter(f, xs, acts, ys, bs, i, a, j, b) {
        StaysInOrder(f, xs, acts, ys, bs, i, a, j, b);
      }
    }
  }

  /**
  Exactly the overtaking actions are to blame: after an action with nobody
  overtaken before, the session can go on calmly to paste out of order, or twice,
  if and only if that action overtook somebody.
   */
  lemma DisordersExactly(f: Config, xs: seq<Session>, acts: seq<Action>, n: nat)
    requires IsSessionRun(f, xs, acts) && |acts| == n + 1 && forall m :: 0 <= m < n ==> !OvertakenAt(xs, m)
    requires |xs[n + 1].system.workers| + 1 < U64_MAX && Sequence(xs[n + 1].desk) + 2 <= U64_MAX
    ensures CanDisorder(f, xs, acts) <==> OvertakenAt(xs, n)
  {
    if OvertakenAt(xs, n) {
      var k: nat :| Overtakes(xs[n].system, xs[n + 1].system, k);
      var ys, bs, i, j, c := OvertakingDisorders(f, xs, acts, n, k);
      assert xs[..n + 2] == xs && acts[..n + 1] == acts;
      assert DisordersAfter(f, xs, acts, ys, bs, i, c, j, k);
    } else {
      CalmCannotDisorder(f, xs, acts);
    }
  }
}
