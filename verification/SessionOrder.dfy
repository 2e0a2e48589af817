/**
In which runs of an observed session the accepted submissions are pasted in
order and none twice: those in which no delivery is overtaken between its
cancellation check and its paste.
 */
module SessionOrder {
  import opened Common
  import opened DeliveryRecord
  import opened DeliveryWorker
  import opened DeliveryLaws
  import opened DeliveryProtocol
  import opened DeliverySafety
  import opened DeliveryReplay
  import opened Observation
  import opened SessionDesk
  import opened SessionProtocol
  import opened SessionSafety
  import T = DeliveryTable

  // ----- what is kept until somebody is overtaken -----

  /** A delivery that pasted and is no longer on record carries a submission that has left the queue. */
  ghost predicate PastOk(x: Session, k: nat)
    requires k < |x.entry| && k < |x.system.workers| && k < |x.system.fates|
  {
    x.system.fates[k].Some? && x.system.workers[k].Pasted() ==> x.entry[k] < x.head
  }

  ghost predicate AllPast(x: Session) {
    |x.entry| == |x.system.workers| == |x.system.fates| && forall k :: 0 <= k < |x.entry| ==> PastOk(x, k)
  }

  ghost predicate AtMostOnce(x: Session) {
    |x.entry| == |x.system.workers|
    && forall i, j :: 0 <= i < j < |x.entry| && x.entry[i] == x.entry[j] ==>
         !(x.system.workers[i].Pasted() && x.system.workers[j].Pasted())
  }

  ghost predicate OnceInv(f: Config, x: Session) {
    SessionInv(f, x) && AllRetiredOk(x.system) && AllPast(x) && AtMostOnce(x)
  }

  /** One delivery of a session at most is on record. */
  ghost predicate Exclusive(t: System) {
    && |t.workers| == |t.fates|
    && forall a, b :: 0 <= a < b < |t.workers| && t.workers[a].session == t.workers[b].session ==>
         t.fates[a].Some? || t.fates[b].Some?
  }

  /** Only a delivery on record has its paste handed over. */
  ghost predicate PastersOnRecord(s: System, t: System) {
    |t.workers| == |t.fates| && forall b :: 0 <= b < |t.workers| && HandsPaste(s, t, b) ==> t.fates[b].None?
  }

  ghost predicate Sound(s: System, l: Label, t: System) { Advances(s, l, t) && PastersOnRecord(s, t) && Exclusive(t) }

  lemma InvIsExclusive(t: System)
    requires Inv(t)
    ensures Exclusive(t)
  {
    forall a, b | 0 <= a < b < |t.workers| && t.workers[a].session == t.workers[b].session
      ensures t.fates[a].Some? || t.fates[b].Some?
    {
      assert FateOk(t, a) && FateOk(t, b);
    }
  }

  lemma StepPastersOnRecord(s: System, l: Label)
    requires Inv(s) && AllRetiredOk(s) && Enabled(s, l) && |Step(s, l).workers| == |Step(s, l).fates|
    ensures PastersOnRecord(s, Step(s, l))
  {
    var t := Step(s, l);
    forall b | 0 <= b < |t.workers| && HandsPaste(s, t, b) ensures t.fates[b].None? { PasterIsHeld(s, l, b); }
  }

  lemma StepIsSound(s: System, l: Label)
    requires Inv(s) && AllRetiredOk(s) && Enabled(s, l) && Unsaturated(s) && !Overtaking(s, Step(s, l))
    ensures Sound(s, l, Step(s, l)) && AllRetiredOk(Step(s, l))
  {
    var t := Step(s, l);
    StepAdvances(s, l);
    StepKeepsRetired(s, l, t);
    StepPastersOnRecord(s, l);
    InvIsExclusive(t);
  }

  /** What the step retired had not pasted, or the queue moves on. */
  ghost predicate RetiresPast(x: Session, y: Session) {
    && |x.system.workers| == |x.system.fates| <= |y.system.fates|
    && forall k :: 0 <= k < |x.system.workers| && x.system.fates[k].None? && y.system.fates[k].Some? ==>
         !x.system.workers[k].Pasted() || x.head < y.head
  }

  /** What became of the entries of a step that was sound. */
  ghost predicate Orderly(f: Config, x: Session, l: Label, y: Session) {
    && Follows(f, x, l, y) && Sound(x.system, l, y.system) && RetiresPast(x, y)
    && (y.head == x.head || y.system.workers == x.system.workers)
  }

  lemma OrderlyPast(f: Config, x: Session, l: Label, y: Session, k: nat)
    requires SessionInv(f, x) && AllPast(x) && SessionInv(f, y) && Orderly(f, x, l, y) && k < |x.entry|
    ensures PastOk(y, k)
  {
    var s, t := x.system, y.system;
    assert PastOk(x, k) && Same(s, t, k) && LinkOk(f, x, k) && y.entry[k] == x.entry[k];
    if t.fates[k].Some? && t.workers[k].Pasted() {
      if !s.workers[k].Pasted() { assert HandsPaste(s, t, k); }
    }
  }

  lemma OrderlyAllPast(f: Config, x: Session, l: Label, y: Session)
    requires SessionInv(f, x) && AllPast(x) && SessionInv(f, y) && Orderly(f, x, l, y)
    ensures AllPast(y)
  {
    forall k | 0 <= k < |x.entry| ensures PastOk(y, k) { OrderlyPast(f, x, l, y, k); }
  }

  /** A paste handed over is the front submission's. */
  lemma PasteIsFront(f: Config, x: Session, l: Label, y: Session, b: nat)
    requires SessionInv(f, x) && Orderly(f, x, l, y) && HandsPaste(x.system, y.system, b)
    ensures b < |y.entry| && y.entry[b] == x.head
  {
    if b < |x.entry| {
      assert Same(x.system, y.system, b) && FateOk(x.system, b) && LinkOk(f, x, b);
    }
  }

  /** A paste is handed over only if nothing was pasted for its entry before. */
  lemma PasteIsFirst(f: Config, x: Session, l: Label, y: Session, a: nat, b: nat)
    requires SessionInv(f, x) && AllPast(x) && AllPast(y) && LinksOk(f, y) && Orderly(f, x, l, y)
    requires HandsPaste(x.system, y.system, b)
    requires a < |x.entry| && b < |y.entry| && a != b && x.entry[a] == y.entry[b] == x.head
    ensures !y.system.workers[a].Pasted()
  {
    var s, t := x.system, y.system;
    assert PastOk(x, a) && PastOk(y, a) && Same(s, t, a) && LinkOk(f, y, a) && LinkOk(f, y, b);
    assert t.fates[b].None?;
  }

  lemma OrderlyPair(f: Config, x: Session, l: Label, y: Session, i: nat, j: nat)
    requires SessionInv(f, x) && AllPast(x) && AllPast(y) && LinksOk(f, y) && Orderly(f, x, l, y) && AtMostOnce(x)
    requires i < j < |y.entry| && y.entry[i] == y.entry[j]
    ensures !(y.system.workers[i].Pasted() && y.system.workers[j].Pasted())
  {
    var s, t := x.system, y.system;
    if HandsPaste(s, t, j) {
      PasteIsFront(f, x, l, y, j);
      PasteIsFirst(f, x, l, y, i, j);
    } else if HandsPaste(s, t, i) && j < |x.entry| {
      PasteIsFront(f, x, l, y, i);
      PasteIsFirst(f, x, l, y, j, i);
    }
  }

  lemma OrderlyKeeps(f: Config, x: Session, l: Label, y: Session)
    requires OnceInv(f, x) && Orderly(f, x, l, y) && SessionInv(f, y) && AllRetiredOk(y.system)
    ensures OnceInv(f, y)
  {
    OrderlyAllPast(f, x, l, y);
    forall i, j | 0 <= i < j < |y.entry| && y.entry[i] == y.entry[j]
      ensures !(y.system.workers[i].Pasted() && y.system.workers[j].Pasted())
    {
      OrderlyPair(f, x, l, y, i, j);
    }
  }

  // ----- the actions -----

  /** No delivery is overtaken by the action, and fresh identities remain. */
  ghost predicate Calm(f: Config, x: Session, a: Action) {
    Takes(f, x, a) && !Overtaking(x.system, Act(f, x, a).system)
  }

  lemma ActIsSound(f: Config, x: Session, a: Action, l: Label, y: Session)
    requires OnceInv(f, x) && Calm(f, x, a) && LabelOf(f, x, a) == Some(l) && y == Act(f, x, a)
    ensures y.system == Step(x.system, l) && Sound(x.system, l, y.system) && AllRetiredOk(y.system)
  {
    ActIsStep(f, x, a, y);
    StepIsSound(x.system, l);
  }

  lemma QuietStaysOnce(f: Config, x: Session, a: Action)
    requires OnceInv(f, x) && Calm(f, x, a) && LabelOf(f, x, a).None?
    ensures OnceInv(f, Act(f, x, a))
  {
    QuietKeeps(f, x, a);
    var y := Act(f, x, a);
    forall k | 0 <= k < |y.entry| ensures PastOk(y, k) { assert PastOk(x, k); }
  }

  lemma MovingStaysOnce(f: Config, x: Session, a: Action, l: Label, y: Session)
    requires OnceInv(f, x) && Calm(f, x, a) && LabelOf(f, x, a) == Some(l) && y == Act(f, x, a)
    requires a.Works? || a.ReceivesEvent? || a.Observes?
    ensures OnceInv(f, y)
  {
    MovingKeeps(f, x, a, l, y);
    MovingActs(f, x, a, l, y);
    ActIsSound(f, x, a, l, y);
    OrderlyKeeps(f, x, l, y);
  }

  lemma RemovesPast(f: Config, x: Session, a: Action, y: Session)
    requires SessionInv(f, x) && Takes(f, x, a) && (a.Settles? || a.Closes?)
    requires LabelOf(f, x, a).Some? && y == Act(f, x, a)
    requires |y.system.fates| >= |x.system.fates|
    ensures RetiresPast(x, y) && y.accepted == x.accepted && y.entry == x.entry && x.head <= y.head
  {
    RemovingKeeps(f, x, a, y);
    forall k | 0 <= k < |x.system.workers| && x.system.fates[k].None? && y.system.fates[k].Some?
      ensures !x.system.workers[k].Pasted() || x.head < y.head
    {
      assert FateOk(x.system, k) && LinkOk(f, x, k);
    }
  }

  lemma RemovingStaysOnce(f: Config, x: Session, a: Action, y: Session)
    requires OnceInv(f, x) && Calm(f, x, a) && (a.Settles? || a.Closes?) && LabelOf(f, x, a).Some? && y == Act(f, x, a)
    ensures OnceInv(f, y)
  {
    RemovingIsOrderly(f, x, a, y);
    OrderlyKeeps(f, x, Removes(f.id), y);
  }

  lemma RemovingIsOrderly(f: Config, x: Session, a: Action, y: Session)
    requires OnceInv(f, x) && Calm(f, x, a) && (a.Settles? || a.Closes?) && LabelOf(f, x, a).Some? && y == Act(f, x, a)
    ensures Orderly(f, x, Removes(f.id), y) && SessionInv(f, y) && AllRetiredOk(y.system)
  {
    RemovingIsSound(f, x, a, y);
    RemovingKeeps(f, x, a, y);
    RemovesPast(f, x, a, y);
  }

  lemma RemovingIsSound(f: Config, x: Session, a: Action, y: Session)
    requires OnceInv(f, x) && Calm(f, x, a) && (a.Settles? || a.Closes?) && LabelOf(f, x, a).Some? && y == Act(f, x, a)
    ensures Sound(x.system, Removes(f.id), y.system) && AllRetiredOk(y.system)
  {
    ActIsSound(f, x, a, Removes(f.id), y);
  }

  /** The record of an unsettled front has not come to rest. */
  lemma UnsettledFront(f: Config, x: Session)
    requires SessionInv(f, x) && f.id in x.system.core.deliveries && !FrontIsDone(f, x.desk, x.system.core)
    ensures !x.system.core.deliveries[f.id].state.AcceptsReplacement()
  {
    FrontIsOnRecord(f, x);
  }

  lemma DispatchRetires(f: Config, x: Session, l: Label, k: nat)
    requires SessionInv(f, x) && !FrontIsDone(f, x.desk, x.system.core)
    requires (l.Begins? || l.Blocks?) && l.sid == f.id && k < |x.system.workers| && x.system.fates[k].None?
    requires FateAfter(x.system, l, CoreAfter(x.system, l), k).Some?
    ensures !x.system.workers[k].Pasted()
  {
    assert FateOk(x.system, k) && LinkOk(f, x, k);
    UnsettledFront(f, x);
    SupersededOk(x.system, l, k);
  }

  /** A dispatch that retires a delivery retires one that has not pasted. */
  lemma DispatchRetiresPast(f: Config, x: Session, l: Label, y: Session)
    requires SessionInv(f, x) && !FrontIsDone(f, x.desk, x.system.core)
    requires (l.Begins? || l.Blocks?) && l.sid == f.id && y.system == Step(x.system, l)
    requires |x.system.workers| <= |y.system.fates|
    ensures RetiresPast(x, y)
  {
    var s, t := x.system, y.system;
    forall k | 0 <= k < |s.workers| && s.fates[k].None? && t.fates[k].Some? ensures !s.workers[k].Pasted() {
      assert t.fates[k] == FateAfter(s, l, CoreAfter(s, l), k);
      DispatchRetires(f, x, l, k);
    }
  }

  lemma DispatchingStaysOnce(f: Config, x: Session, a: Action, l: Label, y: Session)
    requires OnceInv(f, x) && Calm(f, x, a) && LabelOf(f, x, a) == Some(l) && a.Dispatches? && y == Act(f, x, a)
    ensures OnceInv(f, y)
  {
    DispatchingKeeps(f, x, a, l, y);
    DispatchActs(f, x, a, l, y);
    ActIsSound(f, x, a, l, y);
    DispatchRetiresPast(f, x, l, y);
    OrderlyKeeps(f, x, l, y);
  }

  lemma CalmActKeeps(f: Config, x: Session, a: Action)
    requires OnceInv(f, x) && Calm(f, x, a)
    ensures OnceInv(f, Act(f, x, a))
  {
    var l := LabelOf(f, x, a);
    if l.None? { QuietStaysOnce(f, x, a); }
    else if a.Settles? || a.Closes? { RemovingStaysOnce(f, x, a, Act(f, x, a)); }
    else if a.Dispatches? { DispatchingStaysOnce(f, x, a, l.value, Act(f, x, a)); }
    else { MovingStaysOnce(f, x, a, l.value, Act(f, x, a)); }
  }

  // ----- runs -----

  /** The i-th action overtakes a delivery. */
  ghost predicate OvertakenAt(xs: seq<Session>, i: nat)
    requires i + 1 < |xs|
  {
    Overtaking(xs[i].system, xs[i + 1].system)
  }

  lemma CalmStep(f: Config, xs: seq<Session>, acts: seq<Action>, n: nat)
    requires IsSessionRun(f, xs, acts) && n < |acts| && !OvertakenAt(xs, n) && OnceInv(f, xs[n])
    ensures OnceInv(f, xs[n + 1])
  {
    assert ActsAt(f, xs, acts, n);
    CalmActKeeps(f, xs[n], acts[n]);
  }

  lemma {:induction false} CalmRunKeeps(f: Config, xs: seq<Session>, acts: seq<Action>, n: nat)
    requires IsSessionRun(f, xs, acts) && n < |xs| && forall i :: 0 <= i < n ==> !OvertakenAt(xs, i)
    ensures OnceInv(f, xs[n])
  {
    if n > 0 {
      CalmRunKeeps(f, xs, acts, n - 1);
      CalmStep(f, xs, acts, n - 1);
    }
  }

  /** The i-th action hands over the paste of the b-th delivery. */
  ghost predicate PastesAt(xs: seq<Session>, i: nat, b: nat)
    requires i + 1 < |xs|
  {
    HandsPaste(xs[i].system, xs[i + 1].system, b)
  }

  /** Every paste a calm action hands over is that of the front submission. */
  lemma ActPastesFront(f: Config, x: Session, a: Action, b: nat, y: Session)
    requires OnceInv(f, x) && Calm(f, x, a) && y == Act(f, x, a) && HandsPaste(x.system, y.system, b)
    ensures b < |y.entry| == |y.system.workers| && y.entry[b] == x.head < |y.accepted|
    ensures y.system.workers[b].submission == y.accepted[x.head]
  {
    ActKeeps(f, x, a);
    assert LinkOk(f, y, b);
    if LabelOf(f, x, a).Some? {
      ActIsSound(f, x, a, LabelOf(f, x, a).value, y);
      FrontOfPaste(f, x, LabelOf(f, x, a).value, y, b);
    }
  }

  lemma FrontOfPaste(f: Config, x: Session, l: Label, y: Session, b: nat)
    requires SessionInv(f, x) && Sound(x.system, l, y.system) && HandsPaste(x.system, y.system, b)
    requires y.entry == if |y.system.workers| > |x.entry| then x.entry + [x.head] else x.entry
    ensures b < |y.entry| && y.entry[b] == x.head
  {
    if b < |x.entry| { assert Same(x.system, y.system, b) && FateOk(x.system, b) && LinkOk(f, x, b); }
  }

  lemma PastesFront(f: Config, xs: seq<Session>, acts: seq<Action>, i: nat, b: nat)
    requires IsSessionRun(f, xs, acts) && i < |acts| && PastesAt(xs, i, b)
    requires forall n :: 0 <= n <= i ==> !OvertakenAt(xs, n)
    ensures var y := xs[i + 1];
            && b < |y.entry| == |y.system.workers| && y.entry[b] == xs[i].head < |y.accepted|
            && y.system.workers[b].submission == y.accepted[y.entry[b]]
  {
    CalmRunKeeps(f, xs, acts, i);
    assert ActsAt(f, xs, acts, i) && !OvertakenAt(xs, i);
    ActPastesFront(f, xs[i], acts[i], b, xs[i + 1]);
  }

  lemma PastesApart(x: Session, y: Session, z: Session, w: Session, a: nat, b: nat)
    requires Grows(x, y) && Grows(y, z) && Grows(y, w) && AtMostOnce(w)
    requires HandsPaste(x.system, y.system, a) && HandsPaste(z.system, w.system, b)
    requires a < |y.entry| && y.entry[a] == x.head < |y.accepted|
    requires y.system.workers[a].submission == y.accepted[y.entry[a]]
    requires b < |w.entry| && w.entry[b] == z.head
    ensures y.entry[a] < w.entry[b] && y.entry[a] < |w.accepted|
    ensures y.system.workers[a].submission == w.accepted[y.entry[a]]
  {
  }

  lemma PastedOnce(f: Config, xs: seq<Session>, acts: seq<Action>, i: nat, j: nat)
    requires IsSessionRun(f, xs, acts) && i < j < |acts|
    requires forall n :: 0 <= n <= j ==> !OvertakenAt(xs, n)
    ensures Grows(xs[i], xs[i + 1]) && Grows(xs[i + 1], xs[j]) && Grows(xs[i + 1], xs[j + 1]) && AtMostOnce(xs[j + 1])
  {
    SessionGrows(f, xs, acts, i + 1, j);
    SessionGrows(f, xs, acts, i, i + 1);
    SessionGrows(f, xs, acts, i + 1, j + 1);
    CalmRunKeeps(f, xs, acts, j + 1);
  }

  /**
  Until somebody is overtaken, submissions are pasted in the order they were
  accepted, and none twice: the text of a later paste was accepted strictly later.
   */
  lemma PastesInOrder(f: Config, xs: seq<Session>, acts: seq<Action>, i: nat, a: nat, j: nat, b: nat)
    requires IsSessionRun(f, xs, acts) && i < j < |acts| && PastesAt(xs, i, a) && PastesAt(xs, j, b)
    requires forall n :: 0 <= n <= j ==> !OvertakenAt(xs, n)
    ensures a < |xs[i + 1].entry| && b < |xs[j + 1].entry|
    ensures xs[i + 1].entry[a] < xs[j + 1].entry[b] < |xs[j + 1].accepted|
    ensures xs[i + 1].system.workers[a].submission == xs[j + 1].accepted[xs[i + 1].entry[a]]
    ensures xs[j + 1].system.workers[b].submission == xs[j + 1].accepted[xs[j + 1].entry[b]]
  {
    PastesFront(f, xs, acts, i, a);
    PastesFront(f, xs, acts, j, b);
    PastedOnce(f, xs, acts, i, j);
    PastesApart(xs[i], xs[i + 1], xs[j], xs[j + 1], a, b);
  }

  // ----- a provider without a composer -----

  /** No worker has a paste still to come. */
  ghost predicate Unable(x: Session) { forall k :: 0 <= k < |x.system.workers| ==> !CanPaste(x.system.workers[k].pc) }

  lemma UnableStays(s: System, l: Label, k: nat)
    requires Inv(s) && Enabled(s, l) && k < |s.workers| && !CanPaste(s.workers[k].pc)
    ensures k < |Step(s, l).workers| && !CanPaste(Step(s, l).workers[k].pc)
  {
    StepFrame(s, l, k);
    if Step(s, l).workers[k] != s.workers[k] { MoveContinues(s.workers[k], s.core.signals[k], l.reply); }
  }

  lemma NewIsUnable(f: Config, x: Session, a: Action, l: Label, k: nat)
    requires f.provider.Other? && Possible(f, x, a) && LabelOf(f, x, a) == Some(l) && (l.Begins? || l.Blocks?)
    ensures !CanPaste(NewWorker(l, k).pc)
  {
  }

  lemma ActKeepsUnable(f: Config, x: Session, a: Action, y: Session)
    requires f.provider.Other? && SessionInv(f, x) && Takes(f, x, a) && Unable(x) && y == Act(f, x, a)
    ensures Unable(y)
  {
    var l := LabelOf(f, x, a);
    if l.Some? {
      ActAdvances(f, x, a, l.value, y);
      forall k | 0 <= k < |y.system.workers| ensures !CanPaste(y.system.workers[k].pc) {
        if k < |x.system.workers| { UnableStays(x.system, l.value, k); } else { NewIsUnable(f, x, a, l.value, k); }
      }
    }
  }

  lemma UnableStep(f: Config, xs: seq<Session>, acts: seq<Action>, n: nat)
    requires f.provider.Other? && IsSessionRun(f, xs, acts) && n < |acts| && Unable(xs[n])
    ensures Unable(xs[n + 1])
  {
    RunKeepsSession(f, xs, acts, n);
    assert ActsAt(f, xs, acts, n);
    ActKeepsUnable(f, xs[n], acts[n], xs[n + 1]);
  }

  lemma {:induction false} RunIsUnable(f: Config, xs: seq<Session>, acts: seq<Action>, n: nat)
    requires f.provider.Other? && IsSessionRun(f, xs, acts) && n < |xs|
    ensures Unable(xs[n])
  {
    if n > 0 {
      RunIsUnable(f, xs, acts, n - 1);
      UnableStep(f, xs, acts, n - 1);
    }
  }

  /** Without a composer to wait for, the paste is handed over at once and nobody is ever overtaken. */
  lemma NobodyIsOvertaken(f: Config, xs: seq<Session>, acts: seq<Action>, n: nat)
    requires f.provider.Other? && IsSessionRun(f, xs, acts) && n < |acts|
    ensures !OvertakenAt(xs, n)
  {
    RunIsUnable(f, xs, acts, n);
  }
}
