/**
What a worker can do when the terminal answers: it presses Enter, and as often as
the protocol allows. Partner of the bounds on what a worker may ever write.
 */
module DeliveryReach {
  import opened Common
  import opened DeliveryRecord
  import opened DeliveryWorker
  import opened DeliveryProtocol
  import opened DeliverySafety
  import T = DeliveryTable

  const FINE := Reply(Fine, 0, 0)
  const LATE := Reply(TimedOut, 0, 0)

  /** A worker, its flags and what it reported, after some steps of its own. */
  datatype Course = Course(worker: Worker, signals: Signals, sent: seq<(Outcome, Diagnostics)>)

  function Onward(c: Course, r: Reply): Course {
    var m := Move(c.worker, c.signals, r);
    Course(m.worker, m.signals, if m.sent.None? then c.sent else c.sent + [m.sent.value])
  }

  /** After these answers, with nobody else at work. */
  function Answered(c: Course, rs: seq<Reply>): Course {
    if rs == [] then c else Onward(Answered(c, rs[..|rs| - 1]), rs[|rs| - 1])
  }

  lemma {:induction false} AnsweredOn(c: Course, rs: seq<Reply>, r: Reply)
    ensures Answered(c, rs + [r]) == Onward(Answered(c, rs), r)
  {
    assert (rs + [r])[..|rs|] == rs;
  }

  lemma {:induction false} AnsweredStep(c: Course, rs: seq<Reply>, qs: seq<Reply>, q: Reply)
    requires Answered(c, rs + qs) == Answered(Answered(c, rs), qs)
    ensures Answered(c, rs + (qs + [q])) == Answered(Answered(c, rs), qs + [q])
  {
    assert rs + (qs + [q]) == rs + qs + [q];
    AnsweredOn(c, rs + qs, q);
    AnsweredOn(Answered(c, rs), qs, q);
  }

  lemma {:induction false} AnsweredBoth(c: Course, rs: seq<Reply>, qs: seq<Reply>)
    ensures Answered(c, rs + qs) == Answered(Answered(c, rs), qs)
  {
    if qs == [] {
      assert rs + qs == rs;
    } else {
      AnsweredBoth(c, rs, qs[..|qs| - 1]);
      AnsweredStep(c, rs, qs[..|qs| - 1], qs[|qs| - 1]);
      assert qs == qs[..|qs| - 1] + [qs[|qs| - 1]];
    }
  }

  /** One course leads to another. */
  ghost predicate Leads(c: Course, d: Course) { exists rs: seq<Reply> :: Answered(c, rs) == d }

  lemma LeadsNowhere(c: Course)
    ensures Leads(c, c)
  {
    assert Answered(c, []) == c;
  }

  lemma LeadsOn(c: Course, d: Course, r: Reply)
    requires Leads(c, d)
    ensures Leads(c, Onward(d, r))
  {
    var rs: seq<Reply> :| Answered(c, rs) == d;
    AnsweredOn(c, rs, r);
  }

  lemma LeadsFrom(c: Course, d: Course, e: Course)
    requires Leads(c, d) && Leads(d, e)
    ensures Leads(c, e)
  {
    var rs: seq<Reply> :| Answered(c, rs) == d;
    var qs: seq<Reply> :| Answered(d, qs) == e;
    AnsweredBoth(c, rs, qs);
  }

  // ----- the first submit -----

  /** Nothing stands in the way of the worker: it was not cancelled, and has not failed. */
  ghost predicate Willing(c: Course) {
    && WorkerOk(c.worker, c.signals) && !c.signals.cancel
    && (c.worker.pc.Settling? || (c.worker.pc.Pasting? && !c.worker.pc.paste.ReadyFailed?))
  }

  /** The report of a first submit. */
  predicate IsSubmitted(sent: (Outcome, Diagnostics)) {
    sent.0 == Submitted && sent.1.pasteReceipted && sent.1.submitReceipted && sent.1.submitAttempts >= 1
  }

  /** The worker has submitted once, and its last report says so. */
  ghost predicate HasSubmitted(before: Course, c: Course) {
    && c.worker.trace == Submits(1) && c.worker.attempt == 1
    && c.worker.pc == (if c.worker.settlement.ProviderQueue? then Done else Acking(AckWait))
    && |c.sent| == |before.sent| + 1 && before.sent <= c.sent && IsSubmitted(c.sent[|before.sent|])
    && c.signals.cancel == before.signals.cancel && c.signals.ack == before.signals.ack
    && c.worker.settlement == before.worker.settlement && c.worker.wake == before.worker.wake
  }

  /** The worker is about to submit for the first time. */
  ghost predicate IsSettled(c: Course) { Willing(c) && c.worker.pc == Settling(CancelBeforeSubmit) }

  lemma SettledSubmits(c: Course) returns (d: Course)
    requires IsSettled(c)
    ensures Leads(c, d) && HasSubmitted(c, d)
  {
    assert Submits(0) == SETTLED && Submits(1) == Then(Then(Submits(0), SubmitHanded), SubmitReceipted);
    var c1 := Onward(c, FINE);
    var c2 := Onward(c1, FINE);
    var c3 := Onward(c2, FINE);
    d := Onward(c3, FINE);
    LeadsNowhere(c);
    LeadsOn(c, c, FINE);
    LeadsOn(c, c1, FINE);
    LeadsOn(c, c2, FINE);
    LeadsOn(c, c3, FINE);
  }

  /** What a worker that goes on keeps. */
  predicate Keeps(c: Course, d: Course) {
    && d.signals.cancel == c.signals.cancel && d.signals.ack == c.signals.ack
    && d.worker.settlement == c.worker.settlement && d.worker.wake == c.worker.wake
  }

  /** How many steps are left to the first submit. */
  function ToGo(pc: Pc): nat
    requires pc.Pasting? || pc.Settling?
  {
    if pc.Settling? then
      match pc.settle
      case CancelAfterPaste => 2
      case FirstWait => 1
      case LateCheck => 2
      case LateWait => 1
      case CancelBeforeSubmit => 0
    else
      match pc.paste
      case WaitReady => 7
      case ReadyFailed(_) => 0
      case PasteCheck => 6
      case PasteMark => 5
      case PasteWrite => 4
      case PasteReceipt => 3
  }

  lemma WillingGoesOn(c: Course, d: Course)
    requires Willing(c) && !IsSettled(c) && d == Onward(c, FINE)
    ensures Willing(d) && ToGo(d.worker.pc) < ToGo(c.worker.pc) && Keeps(c, d) && d.sent == c.sent
  {
    MoveKeepsWorker(c.worker, c.signals, FINE);
  }

  lemma {:induction false} WillingSettles(c: Course) returns (d: Course)
    requires Willing(c)
    ensures Leads(c, d) && IsSettled(d) && Keeps(c, d) && d.sent == c.sent
    decreases ToGo(c.worker.pc)
  {
    LeadsNowhere(c);
    d := c;
    if !IsSettled(c) {
      var e := Onward(c, FINE);
      LeadsOn(c, c, FINE);
      WillingGoesOn(c, e);
      d := WillingSettles(e);
      LeadsFrom(c, e, d);
    }
  }

  /** A worker that was not cancelled and has not failed can go on to press Enter, and to report it. */
  lemma WillingSubmits(c: Course) returns (d: Course)
    requires Willing(c)
    ensures Leads(c, d) && HasSubmitted(c, d)
  {
    var e := WillingSettles(c);
    d := SettledSubmits(e);
    LeadsFrom(c, e, d);
  }

  // ----- the retries -----

  /** The worker waits for an acknowledgement that does not come, and may try again. */
  ghost predicate MayRetry(c: Course) {
    && WorkerOk(c.worker, c.signals) && c.worker.pc == Acking(AckWait) && !c.signals.cancel && c.signals.ack.Open?
    && (c.worker.wake || c.worker.settlement.IsComposer())
  }

  /** The worker has pressed Enter `n` times, the last time after waits of `elapsed` milliseconds. */
  ghost predicate HasRetried(c: Course, n: nat, elapsed: nat) {
    && c.worker.pc == Retrying(RetryAckWait) && c.worker.attempt == n >= 2 && c.worker.trace == Submits(n)
    && c.worker.elapsed == elapsed && !c.signals.cancel && c.signals.ack.Open? && !c.worker.settlement.ProviderQueue?
    && c.sent != [] && c.sent[|c.sent| - 1].0 == SubmitRetried
    && c.sent[|c.sent| - 1].1.submitReceipted && c.sent[|c.sent| - 1].1.submitAttempts == n
  }

  ghost predicate IsPolling(c: Course, n: nat, elapsed: nat) {
    && c.worker.pc == Retrying(RetryPoll) && c.worker.attempt == n >= 2 && c.worker.trace == Submits(n - 1)
    && c.worker.elapsed == elapsed && !c.signals.cancel && c.signals.ack.Open? && !c.worker.settlement.ProviderQueue?
  }

  lemma FirstPoll(c: Course) returns (d: Course)
    requires MayRetry(c)
    ensures Leads(c, d) && IsPolling(d, 2, 0) && Keeps(c, d)
  {
    var c1 := Onward(c, LATE);
    var c2 := Onward(c1, FINE);
    var c3 := Onward(c2, FINE);
    d := Onward(c3, FINE);
    LeadsNowhere(c);
    LeadsOn(c, c, LATE);
    LeadsOn(c, c1, FINE);
    LeadsOn(c, c2, FINE);
    LeadsOn(c, c3, FINE);
  }

  /** About to press Enter for the n-th time. */
  ghost predicate IsPressing(c: Course, n: nat, elapsed: nat) {
    && c.worker.pc == Submitting(SubmitWrite) && c.worker.attempt == n >= 2 && c.worker.trace == Submits(n - 1)
    && c.worker.elapsed == elapsed && !c.signals.cancel && c.signals.ack.Open? && !c.worker.settlement.ProviderQueue?
    && c.worker.learned.submitAttempts == n
  }

  lemma PollPresses(c: Course, n: nat, elapsed: nat) returns (d: Course)
    requires IsPolling(c, n, elapsed)
    ensures Leads(c, d) && IsPressing(d, n, elapsed) && Keeps(c, d)
  {
    var c1 := Onward(c, FINE);
    d := Onward(c1, FINE);
    LeadsNowhere(c);
    LeadsOn(c, c, FINE);
    LeadsOn(c, c1, FINE);
  }

  lemma PressSubmits(c: Course, n: nat, elapsed: nat) returns (d: Course)
    requires IsPressing(c, n, elapsed)
    ensures Leads(c, d) && HasRetried(d, n, elapsed) && Keeps(c, d)
  {
    assert Submits(n) == Then(Then(Submits(n - 1), SubmitHanded), SubmitReceipted);
    var c1 := Onward(c, FINE);
    var c2 := Onward(c1, FINE);
    d := Onward(c2, FINE);
    LeadsNowhere(c);
    LeadsOn(c, c, FINE);
    LeadsOn(c, c1, FINE);
    LeadsOn(c, c2, FINE);
  }

  lemma PollSubmits(c: Course, n: nat, elapsed: nat) returns (d: Course)
    requires IsPolling(c, n, elapsed)
    ensures Leads(c, d) && HasRetried(d, n, elapsed) && Keeps(c, d)
  {
    var e := PollPresses(c, n, elapsed);
    d := PressSubmits(e, n, elapsed);
    LeadsFrom(c, e, d);
  }

  lemma NextPoll(c: Course, n: nat, elapsed: nat) returns (d: Course)
    requires HasRetried(c, n, elapsed) && c.worker.wake && elapsed + 5_000 < 120_000 && n < 255
    ensures Leads(c, d) && IsPolling(d, n + 1, elapsed + 5_000) && Keeps(c, d)
  {
    var c1 := Onward(c, LATE);
    d := Onward(c1, FINE);
    LeadsNowhere(c);
    LeadsOn(c, c, LATE);
    LeadsOn(c, c1, FINE);
  }

  /** A delivery that waits in vain is submitted a second time, if there is reason to. */
  lemma SubmitsTwice(c: Course) returns (d: Course)
    requires MayRetry(c)
    ensures Leads(c, d) && HasRetried(d, 2, 0) && Keeps(c, d)
  {
    var e := FirstPoll(c);
    d := PollSubmits(e, 2, 0);
    LeadsFrom(c, e, d);
  }

  lemma WakeAgain(c: Course, d: Course, m: nat, n: nat, elapsed: nat, later: nat) returns (e: Course)
    requires Leads(c, d) && HasRetried(d, m, elapsed) && Keeps(c, d) && c.worker.wake
    requires n == m + 1 <= 255 && later == elapsed + 5_000 < 120_000
    ensures Leads(c, e) && HasRetried(e, n, later) && Keeps(c, e)
  {
    var p := NextPoll(d, m, elapsed);
    LeadsFrom(c, d, p);
    e := PollSubmits(p, n, later);
    LeadsFrom(c, p, e);
  }

  /** A wake is submitted again and again, within two minutes up to 25 times. */
  lemma {:induction false} WakeSubmits(c: Course, n: nat) returns (d: Course)
    requires MayRetry(c) && c.worker.wake && 2 <= n <= 25
    ensures Leads(c, d) && HasRetried(d, n, 5_000 * (n - 2)) && Keeps(c, d)
  {
    if n == 2 {
      d := SubmitsTwice(c);
    } else {
      d := WakeSubmits(c, n - 1);
      d := WakeAgain(c, d, n - 1, n, 5_000 * (n - 3), 5_000 * (n - 2));
    }
  }

  // ----- in a run of the protocol -----

  lemma {:induction false} AnsweredIsOk(c: Course, rs: seq<Reply>)
    requires WorkerOk(c.worker, c.signals)
    ensures WorkerOk(Answered(c, rs).worker, Answered(c, rs).signals)
  {
    if rs != [] {
      AnsweredIsOk(c, rs[..|rs| - 1]);
      var d := Answered(c, rs[..|rs| - 1]);
      MoveKeepsWorker(d.worker, d.signals, rs[|rs| - 1]);
    }
  }

  lemma LeadsIsOk(c: Course, d: Course)
    requires Leads(c, d) && WorkerOk(c.worker, c.signals)
    ensures WorkerOk(d.worker, d.signals)
  {
    var rs: seq<Reply> :| Answered(c, rs) == d;
    AnsweredIsOk(c, rs);
  }

  /** Pressing Enter as often as the delivery allows. */
  lemma WillingReachesLimit(c: Course, limit: nat) returns (d: Course)
    requires Willing(c) && c.signals.ack.Open? && limit == Limit(c.worker.settlement, c.worker.wake)
    ensures Leads(c, d) && d.worker.trace == Submits(limit)
  {
    d := WillingSubmits(c);
    if limit > 1 {
      var e := d;
      LeadsIsOk(c, e);
      if e.worker.wake { d := WakeSubmits(e, 25); } else { d := SubmitsTwice(e); }
      LeadsFrom(c, e, d);
    }
  }

  /** Once through a provider's queue, 25 times for a wake, twice into a composer, else once. */
  function Limit(settlement: Settlement, wake: bool): nat {
    match settlement
    case ProviderQueue => 1
    case OutputActivity => if wake then 25 else 1
    case _ => if wake then 25 else 2
  }

  ghost predicate Stands(s: System, k: nat, c: Course) {
    && k < |s.workers| && |s.core.signals| == |s.workers|
    && s.workers[k] == c.worker && s.core.signals[k] == c.signals
  }

  lemma WorkerAloneOnce(states: seq<System>, labels: seq<Label>, s: System, k: nat, c: Course, r: Reply)
    returns (ss: seq<System>, ls: seq<Label>, t: System)
    requires EndsIn(states, labels, s) && WellFormed(s) && Stands(s, k, c)
    ensures EndsIn(ss, ls, t) && WellFormed(t) && Stands(t, k, Onward(c, r)) && |t.workers| == |s.workers|
  {
    var l := WorkerMoves(k, r);
    t := Step(s, l);
    MoveContinues(c.worker, c.signals, r);
    ExtendRun(states, labels, s, l, t);
    ss, ls := states + [t], labels + [l];
  }

  /** Left alone, a worker of a run goes where the answers lead it. */
  lemma {:induction false} WorkerAlone(states: seq<System>, labels: seq<Label>, s: System, k: nat, c: Course,
                                       rs: seq<Reply>)
    returns (ss: seq<System>, ls: seq<Label>, t: System)
    requires EndsIn(states, labels, s) && WellFormed(s) && Stands(s, k, c)
    ensures EndsIn(ss, ls, t) && WellFormed(t) && Stands(t, k, Answered(c, rs)) && |t.workers| == |s.workers|
  {
    ss, ls, t := states, labels, s;
    if rs != [] {
      ss, ls, t := WorkerAlone(states, labels, s, k, c, rs[..|rs| - 1]);
      ss, ls, t := WorkerAloneOnce(ss, ls, t, k, Answered(c, rs[..|rs| - 1]), rs[|rs| - 1]);
    }
  }

  const SID := SessionId("")
  const WILLING := T.Terminal(Some(InputActivity(0, 0)), true, true, true, true)

  function FirstLabel(m: Submission, settlement: Settlement): Label { Begins(SID, 0, 0, m, settlement, WILLING) }

  lemma FirstIsWilling(m: Submission, settlement: Settlement, s: System, c: Course)
    requires s == Step(INITIAL, FirstLabel(m, settlement)) && Inv(s) && |s.workers| == 1
    requires c == Course(s.workers[0], s.core.signals[0], [])
    ensures Willing(c) && c.signals.ack.Open?
    ensures c.worker.settlement == settlement && c.worker.wake == IsPersistentWake(m) && c.worker.submission == m
  {
    assert WorkerOk(s.workers[0], s.core.signals[0]);
  }

  lemma FirstBegins(m: Submission, settlement: Settlement) returns (states: seq<System>, labels: seq<Label>, s: System)
    ensures EndsIn(states, labels, s) && Inv(s) && |s.workers| == 1
    ensures s == Step(INITIAL, FirstLabel(m, settlement))
  {
    var l := FirstLabel(m, settlement);
    s := Step(INITIAL, l);
    ExtendRun([INITIAL], [], INITIAL, l, s);
    states, labels := [INITIAL] + [s], [] + [l];
    RunKeepsInv(states, labels, 1);
  }

  lemma {:induction false} AnsweredKeeps(c: Course, rs: seq<Reply>)
    ensures var d := Answered(c, rs).worker;
            d.submission == c.worker.submission && d.settlement == c.worker.settlement && d.wake == c.worker.wake
  {
    if rs != [] {
      AnsweredKeeps(c, rs[..|rs| - 1]);
      var d := Answered(c, rs[..|rs| - 1]);
      MoveContinues(d.worker, d.signals, rs[|rs| - 1]);
    }
  }

  lemma RepliesToLimit(c: Course, limit: nat) returns (rs: seq<Reply>)
    requires Willing(c) && c.signals.ack.Open? && limit == Limit(c.worker.settlement, c.worker.wake)
    ensures var d := Answered(c, rs).worker;
            && d.trace == Submits(limit) && d.submission == c.worker.submission
            && d.settlement == c.worker.settlement && d.wake == c.worker.wake
  {
    var d := WillingReachesLimit(c, limit);
    rs :| Answered(c, rs) == d;
    AnsweredKeeps(c, rs);
  }

  /** For every kind of delivery some run hands the terminal as many submits as the bounds on all runs allow. */
  lemma LimitIsReached(m: Submission, settlement: Settlement)
    returns (states: seq<System>, labels: seq<Label>, s: System)
    ensures EndsIn(states, labels, s) && |s.workers| == 1
    ensures var w := s.workers[0];
            && w.submission == m && w.settlement == settlement && w.wake == IsPersistentWake(m)
            && w.trace == Submits(Limit(settlement, IsPersistentWake(m)))
            && Limit(settlement, IsPersistentWake(m)) == MaxSubmits(settlement, IsPersistentWake(m))
  {
    states, labels, s := FirstBegins(m, settlement);
    var c := Course(s.workers[0], s.core.signals[0], []);
    FirstIsWilling(m, settlement, s, c);
    var rs := RepliesToLimit(c, Limit(settlement, c.worker.wake));
    states, labels, s := WorkerAlone(states, labels, s, 0, c, rs);
  }
}
