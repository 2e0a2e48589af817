/** Writes to a surface, resolved as the surface reports the bytes it has consumed. */
module WriteLedger {
  import opened Common

  datatype Write = Write(id: nat, remaining: nat)

  /** The writes left and those resolved, in order, when `bytes` are consumed. */
  function Consumed(pending: seq<Write>, bytes: nat): (seq<Write>, seq<nat>) {
    if bytes == 0 || pending == [] then (pending, [])
    else
      var first := pending[0];
      if bytes < first.remaining then ([first.(remaining := first.remaining - bytes)] + pending[1..], [])
      else
        var (left, resolved) := Consumed(pending[1..], bytes - first.remaining);
        (left, [first.id] + resolved)
  }

  /** The queue without the write `id`. */
  function Without(pending: seq<Write>, id: nat): seq<Write> {
    if pending == [] then [] else if pending[0].id == id then pending[1..] else [pending[0]] + Without(pending[1..], id)
  }

  lemma {:induction false} WithoutIs(pending: seq<Write>, id: nat, i: nat)
    requires i <= |pending| && (forall k :: 0 <= k < i ==> pending[k].id != id)
    requires (i < |pending| ==> pending[i].id == id)
    ensures Without(pending, id) == if i < |pending| then pending[..i] + pending[i + 1..] else pending
  {
    if i > 0 {
      WithoutIs(pending[1..], id, i - 1);
      if i < |pending| {
        assert pending[..i] + pending[i + 1..] == [pending[0]] + (pending[1..][..i - 1] + pending[1..][i..]);
      }
    }
  }

  ghost predicate InOrder(pending: seq<Write>, nextId: nat) {
    && (forall i, j :: 0 <= i < j < |pending| ==> pending[i].id < pending[j].id)
    && (forall i :: 0 <= i < |pending| ==> pending[i].id < nextId)
  }

  lemma RemoveKeepsOrder(pending: seq<Write>, nextId: nat, i: nat)
    requires InOrder(pending, nextId) && i < |pending|
    ensures InOrder(pending[..i] + pending[i + 1..], nextId)
  {
    var rest := pending[..i] + pending[i + 1..];
    assert forall k :: 0 <= k < |rest| ==> rest[k] == pending[if k < i then k else k + 1];
  }

  class GhosttyConsumedWriteLedger {
    var pending: seq<Write>
    var nextId: nat
    /** Writes whose promise was settled, in the order it happened. */
    var resolved: seq<nat>
    var rejected: seq<nat>

    ghost predicate Valid()
      reads this
    {
      InOrder(pending, nextId)
    }

    constructor ()
      ensures Valid() && pending == [] && resolved == [] && rejected == [] && nextId == 0
    {
      pending, nextId, resolved, rejected := [], 0, [], [];
    }

    method Enqueue(bytes: nat) returns (id: nat)
      requires Valid()
      modifies this
      ensures Valid() && pending == old(pending) + [Write(id, bytes)] && id == old(nextId) && nextId == id + 1
      ensures resolved == old(resolved) && rejected == old(rejected)
    {
      id := nextId;
      pending := pending + [Write(id, bytes)];
      nextId := nextId + 1;
    }

    /** The `reject` handed out by `enqueue`: the write leaves the queue, if it is still there. */
    method Reject(id: nat)
      requires Valid()
      modifies this`pending, this`rejected
      ensures Valid() && rejected == old(rejected) + [id] && pending == Without(old(pending), id)
    {
      var i := 0;
      while i < |pending| && pending[i].id != id
        invariant 0 <= i <= |pending| && forall k :: 0 <= k < i ==> pending[k].id != id
      {
        i := i + 1;
      }
      WithoutIs(pending, id, i);
      if i < |pending| {
        RemoveKeepsOrder(pending, nextId, i);
        pending := pending[..i] + pending[i + 1..];
      }
      rejected := rejected + [id];
    }

    method Consume(bytes: nat)
      requires Valid()
      modifies this`pending, this`resolved
      ensures Valid() && pending == Consumed(old(pending), bytes).0
      ensures resolved == old(resolved) + Consumed(old(pending), bytes).1
    {
      ResolvedFirstToLast(pending, bytes);
      var remaining: nat := bytes;
      while remaining > 0
        invariant Consumed(old(pending), bytes).0 == Consumed(pending, remaining).0
        invariant old(resolved) + Consumed(old(pending), bytes).1 == resolved + Consumed(pending, remaining).1
        decreases |pending|, remaining
      {
        if pending == [] { return; }
        var first := pending[0];
        var consumed: nat := Min(remaining, first.remaining);
        if first.remaining == consumed {
          pending := pending[1..];
          resolved := resolved + [first.id];
        } else {
          pending := pending[0 := first.(remaining := first.remaining - consumed)];
        }
        remaining := remaining - consumed;
        assert resolved + Consumed(pending, remaining).1 == old(resolved) + Consumed(old(pending), bytes).1;
      }
    }

    method RejectAll()
      modifies this`pending, this`rejected
      ensures Valid() && pending == [] && |rejected| == |old(rejected)| + |old(pending)| && old(rejected) <= rejected
      ensures forall i :: 0 <= i < |old(pending)| ==> rejected[|old(rejected)| + i] == old(pending)[i].id
    {
      var taken := pending;
      pending := [];
      for i := 0 to |taken|
        invariant |rejected| == |old(rejected)| + i && old(rejected) <= rejected && pending == []
        invariant forall k :: 0 <= k < i ==> rejected[|old(rejected)| + k] == taken[k].id
      {
        rejected := rejected + [taken[i].id];
      }
    }
  }

  // ----- laws -----

  function Bytes(pending: seq<Write>): nat { if pending == [] then 0 else pending[0].remaining + Bytes(pending[1..]) }

  /** The bytes ahead of the i-th write. */
  function Ahead(pending: seq<Write>, i: nat): nat
    requires i <= |pending|
  {
    if i == 0 then 0 else pending[0].remaining + Ahead(pending[1..], i - 1)
  }

  /** One report of `a + b` bytes does what a report of `a` and then one of `b` do. */
  lemma {:induction false} SplitReports(pending: seq<Write>, a: nat, b: nat)
    ensures var (left, first) := Consumed(pending, a);
            var (rest, second) := Consumed(left, b);
            Consumed(pending, a + b) == (rest, first + second)
    decreases |pending|
  {
    if a == 0 || pending == [] {
      assert [] + Consumed(pending, b).1 == Consumed(pending, b).1;
    } else if a < pending[0].remaining {
      var w := pending[0].(remaining := pending[0].remaining - a);
      var left := [w] + pending[1..];
      assert left[1..] == pending[1..] && [] + Consumed(left, b).1 == Consumed(left, b).1;
    } else {
      var after := a - pending[0].remaining;
      SplitReports(pending[1..], after, b);
      var (left, first) := Consumed(pending[1..], after);
      var second := Consumed(left, b).1;
      assert a + b - pending[0].remaining == after + b;
      assert [pending[0].id] + (first + second) == ([pending[0].id] + first) + second;
    }
  }

  /** Nothing is credited twice or carried over: what is pending is what was enqueued less what was consumed. */
  lemma {:induction false} BytesAreConserved(pending: seq<Write>, bytes: nat)
    ensures Bytes(Consumed(pending, bytes).0) == if bytes < Bytes(pending) then Bytes(pending) - bytes else 0
    decreases |pending|
  {
    if bytes > 0 && pending != [] {
      if bytes < pending[0].remaining {
        var w := pending[0].(remaining := pending[0].remaining - bytes);
        assert ([w] + pending[1..])[1..] == pending[1..];
      } else {
        BytesAreConserved(pending[1..], bytes - pending[0].remaining);
      }
    } else if bytes == 0 {
      assert Consumed(pending, bytes).0 == pending;
    }
  }

  /** Writes are resolved in the order they were enqueued, and those that are not stay in it. */
  lemma {:induction false} ResolvedFirstToLast(pending: seq<Write>, bytes: nat)
    ensures var (left, resolved) := Consumed(pending, bytes);
            && |left| + |resolved| == |pending|
            && (forall i :: 0 <= i < |resolved| ==> resolved[i] == pending[i].id)
            && (forall i :: 0 <= i < |left| ==> left[i].id == pending[|resolved| + i].id)
    decreases |pending|
  {
    if bytes > 0 && pending != [] && bytes >= pending[0].remaining {
      ResolvedFirstToLast(pending[1..], bytes - pending[0].remaining);
    }
  }

  /**
  The i-th write is resolved exactly when the report reaches its end and goes
  beyond what is ahead of it. The second half matters only for an empty write,
  which waits for a byte to be reported after those ahead of it.
   */
  lemma {:induction false} ResolvedExactly(pending: seq<Write>, bytes: nat, i: nat)
    requires i < |pending|
    ensures i < |Consumed(pending, bytes).1| <==>
            Ahead(pending, i) < bytes && Ahead(pending, i) + pending[i].remaining <= bytes
    decreases |pending|
  {
    if bytes > 0 && bytes >= pending[0].remaining {
      if i > 0 { ResolvedExactly(pending[1..], bytes - pending[0].remaining, i - 1); }
    }
  }

  // ----- runs -----

  datatype Event = Enqueues(bytes: nat) | Reports(bytes: nat) | Rejects(id: nat)

  datatype Ledger = Ledger(pending: seq<Write>, nextId: nat, resolved: seq<nat>)

  function After(l: Ledger, e: Event): Ledger {
    match e
    case Enqueues(bytes) => Ledger(l.pending + [Write(l.nextId, bytes)], l.nextId + 1, l.resolved)
    case Reports(bytes) =>
      var (left, resolved) := Consumed(l.pending, bytes);
      Ledger(left, l.nextId, l.resolved + resolved)
    case Rejects(id) => l.(pending := Without(l.pending, id))
  }

  function Run(events: seq<Event>, n: nat): Ledger
    requires n <= |events|
  {
    if n == 0 then Ledger([], 0, []) else After(Run(events, n - 1), events[n - 1])
  }

  /** The bytes enqueued, credited to writes, and withdrawn with rejected writes. */
  function Enqueued(events: seq<Event>, n: nat): nat
    requires n <= |events|
  {
    if n == 0 then 0 else Enqueued(events, n - 1) + if events[n - 1].Enqueues? then events[n - 1].bytes else 0
  }

  function Credit(l: Ledger, e: Event): nat { if e.Reports? then Min(e.bytes, Bytes(l.pending)) else 0 }

  function Credited(events: seq<Event>, n: nat): nat
    requires n <= |events|
  {
    if n == 0 then 0 else Credited(events, n - 1) + Credit(Run(events, n - 1), events[n - 1])
  }

  function Left(pending: seq<Write>, id: nat): nat {
    if pending == [] then 0 else if pending[0].id == id then pending[0].remaining else Left(pending[1..], id)
  }

  function Withdrawn(events: seq<Event>, n: nat): nat
    requires n <= |events|
  {
    if n == 0 then 0
    else
      Withdrawn(events, n - 1)
      + if events[n - 1].Rejects? then Left(Run(events, n - 1).pending, events[n - 1].id) else 0
  }

  lemma {:induction false} BytesOfAll(pending: seq<Write>, last: Write)
    ensures Bytes(pending + [last]) == Bytes(pending) + last.remaining
  {
    if pending == [] {
      assert ([] + [last])[1..] == [];
    } else {
      BytesOfAll(pending[1..], last);
      assert (pending + [last])[1..] == pending[1..] + [last];
    }
  }

  lemma {:induction false} BytesWithout(pending: seq<Write>, id: nat)
    ensures Bytes(Without(pending, id)) + Left(pending, id) == Bytes(pending)
  {
    if pending != [] && pending[0].id != id {
      BytesWithout(pending[1..], id);
      assert ([pending[0]] + Without(pending[1..], id))[1..] == Without(pending[1..], id);
    }
  }

  lemma EventConserves(l: Ledger, e: Event)
    ensures Bytes(After(l, e).pending) + Credit(l, e) + (if e.Rejects? then Left(l.pending, e.id) else 0)
            == Bytes(l.pending) + if e.Enqueues? then e.bytes else 0
  {
    match e
    case Enqueues(bytes) => BytesOfAll(l.pending, Write(l.nextId, bytes));
    case Reports(bytes) => BytesAreConserved(l.pending, bytes);
    case Rejects(id) => BytesWithout(l.pending, id);
  }

  /** Over any run, every byte enqueued is pending, was credited once, or was withdrawn with its write. */
  lemma {:induction false} RunConserves(events: seq<Event>, n: nat)
    requires n <= |events|
    ensures Enqueued(events, n) == Credited(events, n) + Bytes(Run(events, n).pending) + Withdrawn(events, n)
  {
    if n > 0 {
      RunConserves(events, n - 1);
      EventConserves(Run(events, n - 1), events[n - 1]);
    }
  }

  // ----- order -----

  /** The ids of the resolved writes and then of those pending. */
  function Ids(l: Ledger): seq<nat> {
    l.resolved + seq(|l.pending|, i requires 0 <= i < |l.pending| => l.pending[i].id)
  }

  ghost predicate Rising(ids: seq<nat>, limit: nat) {
    && (forall i, j :: 0 <= i < j < |ids| ==> ids[i] < ids[j])
    && (forall i :: 0 <= i < |ids| ==> ids[i] < limit)
  }

  lemma ReportKeepsIds(l: Ledger, bytes: nat)
    ensures Ids(After(l, Reports(bytes))) == Ids(l)
  {
    ResolvedFirstToLast(l.pending, bytes);
  }

  lemma EnqueueAddsId(l: Ledger, bytes: nat)
    ensures Ids(After(l, Enqueues(bytes))) == Ids(l) + [l.nextId]
  {
  }

  lemma {:induction false} WithoutFinds(pending: seq<Write>, id: nat) returns (i: nat)
    ensures i <= |pending| && (forall k :: 0 <= k < i ==> pending[k].id != id)
    ensures (i < |pending| ==> pending[i].id == id)
  {
    if pending == [] || pending[0].id == id {
      i := 0;
    } else {
      var k := WithoutFinds(pending[1..], id);
      i := k + 1;
      assert forall j :: 1 <= j < i ==> pending[j] == pending[1..][j - 1];
    }
  }

  lemma RemoveKeepsRising(ids: seq<nat>, limit: nat, k: nat)
    requires Rising(ids, limit) && k < |ids|
    ensures Rising(ids[..k] + ids[k + 1..], limit)
  {
    var rest := ids[..k] + ids[k + 1..];
    assert forall i :: 0 <= i < |rest| ==> rest[i] == ids[if i < k then i else i + 1];
  }

  lemma RejectRemovesId(l: Ledger, id: nat, i: nat)
    requires i < |l.pending| && Without(l.pending, id) == l.pending[..i] + l.pending[i + 1..]
    ensures Ids(After(l, Rejects(id))) == Ids(l)[..|l.resolved| + i] + Ids(l)[|l.resolved| + i + 1..]
  {
  }

  lemma RejectKeepsOrder(l: Ledger, id: nat)
    requires Rising(Ids(l), l.nextId)
    ensures Rising(Ids(After(l, Rejects(id))), l.nextId)
  {
    var i := WithoutFinds(l.pending, id);
    WithoutIs(l.pending, id, i);
    if i < |l.pending| {
      RejectRemovesId(l, id, i);
      RemoveKeepsRising(Ids(l), l.nextId, |l.resolved| + i);
    }
  }

  /** Over any run, resolved writes and then those pending stand in the order they were enqueued, none twice. */
  lemma {:induction false} RunKeepsOrder(events: seq<Event>, n: nat)
    requires n <= |events|
    ensures Rising(Ids(Run(events, n)), Run(events, n).nextId)
  {
    if n > 0 {
      RunKeepsOrder(events, n - 1);
      var l := Run(events, n - 1);
      match events[n - 1]
      case Enqueues(bytes) => EnqueueAddsId(l, bytes);
      case Reports(bytes) => ReportKeepsIds(l, bytes);
      case Rejects(id) => RejectKeepsOrder(l, id);
    }
  }

  function Upto(n: nat): seq<nat> { seq(n, i => i) }

  /** Without rejections they are all the writes there were. */
  lemma {:induction false} RunKeepsAll(events: seq<Event>, n: nat)
    requires n <= |events| && forall i :: 0 <= i < n ==> !events[i].Rejects?
    ensures Ids(Run(events, n)) == Upto(Run(events, n).nextId)
  {
    if n > 0 {
      RunKeepsAll(events, n - 1);
      var l := Run(events, n - 1);
      if events[n - 1].Enqueues? { EnqueueAddsId(l, events[n - 1].bytes); }
      else { ReportKeepsIds(l, events[n - 1].bytes); }
    }
  }

  // ----- which writes are resolved -----

  /** The sizes of the writes enqueued, in order. */
  function Sizes(events: seq<Event>, n: nat): seq<nat>
    requires n <= |events|
  {
    if n == 0 then [] else Sizes(events, n - 1) + if events[n - 1].Enqueues? then [events[n - 1].bytes] else []
  }

  function Sum(sizes: seq<nat>, k: nat): nat
    requires k <= |sizes|
  {
    if k == 0 then 0 else Sum(sizes, k - 1) + sizes[k - 1]
  }

  /** The pending writes are whole but for the first, whose missing bytes and the writes before it were credited. */
  ghost predicate Tracks(pending: seq<Write>, resolved: nat, sizes: seq<nat>, credited: nat) {
    && resolved + |pending| == |sizes|
    && (forall i :: 1 <= i < |pending| ==> pending[i].remaining == sizes[resolved + i])
    && (if pending == [] then credited == Sum(sizes, resolved)
        else 0 < pending[0].remaining <= sizes[resolved]
             && credited + pending[0].remaining == Sum(sizes, resolved) + sizes[resolved])
  }

  predicate AllPositive(sizes: seq<nat>) { forall i :: 0 <= i < |sizes| ==> sizes[i] > 0 }

  lemma {:induction false} SumOfFirst(sizes: seq<nat>, more: seq<nat>, k: nat)
    requires k <= |sizes|
    ensures Sum(sizes + more, k) == Sum(sizes, k)
  {
    if k > 0 { SumOfFirst(sizes, more, k - 1); }
  }

  lemma EnqueueTracks(pending: seq<Write>, resolved: nat, sizes: seq<nat>, credited: nat, w: Write)
    requires Tracks(pending, resolved, sizes, credited) && w.remaining > 0
    ensures Tracks(pending + [w], resolved, sizes + [w.remaining], credited)
  {
    SumOfFirst(sizes, [w.remaining], resolved);
  }

  lemma {:induction false} ReportTracks(pending: seq<Write>, resolved: nat, sizes: seq<nat>, credited: nat, bytes: nat)
    requires Tracks(pending, resolved, sizes, credited) && AllPositive(sizes)
    ensures var (left, ids) := Consumed(pending, bytes);
            Tracks(left, resolved + |ids|, sizes, credited + Min(bytes, Bytes(pending)))
    decreases |pending|
  {
    if bytes > 0 && pending != [] {
      var first := pending[0].remaining;
      if bytes < first {
        var left := [pending[0].(remaining := first - bytes)] + pending[1..];
        assert forall i :: 1 <= i < |left| ==> left[i] == pending[i];
      } else {
        NextTracks(pending, resolved, sizes, credited);
        ReportTracks(pending[1..], resolved + 1, sizes, credited + first, bytes - first);
      }
    }
  }

  /** After the first write is credited in full, the next is the first. */
  lemma NextTracks(pending: seq<Write>, resolved: nat, sizes: seq<nat>, credited: nat)
    requires Tracks(pending, resolved, sizes, credited) && AllPositive(sizes) && pending != []
    ensures Tracks(pending[1..], resolved + 1, sizes, credited + pending[0].remaining)
  {
  }

  lemma {:induction false} RunTracks(events: seq<Event>, n: nat)
    requires n <= |events| && forall i :: 0 <= i < n ==>
               !events[i].Rejects? && (events[i].Enqueues? ==> events[i].bytes > 0)
    ensures AllPositive(Sizes(events, n))
    ensures Tracks(Run(events, n).pending, |Run(events, n).resolved|, Sizes(events, n), Credited(events, n))
  {
    if n > 0 {
      RunTracks(events, n - 1);
      var l, e := Run(events, n - 1), events[n - 1];
      if e.Enqueues? {
        EnqueueTracks(l.pending, |l.resolved|, Sizes(events, n - 1), Credited(events, n - 1), Write(l.nextId, e.bytes));
      } else {
        ReportTracks(l.pending, |l.resolved|, Sizes(events, n - 1), Credited(events, n - 1), e.bytes);
        assert Sizes(events, n) == Sizes(events, n - 1);
      }
    }
  }

  lemma {:induction false} SumRises(sizes: seq<nat>, j: nat, k: nat)
    requires AllPositive(sizes) && j <= k <= |sizes|
    ensures Sum(sizes, j) <= Sum(sizes, k) && (j < k ==> Sum(sizes, j) < Sum(sizes, k))
    decreases k
  {
    if j < k { SumRises(sizes, j, k - 1); }
  }

  /**
  Over any run of non-empty writes without rejections, the k-th write is resolved
  exactly when the bytes credited reach the end of it.
   */
  lemma ResolvedOnCredit(events: seq<Event>, n: nat, k: nat)
    requires n <= |events| && forall i :: 0 <= i < n ==>
               !events[i].Rejects? && (events[i].Enqueues? ==> events[i].bytes > 0)
    requires k < |Sizes(events, n)|
    ensures k < |Run(events, n).resolved| <==> Sum(Sizes(events, n), k + 1) <= Credited(events, n)
  {
    RunTracks(events, n);
    var l, sizes := Run(events, n), Sizes(events, n);
    var r := |l.resolved|;
    if k < r { SumRises(sizes, k + 1, r); } else { SumRises(sizes, r + 1, k + 1); }
  }
}
