/** Which thread of a shared app-server connection a session follows. */
module ThreadScope {
  import opened Common

  const MAX_PENDING: nat := 8

  datatype Thread = Thread(name: string)
  datatype Id = Id(key: string)

  datatype Verb = Resume | Start | Fork | Started | OtherVerb

  /** A request of the client; `thread` is its `threadId`, if not empty. */
  datatype Request = Request(id: Option<Id>, verb: Option<Verb>, thread: Option<Thread>, ephemeral: bool)

  /**
  A message of the server. `named` is the thread a notification is about,
  `started` the one it says has started, `result` and `resumed` the one a
  response gives, read for a new thread and for a resumed one.
   */
  datatype Message = Message(id: Option<Id>, verb: Option<Verb>, named: Option<Thread>, started: Option<Thread>,
                             startedEphemeral: bool,
                             result: Option<Thread>, resultEphemeral: bool, resumed: Option<Thread>)

  datatype State = State(selected: Option<Thread>, newThreads: seq<Id>, resumes: seq<Id>)

  const INITIAL := State(None, [], [])

  /** Pushes to a bounded queue, dropping its oldest entry. */
  function Push(pending: seq<Id>, id: Id): seq<Id> {
    (if |pending| == MAX_PENDING then pending[1..] else pending) + [id]
  }

  /** Removes the first entry `id`. */
  function Take(pending: seq<Id>, id: Id): seq<Id> {
    if pending == [] then [] else if pending[0] == id then pending[1..] else [pending[0]] + Take(pending[1..], id)
  }

  lemma {:induction false} TakeNone(pending: seq<Id>, id: Id)
    requires forall k :: 0 <= k < |pending| ==> pending[k] != id
    ensures Take(pending, id) == pending
  {
    if pending != [] { TakeNone(pending[1..], id); }
  }

  lemma {:induction false} TakeAt(pending: seq<Id>, id: Id, i: nat)
    requires i < |pending| && pending[i] == id && forall k :: 0 <= k < i ==> pending[k] != id
    ensures Take(pending, id) == pending[..i] + pending[i + 1..]
  {
    if i > 0 {
      TakeAt(pending[1..], id, i - 1);
      assert pending[..i] + pending[i + 1..] == [pending[0]] + (pending[1..][..i - 1] + pending[1..][i..]);
    }
  }

  function AfterRequest(st: State, r: Request): State {
    var selected := if r.verb == Some(Resume) && r.thread.Some? then r.thread else st.selected;
    var opens := (r.verb == Some(Start) || r.verb == Some(Fork)) && !r.ephemeral && r.id.Some?;
    var resumes := r.verb == Some(Resume) && r.id.Some?;
    State(selected, if opens then Push(st.newThreads, r.id.value) else st.newThreads,
          if resumes then Push(st.resumes, r.id.value) else st.resumes)
  }

  /** `observe_upstream_response`. */
  function AfterResponse(st: State, m: Message): State {
    if m.id.None? || m.id.value !in st.newThreads then st
    else State(if m.resultEphemeral || m.result.None? then st.selected else m.result,
               Take(st.newThreads, m.id.value), st.resumes)
  }

  /** `admits_notification`. */
  function Admits(st: State, m: Message): (State, bool) {
    if m.verb.None? then (st, true)
    else if m.verb == Some(Started) && m.startedEphemeral then (st, false)
    else if m.named.None? || st.selected == m.named then (st, true)
    else if m.verb == Some(Started) && (st.selected.None? || st.newThreads != []) then (st.(selected := m.named), true)
    else (st, st.selected.None?)
  }

  /** The resumed thread, if the message answers a resume request. */
  function AfterResumed(st: State, m: Message): State {
    if m.id.None? || m.id.value !in st.resumes then st
    else st.(resumes := Take(st.resumes, m.id.value), selected := if m.resumed.Some? then m.resumed else st.selected)
  }

  function AfterStarted(st: State, m: Message): State {
    if m.verb == Some(Started) && m.started.Some? then st.(selected := m.started) else st
  }

  /** What a message of the server makes of the scope, and whether facts are drawn from it as a notification. */
  function AfterMessage(st: State, m: Message): (State, bool) {
    var (admitted, inScope) := Admits(AfterResponse(st, m), m);
    var resumed := AfterResumed(admitted, m);
    (if inScope then AfterStarted(resumed, m) else resumed, inScope)
  }

  class CodexThreadScope {
    var selected: Option<Thread>
    var newThreads: seq<Id>
    var resumes: seq<Id>

    function View(): State
      reads this
    {
      State(selected, newThreads, resumes)
    }

    constructor ()
      ensures View() == INITIAL
    {
      selected, newThreads, resumes := None, [], [];
    }

    method ObserveRequest(r: Request)
      modifies this
      ensures View() == AfterRequest(old(View()), r)
    {
      if r.verb == Some(Resume) {
        if r.thread.Some? { selected := r.thread; }
        if r.id.Some? {
          if |resumes| == MAX_PENDING { resumes := resumes[1..]; }
          resumes := resumes + [r.id.value];
        }
      } else if (r.verb == Some(Start) || r.verb == Some(Fork)) && !r.ephemeral && r.id.Some? {
        if |newThreads| == MAX_PENDING { newThreads := newThreads[1..]; }
        newThreads := newThreads + [r.id.value];
      }
    }

    static method TakeFirst(pending: seq<Id>, id: Id) returns (found: bool, rest: seq<Id>)
      ensures found == (id in pending) && rest == Take(pending, id)
    {
      var i := 0;
      while i < |pending| && pending[i] != id
        invariant 0 <= i <= |pending| && forall k :: 0 <= k < i ==> pending[k] != id
      {
        i := i + 1;
      }
      if i == |pending| {
        TakeNone(pending, id);
        return false, pending;
      }
      TakeAt(pending, id, i);
      return true, pending[..i] + pending[i + 1..];
    }

    method ObserveMessage(m: Message) returns (inScope: bool)
      modifies this
      ensures (View(), inScope) == AfterMessage(old(View()), m)
    {
      ObserveResponse(m);
      inScope := AdmitNotification(m);
      ObserveResumed(m);
      if inScope && m.verb == Some(Started) && m.started.Some? { selected := m.started; }
    }

    method ObserveResponse(m: Message)
      modifies this
      ensures View() == AfterResponse(old(View()), m)
    {
      if m.id.None? { return; }
      var found, rest := TakeFirst(newThreads, m.id.value);
      if !found { return; }
      newThreads := rest;
      if !m.resultEphemeral && m.result.Some? { selected := m.result; }
    }

    method AdmitNotification(m: Message) returns (inScope: bool)
      modifies this
      ensures (View(), inScope) == Admits(old(View()), m)
    {
      if m.verb.None? { return true; }
      if m.verb == Some(Started) && m.startedEphemeral { return false; }
      if m.named.None? || selected == m.named { return true; }
      if m.verb == Some(Started) && (selected.None? || newThreads != []) {
        selected := m.named;
        return true;
      }
      return selected.None?;
    }

    method ObserveResumed(m: Message)
      modifies this
      ensures View() == AfterResumed(old(View()), m)
    {
      if m.id.None? { return; }
      var found, rest := TakeFirst(resumes, m.id.value);
      if !found { return; }
      resumes := rest;
      if m.resumed.Some? { selected := m.resumed; }
    }
  }

  // ----- runs -----

  datatype Event = Sent(request: Request) | Received(message: Message)

  function After(st: State, e: Event): State {
    match e
    case Sent(r) => AfterRequest(st, r)
    case Received(m) => AfterMessage(st, m).0
  }

  /** The scope after the first `n` events. */
  function Run(events: seq<Event>, n: nat): State
    requires n <= |events|
  {
    if n == 0 then INITIAL else After(Run(events, n - 1), events[n - 1])
  }

  lemma {:induction false} TakeLength(pending: seq<Id>, id: Id)
    ensures |Take(pending, id)| <= |pending|
  {
    if pending != [] { TakeLength(pending[1..], id); }
  }

  lemma {:induction false} TakeShortens(pending: seq<Id>, id: Id)
    requires id in pending
    ensures |Take(pending, id)| == |pending| - 1
  {
    if pending[0] != id { TakeShortens(pending[1..], id); }
  }

  predicate Bounded(st: State) { |st.newThreads| <= MAX_PENDING && |st.resumes| <= MAX_PENDING }

  lemma PushIsBounded(pending: seq<Id>, id: Id)
    requires |pending| <= MAX_PENDING
    ensures |Push(pending, id)| <= MAX_PENDING
  {
  }

  lemma RequestIsBounded(st: State, r: Request)
    requires Bounded(st)
    ensures Bounded(AfterRequest(st, r))
  {
    if r.id.Some? {
      PushIsBounded(st.newThreads, r.id.value);
      PushIsBounded(st.resumes, r.id.value);
    }
  }

  lemma MessageIsBounded(st: State, m: Message)
    requires Bounded(st)
    ensures Bounded(AfterMessage(st, m).0)
  {
    if m.id.Some? {
      TakeLength(st.newThreads, m.id.value);
      TakeLength(st.resumes, m.id.value);
    }
  }

  /** No more than eight requests of either kind are ever remembered. */
  lemma {:induction false} PendingIsBounded(events: seq<Event>, n: nat)
    requires n <= |events|
    ensures Bounded(Run(events, n))
  {
    if n > 0 {
      PendingIsBounded(events, n - 1);
      match events[n - 1]
      case Sent(r) => RequestIsBounded(Run(events, n - 1), r);
      case Received(m) => MessageIsBounded(Run(events, n - 1), m);
    }
  }

  // ----- facts -----

  /** Facts of the notification belong to the session: it names no thread, the one followed, or none is followed yet. */
  predicate Belongs(st: State, m: Message) {
    m.verb.None? || m.named.None? || st.selected == m.named || st.selected.None?
  }

  /**
  A notification that says a thread started names that thread; any other is not at
  the same time the answer to a pending resume of another thread.
   */
  predicate SpeaksOfOne(st: State, m: Message) {
    m.verb.None? || m.named.None? ||
    (if m.verb == Some(Started) && m.started.Some? then m.started == m.named
     else m.id.Some? && m.id.value in st.resumes && m.resumed.Some? ==> m.resumed == m.named)
  }

  /**
  Facts drawn from a message belong to the thread followed when they are
  published, if and only if it speaks of one thread.
   */
  lemma FactsAreScoped(events: seq<Event>, n: nat)
    requires n < |events| && events[n].Received? && AfterMessage(Run(events, n), events[n].message).1
    ensures Belongs(Run(events, n + 1), events[n].message) <==> SpeaksOfOne(Run(events, n), events[n].message)
  {
    var st, m := Run(events, n), events[n].message;
    assert Run(events, n + 1) == AfterMessage(st, m).0;
    assert AfterResponse(st, m).resumes == st.resumes && Admits(AfterResponse(st, m), m).0.resumes == st.resumes;
  }

  /**
  JSON-RPC: a message with a method, a notification or a request of the server's,
  has no result; one that says a thread started names it.
   */
  predicate HasNoResult(m: Message) {
    m.verb.Some? ==>
      && m.result.None? && m.resumed.None?
      && (m.verb == Some(Started) && m.started.Some? ==> m.started == m.named)
  }

  /** So from a server that keeps to the protocol only facts of the followed thread are drawn. */
  lemma NotificationsAreScoped(events: seq<Event>, n: nat)
    requires n < |events| && events[n].Received? && AfterMessage(Run(events, n), events[n].message).1
    requires HasNoResult(events[n].message)
    ensures Belongs(Run(events, n + 1), events[n].message)
  {
    FactsAreScoped(events, n);
  }

  const ONE := Id("1")
  const ASKED := Thread("asked")
  const GIVEN := Thread("given")

  /** A message about one thread under the id of a pending resume that gives another. */
  const MIXED := [Sent(Request(Some(ONE), Some(Resume), None, false)),
                  Received(Message(Some(ONE), Some(OtherVerb), Some(ASKED), None, false,
                                   Some(GIVEN), false, Some(GIVEN)))]

  /** Facts of one thread are drawn while another is followed. */
  lemma MixedFacts()
    ensures AfterMessage(Run(MIXED, 1), MIXED[1].message).1 && !Belongs(Run(MIXED, 2), MIXED[1].message)
  {
    assert Run(MIXED, 0) == INITIAL;
    assert Run(MIXED, 1) == State(None, [], [ONE]);
    assert ASKED.name[0] != GIVEN.name[0];
  }

  // ----- which messages are in scope -----

  /** The thread followed when a message is judged: one it gives itself, in answer to a request, or that of before. */
  function FollowedThen(st: State, m: Message): Option<Thread> {
    if m.id.Some? && m.id.value in st.newThreads && !m.resultEphemeral && m.result.Some? then m.result
    else st.selected
  }

  /** Apart from one the message answers, a request for a new thread is pending. */
  predicate OpenThen(st: State, m: Message) {
    |st.newThreads| > if m.id.Some? && m.id.value in st.newThreads then 1 else 0
  }

  predicate IsStart(m: Message) { m.verb == Some(Started) && !m.startedEphemeral }

  predicate IsEphemeralStart(m: Message) { m.verb == Some(Started) && m.startedEphemeral }

  /** Facts are drawn from the n-th event, a message. */
  predicate InScope(events: seq<Event>, n: nat)
    requires n < |events| && events[n].Received?
  {
    AfterMessage(Run(events, n), events[n].message).1
  }

  lemma JudgedThen(st: State, m: Message)
    ensures AfterResponse(st, m).selected == FollowedThen(st, m)
    ensures AfterResponse(st, m).newThreads != [] <==> OpenThen(st, m)
  {
    if m.id.Some? && m.id.value in st.newThreads { TakeShortens(st.newThreads, m.id.value); }
  }

  /** What has no method, names no thread or names the followed one is in scope, unless an ephemeral thread starts. */
  lemma OwnIsInScope(events: seq<Event>, n: nat)
    requires n < |events| && events[n].Received? && !IsEphemeralStart(events[n].message)
    requires var m := events[n].message;
             m.verb.None? || m.named.None? || m.named == FollowedThen(Run(events, n), m)
    ensures InScope(events, n)
  {
    JudgedThen(Run(events, n), events[n].message);
  }

  /** While none is followed everything is in scope, but the start of an ephemeral thread. */
  lemma FirstIsInScope(events: seq<Event>, n: nat)
    requires n < |events| && events[n].Received? && FollowedThen(Run(events, n), events[n].message).None?
    ensures InScope(events, n) <==> !IsEphemeralStart(events[n].message)
  {
    JudgedThen(Run(events, n), events[n].message);
  }

  /**
  While one thread is followed, a message with a method that names another is in
  scope exactly if it starts a lasting thread and a request for one is pending;
  without a result of its own it makes the session follow that thread.
   */
  lemma OtherIsInScopeExactly(events: seq<Event>, n: nat)
    requires n < |events| && events[n].Received?
    requires var m := events[n].message;
             && m.verb.Some? && m.named.Some?
             && FollowedThen(Run(events, n), m).Some? && FollowedThen(Run(events, n), m) != m.named
    ensures var m := events[n].message;
            && (InScope(events, n) <==> IsStart(m) && OpenThen(Run(events, n), m))
            && (InScope(events, n) && HasNoResult(m) ==> Run(events, n + 1).selected == m.named)
  {
    var st, m := Run(events, n), events[n].message;
    JudgedThen(st, m);
    assert Run(events, n + 1) == AfterMessage(st, m).0;
  }

  lemma EphemeralStartIsOutOfScope(events: seq<Event>, n: nat)
    requires n < |events| && events[n].Received? && IsEphemeralStart(events[n].message)
    ensures !InScope(events, n)
  {
  }

  /** The start of a thread that the session comes to follow, because none is followed or one was asked for. */
  predicate Leads(st: State, m: Message) {
    IsStart(m) && m.named.Some? && (FollowedThen(st, m).None? || OpenThen(st, m))
  }

  /** A resume makes the session follow its thread at once; no other request changes what is followed. */
  lemma RequestFollows(events: seq<Event>, n: nat)
    requires n < |events| && events[n].Sent?
    ensures var r := events[n].request;
            Run(events, n + 1).selected
            == if r.verb == Some(Resume) && r.thread.Some? then r.thread else Run(events, n).selected
  {
    assert Run(events, n + 1) == AfterRequest(Run(events, n), events[n].request);
  }

  /** Which thread is followed after a message: the last of what it says, in this order. */
  lemma FollowedExactly(events: seq<Event>, n: nat)
    requires n < |events| && events[n].Received?
    ensures var st, m := Run(events, n), events[n].message;
            Run(events, n + 1).selected
            == if InScope(events, n) && IsStart(m) && m.started.Some? then m.started
               else if m.id.Some? && m.id.value in st.resumes && m.resumed.Some? then m.resumed
               else if Leads(st, m) then m.named
               else FollowedThen(st, m)
  {
    var st, m := Run(events, n), events[n].message;
    JudgedThen(st, m);
    assert Run(events, n + 1) == AfterMessage(st, m).0;
    assert Admits(AfterResponse(st, m), m).0.resumes == st.resumes;
  }

  /** The event gives ground for following the thread: the client asked for it, or the server reported it as lasting. */
  predicate Grounds(st: State, e: Event, thread: Thread) {
    match e
    case Sent(r) => r.verb == Some(Resume) && r.thread == Some(thread)
    case Received(m) =>
      || (m.id.Some? && m.id.value in st.newThreads && !m.resultEphemeral && m.result == Some(thread))
      || (m.id.Some? && m.id.value in st.resumes && m.resumed == Some(thread))
      || (m.verb == Some(Started) && !m.startedEphemeral && (m.named == Some(thread) || m.started == Some(thread)))
  }

  lemma SelectionChanges(st: State, e: Event)
    ensures After(st, e).selected == st.selected
            || (After(st, e).selected.Some? && Grounds(st, e, After(st, e).selected.value))
  {
  }

  /** A thread is followed only on such grounds, given at some moment before. */
  lemma {:induction false} SelectedOnGrounds(events: seq<Event>, n: nat) returns (k: nat)
    requires n <= |events| && Run(events, n).selected.Some?
    ensures k < n && Grounds(Run(events, k), events[k], Run(events, n).selected.value)
  {
    SelectionChanges(Run(events, n - 1), events[n - 1]);
    if Run(events, n).selected == Run(events, n - 1).selected {
      k := SelectedOnGrounds(events, n - 1);
    } else {
      k := n - 1;
    }
  }

  /** The server reports the thread in this event, and not as ephemeral. */
  predicate ReportsLasting(e: Event, thread: Thread) {
    e.Received? &&
    ((e.message.result == Some(thread) && !e.message.resultEphemeral)
     || (e.message.verb == Some(Started) && !e.message.startedEphemeral
         && (e.message.named == Some(thread) || e.message.started == Some(thread))))
  }

  /** The event is a resume of the thread, or the answer to one. */
  predicate Resumes(st: State, e: Event, thread: Thread) {
    match e
    case Sent(r) => r.verb == Some(Resume) && r.thread == Some(thread)
    case Received(m) => m.id.Some? && m.id.value in st.resumes && m.resumed == Some(thread)
  }

  /** A thread only ever reported as ephemeral is not followed, unless the client resumes it. */
  lemma EphemeralIsNeverSelected(events: seq<Event>, n: nat, thread: Thread)
    requires n <= |events|
    requires forall k :: 0 <= k < n ==> !ReportsLasting(events[k], thread)
    requires forall k :: 0 <= k < n ==> !Resumes(Run(events, k), events[k], thread)
    ensures Run(events, n).selected != Some(thread)
  {
    if Run(events, n).selected == Some(thread) {
      var _ := SelectedOnGrounds(events, n);
    }
  }

  // ----- matching -----

  /** Which queue a request waits in. */
  datatype Kind = NewThread | Resumption

  function Pending(st: State, kind: Kind): seq<Id> { if kind.NewThread? then st.newThreads else st.resumes }

  /** The event is a request under `id` that is remembered in the queue. */
  predicate Asks(e: Event, kind: Kind, id: Id) {
    e.Sent? && e.request.id == Some(id) &&
    if kind.Resumption? then e.request.verb == Some(Resume)
    else (e.request.verb == Some(Start) || e.request.verb == Some(Fork)) && !e.request.ephemeral
  }

  /** The event is a response matched to such a request. */
  predicate Matches(st: State, e: Event, kind: Kind, id: Id) {
    e.Received? && e.message.id == Some(id) && id in Pending(st, kind)
  }

  function Asked(events: seq<Event>, n: nat, kind: Kind, id: Id): nat
    requires n <= |events|
  {
    if n == 0 then 0 else Asked(events, n - 1, kind, id) + if Asks(events[n - 1], kind, id) then 1 else 0
  }

  function Matched(events: seq<Event>, n: nat, kind: Kind, id: Id): nat
    requires n <= |events|
  {
    if n == 0 then 0
    else Matched(events, n - 1, kind, id) + if Matches(Run(events, n - 1), events[n - 1], kind, id) then 1 else 0
  }

  function Copies(pending: seq<Id>, id: Id): nat {
    if pending == [] then 0 else Copies(pending[1..], id) + if pending[0] == id then 1 else 0
  }

  function Waiting(st: State, kind: Kind, id: Id): nat { Copies(Pending(st, kind), id) }

  lemma {:induction false} CopiesOfAll(pending: seq<Id>, last: Id, id: Id)
    ensures Copies(pending + [last], id) == Copies(pending, id) + if last == id then 1 else 0
  {
    if pending == [] {
      assert ([] + [last])[1..] == [];
    } else {
      CopiesOfAll(pending[1..], last, id);
      assert (pending + [last])[1..] == pending[1..] + [last];
    }
  }

  lemma {:induction false} CopiesAre(pending: seq<Id>, id: Id)
    ensures Copies(pending, id) > 0 <==> id in pending
  {
    if pending != [] { CopiesAre(pending[1..], id); }
  }

  lemma {:induction false} TakeCounts(pending: seq<Id>, id: Id, other: Id)
    requires id in pending
    ensures Copies(Take(pending, id), other) + (if other == id then 1 else 0) == Copies(pending, other)
  {
    if pending[0] != id {
      TakeCounts(pending[1..], id, other);
      var rest := Take(pending[1..], id);
      assert ([pending[0]] + rest)[1..] == rest;
    }
  }

  lemma PushCounts(pending: seq<Id>, id: Id, other: Id)
    ensures Copies(Push(pending, id), other) <= Copies(pending, other) + if other == id then 1 else 0
  {
    CopiesOfAll(if |pending| == MAX_PENDING then pending[1..] else pending, id, other);
  }

  lemma RequestCounts(st: State, r: Request, kind: Kind, id: Id)
    ensures Waiting(AfterRequest(st, r), kind, id) <= Waiting(st, kind, id) + if Asks(Sent(r), kind, id) then 1 else 0
  {
    if r.id.Some? { PushCounts(Pending(st, kind), r.id.value, id); }
  }

  /** A message takes its id out of either queue. */
  lemma MessageTakes(st: State, m: Message, kind: Kind)
    ensures Pending(AfterMessage(st, m).0, kind)
            == if m.id.None? || m.id.value !in Pending(st, kind) then Pending(st, kind)
               else Take(Pending(st, kind), m.id.value)
  {
    var answered := AfterResponse(st, m);
    var admitted := Admits(answered, m).0;
    assert admitted.resumes == answered.resumes == st.resumes && admitted.newThreads == answered.newThreads;
  }

  lemma MessageCounts(st: State, m: Message, kind: Kind, id: Id)
    ensures Waiting(AfterMessage(st, m).0, kind, id) + (if Matches(st, Received(m), kind, id) then 1
            else 0) <= Waiting(st, kind, id)
  {
    MessageTakes(st, m, kind);
    if m.id.Some? && m.id.value in Pending(st, kind) { TakeCounts(Pending(st, kind), m.id.value, id); }
  }

  lemma EventCounts(st: State, e: Event, kind: Kind, id: Id)
    ensures Waiting(After(st, e), kind, id) + (if Matches(st, e, kind, id) then 1 else 0)
            <= Waiting(st, kind, id) + if Asks(e, kind, id) then 1 else 0
  {
    match e
    case Sent(r) => RequestCounts(st, r, kind, id);
    case Received(m) => MessageCounts(st, m, kind, id);
  }

  /** Each request of either kind is matched at most once: those still waiting were not matched. */
  lemma {:induction false} MatchesAreBounded(events: seq<Event>, n: nat, kind: Kind, id: Id)
    requires n <= |events|
    ensures Matched(events, n, kind, id) + Waiting(Run(events, n), kind, id) <= Asked(events, n, kind, id)
  {
    if n > 0 {
      MatchesAreBounded(events, n - 1, kind, id);
      EventCounts(Run(events, n - 1), events[n - 1], kind, id);
    }
  }

  /** What waits was asked for. */
  lemma {:induction false} WaitingWasAsked(events: seq<Event>, n: nat, kind: Kind, id: Id) returns (k: nat)
    requires n <= |events| && id in Pending(Run(events, n), kind)
    ensures k < n && Asks(events[k], kind, id)
  {
    assert n > 0;
    var st := Run(events, n - 1);
    if Asks(events[n - 1], kind, id) {
      k := n - 1;
    } else {
      EventCounts(st, events[n - 1], kind, id);
      CopiesAre(Pending(Run(events, n), kind), id);
      CopiesAre(Pending(st, kind), id);
      k := WaitingWasAsked(events, n - 1, kind, id);
    }
  }

  // ----- how long a request is remembered -----

  /** How many requests of the kind were sent from `m` to `n`. */
  function AskedBetween(events: seq<Event>, m: nat, n: nat, kind: Kind): nat
    requires m <= n <= |events|
  {
    if m == n then 0
    else AskedBetween(events, m, n - 1, kind) + if AsksAny(events[n - 1], kind) then 1 else 0
  }

  predicate AsksAny(e: Event, kind: Kind) { e.Sent? && e.request.id.Some? && Asks(e, kind, e.request.id.value) }

  /** The id stands in the queue with at most `later` entries behind it. */
  predicate StandsAt(pending: seq<Id>, id: Id, later: nat) {
    exists p :: 0 <= p < |pending| && pending[p] == id && |pending| - 1 - p <= later
  }

  lemma PushStands(pending: seq<Id>, id: Id, later: nat, last: Id)
    requires StandsAt(pending, id, later) && later < MAX_PENDING - 1 && |pending| <= MAX_PENDING
    ensures StandsAt(Push(pending, last), id, later + 1)
  {
    var p :| 0 <= p < |pending| && pending[p] == id && |pending| - 1 - p <= later;
    var q := if |pending| == MAX_PENDING then p - 1 else p;
    assert Push(pending, last)[q] == id;
  }

  lemma {:induction false} TakeKeepsOther(pending: seq<Id>, other: Id, p: nat) returns (q: nat)
    requires p < |pending| && pending[p] != other
    ensures q < |Take(pending, other)| && Take(pending, other)[q] == pending[p]
    ensures |Take(pending, other)| - q <= |pending| - p
  {
    if pending[0] == other {
      q := p - 1;
    } else if p == 0 {
      q := 0;
      TakeLength(pending[1..], other);
    } else {
      var r := TakeKeepsOther(pending[1..], other, p - 1);
      q := r + 1;
    }
  }

  lemma TakeStands(pending: seq<Id>, id: Id, later: nat, other: Id)
    requires StandsAt(pending, id, later) && other != id
    ensures StandsAt(Take(pending, other), id, later)
  {
    var p :| 0 <= p < |pending| && pending[p] == id && |pending| - 1 - p <= later;
    var q := TakeKeepsOther(pending, other, p);
  }

  lemma EventStands(st: State, e: Event, kind: Kind, id: Id, later: nat)
    requires Bounded(st) && StandsAt(Pending(st, kind), id, later)
    requires e.Received? ==> e.message.id != Some(id)
    requires AsksAny(e, kind) ==> later < MAX_PENDING - 1
    ensures StandsAt(Pending(After(st, e), kind), id, later + if AsksAny(e, kind) then 1 else 0)
  {
    match e
    case Sent(r) => if AsksAny(e, kind) { PushStands(Pending(st, kind), id, later, r.id.value); }
    case Received(m) =>
      MessageTakes(st, m, kind);
      if m.id.Some? && m.id.value in Pending(st, kind) { TakeStands(Pending(st, kind), id, later, m.id.value); }
  }

  lemma AskedStands(st: State, e: Event, kind: Kind, id: Id)
    requires Bounded(st) && Asks(e, kind, id)
    ensures StandsAt(Pending(After(st, e), kind), id, 0)
  {
    var after := Pending(After(st, e), kind);
    assert after == Push(Pending(st, kind), id) && after[|after| - 1] == id;
  }

  /** A request is remembered until a message comes under its id, or eight more of its kind were sent. */
  lemma {:induction false} AskedIsRemembered(events: seq<Event>, k: nat, n: nat, kind: Kind, id: Id)
    requires k < n <= |events| && Asks(events[k], kind, id) && AskedBetween(events, k + 1, n, kind) < 8
    requires forall i :: k < i < n && events[i].Received? ==> events[i].message.id != Some(id)
    ensures StandsAt(Pending(Run(events, n), kind), id, AskedBetween(events, k + 1, n, kind))
    ensures id in Pending(Run(events, n), kind)
  {
    PendingIsBounded(events, n - 1);
    if n == k + 1 {
      AskedStands(Run(events, k), events[k], kind, id);
    } else {
      AskedIsRemembered(events, k, n - 1, kind, id);
      EventStands(Run(events, n - 1), events[n - 1], kind, id, AskedBetween(events, k + 1, n - 1, kind));
    }
  }

  /** The message shortens both queues. */
  predicate MatchedTwice(st: State, m: Message) {
    |AfterMessage(st, m).0.newThreads| < |st.newThreads| && |AfterMessage(st, m).0.resumes| < |st.resumes|
  }

  /** A response is matched to two requests if and only if its id waits in both queues. */
  lemma MatchedTwiceExactly(st: State, m: Message)
    ensures MatchedTwice(st, m) <==> m.id.Some? && m.id.value in st.newThreads && m.id.value in st.resumes
  {
    MessageTakes(st, m, NewThread);
    MessageTakes(st, m, Resumption);
    if m.id.Some? && m.id.value in st.newThreads { TakeShortens(st.newThreads, m.id.value); }
    if m.id.Some? && m.id.value in st.resumes { TakeShortens(st.resumes, m.id.value); }
  }

  /** A message takes a request out of a queue if and only if its id waits there, whether or not it is a response. */
  lemma MatchedExactly(st: State, m: Message, kind: Kind)
    ensures |Pending(AfterMessage(st, m).0, kind)| < |Pending(st, kind)|
            <==> m.id.Some? && m.id.value in Pending(st, kind)
  {
    MessageTakes(st, m, kind);
    if m.id.Some? && m.id.value in Pending(st, kind) { TakeShortens(Pending(st, kind), m.id.value); }
  }

  /** A start, a request of the server's under the same id, and the response to the start. */
  const CROSSED := [Sent(Request(Some(ONE), Some(Start), None, false)),
                    Received(Message(Some(ONE), Some(OtherVerb), None, None, false, None, false, None)),
                    Received(Message(Some(ONE), None, None, None, false, Some(GIVEN), false, Some(GIVEN)))]

  /** The server's request takes the start out of the queue, and the started thread is not followed. */
  lemma CrossedIdLosesResponse()
    ensures HasNoResult(CROSSED[1].message) && ONE in Run(CROSSED, 1).newThreads && Run(CROSSED, 2).newThreads == []
    ensures Run(CROSSED, 3).selected == None
    ensures After(Run(CROSSED, 1), CROSSED[2]).selected == Some(GIVEN)
  {
    assert Run(CROSSED, 0) == INITIAL;
    assert Run(CROSSED, 1) == State(None, [ONE], []);
    assert Run(CROSSED, 2) == INITIAL;
  }

  predicate IsCall(e: Event) { e.Received? && e.message.verb.Some? }

  /** No message with a method has the id of a request the client sent before. */
  predicate OwnIds(events: seq<Event>, n: nat)
    requires n <= |events|
  {
    forall i, j :: 0 <= i < j < n && events[i].Sent? && IsCall(events[j]) && events[i].request.id.Some? ==>
      events[j].message.id != events[i].request.id
  }

  /** Then only responses are matched to requests. */
  lemma OnlyResponsesMatch(events: seq<Event>, n: nat, kind: Kind, id: Id)
    requires n < |events| && OwnIds(events, n + 1) && Matches(Run(events, n), events[n], kind, id)
    ensures events[n].message.verb.None?
  {
    var k := WaitingWasAsked(events, n, kind, id);
    assert events[k].request.id == events[n].message.id;
  }

  /** A start and a resume under one id, and one response. */
  const REUSED := [Sent(Request(Some(ONE), Some(Start), None, false)),
                   Sent(Request(Some(ONE), Some(Resume), None, false)),
                   Received(Message(Some(ONE), None, None, None, false, Some(GIVEN), false, Some(GIVEN)))]

  lemma ReusedIdMatchesTwice()
    ensures MatchedTwice(Run(REUSED, 2), REUSED[2].message)
  {
    assert Run(REUSED, 0) == INITIAL;
    assert Run(REUSED, 1) == State(None, [ONE], []);
    assert Run(REUSED, 2) == State(None, [ONE], [ONE]);
    MatchedTwiceExactly(Run(REUSED, 2), REUSED[2].message);
  }

  /** No two of the client's requests have the same id. */
  predicate DistinctIds(events: seq<Event>, n: nat)
    requires n <= |events|
  {
    forall i, j :: 0 <= i < j < n && events[i].Sent? && events[j].Sent? && events[i].request.id.Some? ==>
      events[i].request.id != events[j].request.id
  }

  lemma DistinctIdsWaitOnce(events: seq<Event>, n: nat, id: Id)
    requires n <= |events| && DistinctIds(events, n) && id in Run(events, n).newThreads
    ensures id !in Run(events, n).resumes
  {
    if id in Run(events, n).resumes {
      var i := WaitingWasAsked(events, n, NewThread, id);
      var j := WaitingWasAsked(events, n, Resumption, id);
    }
  }

  /** With distinct ids no response is ever matched to two requests. */
  lemma DistinctIdsMatchOnce(events: seq<Event>, n: nat)
    requires n < |events| && DistinctIds(events, n) && events[n].Received?
    ensures !MatchedTwice(Run(events, n), events[n].message)
  {
    var st, m := Run(events, n), events[n].message;
    MatchedTwiceExactly(st, m);
    if m.id.Some? && m.id.value in st.newThreads { DistinctIdsWaitOnce(events, n, m.id.value); }
  }
}
