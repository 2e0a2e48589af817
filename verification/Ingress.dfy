/** Admission of provider hooks: a bounded number a session in every window. */
module Ingress {
  import opened Common
  import opened DeliveryRecord

  const WINDOW: nat := 1_000
  const MAX_EVENTS: nat := 256
  const MAX_TRACKED: nat := 1_024

  datatype Window = Window(started: nat, lastSeen: nat, events: nat)

  /** What `admit` makes of a session's window, and whether it admits. */
  function Admitted(w: Option<Window>, at: nat): (Window, bool) {
    if w.None? || at < w.value.started || at - w.value.started >= WINDOW then (Window(at, at, 1), true)
    else if w.value.events >= MAX_EVENTS then (w.value.(lastSeen := at), false)
    else (w.value.(lastSeen := at, events := w.value.events + 1), true)
  }

  function WindowOf(windows: map<SessionId, Window>, sid: SessionId): Option<Window> {
    if sid in windows then Some(windows[sid]) else None
  }

  /** Nothing is forgotten while there is room; a full table forgets one session, seen least recently. */
  ghost predicate Thinned(before: map<SessionId, Window>, after: map<SessionId, Window>) {
    if |before| < 1_024 then after == before
    else exists gone :: gone in before && after == before - {gone}
                        && forall other :: other in before ==> before[gone].lastSeen <= before[other].lastSeen
  }

  class ProviderObservationIngress {
    var windows: map<SessionId, Window>

    ghost predicate Valid()
      reads this
    {
      |windows| <= MAX_TRACKED && forall sid :: sid in windows ==> 1 <= windows[sid].events <= MAX_EVENTS
    }

    constructor ()
      ensures Valid() && windows == map[]
    {
      windows := map[];
    }

    /** A session seen least recently. */
    method Oldest() returns (sid: SessionId)
      requires windows != map[]
      ensures sid in windows && forall other :: other in windows ==> windows[sid].lastSeen <= windows[other].lastSeen
    {
      sid :| sid in windows;
      var left := windows.Keys - {sid};
      while left != {}
        invariant left <= windows.Keys && sid in windows
        invariant forall other :: other in windows && other !in left ==>
                    windows[sid].lastSeen <= windows[other].lastSeen
        decreases |left|
      {
        var next :| next in left;
        if windows[next].lastSeen < windows[sid].lastSeen { sid := next; }
        left := left - {next};
      }
    }

    method MakeRoom()
      requires Valid()
      modifies this
      ensures Valid() && |windows| < MAX_TRACKED && Thinned(old(windows), windows)
    {
      if |windows| >= MAX_TRACKED {
        var oldest := Oldest();
        assert (windows - {oldest}).Keys == windows.Keys - {oldest};
        windows := windows - {oldest};
      }
    }

    method Write(sid: SessionId, w: Window)
      requires Valid() && sid in windows && 1 <= w.events <= MAX_EVENTS
      modifies this
      ensures Valid() && windows == old(windows)[sid := w]
    {
      assert windows[sid := w].Keys == windows.Keys;
      windows := windows[sid := w];
    }

    /** A window for a session that has none; a full table forgets the least recently seen one. */
    method Track(sid: SessionId, w: Window)
      requires Valid() && sid !in windows && 1 <= w.events <= MAX_EVENTS
      modifies this
      ensures Valid() && sid in windows && windows[sid] == w && Thinned(old(windows), windows - {sid})
    {
      MakeRoom();
      ghost var kept := windows;
      assert windows[sid := w].Keys == windows.Keys + {sid};
      windows := windows[sid := w];
      assert windows - {sid} == kept;
    }

    /** Only the session's own window changes; for a new session the least recently seen one may be forgotten. */
    method Admit(sid: SessionId, at: nat) returns (admitted: bool)
      requires Valid()
      modifies this
      ensures Valid() && sid in windows
      ensures (windows[sid], admitted) == Admitted(WindowOf(old(windows), sid), at)
      ensures if sid in old(windows) then windows == old(windows)[sid := windows[sid]]
              else Thinned(old(windows), windows - {sid})
    {
      if sid !in windows {
        Track(sid, Window(at, at, 1));
        return true;
      }
      var w := windows[sid];
      if at < w.started || at - w.started >= WINDOW {
        Write(sid, Window(at, at, 1));
        return true;
      }
      w := w.(lastSeen := at);
      if w.events >= MAX_EVENTS {
        Write(sid, w);
        return false;
      }
      Write(sid, w.(events := w.events + 1));
      admitted := true;
    }
  }

  // ----- the rate -----

  /** The window after a session's hooks at `ats`, while it stays tracked. */
  function After(ats: seq<nat>): Option<Window> {
    if ats == [] then None
    else Some(Admitted(After(ats[..|ats| - 1]), ats[|ats| - 1]).0)
  }

  /** How many of them were admitted between `lo` and `lo + WINDOW`. */
  function Within(ats: seq<nat>, lo: nat): nat {
    if ats == [] then 0
    else
      var at := ats[|ats| - 1];
      Within(ats[..|ats| - 1], lo)
      + (if lo <= at < lo + WINDOW && Admitted(After(ats[..|ats| - 1]), at).1 then 1 else 0)
  }

  /** The hook that opened the window of the i-th: one that came 1000 ms after the last such, or before it. */
  function Opening(ats: seq<nat>, i: nat): (o: nat)
    requires i < |ats|
    ensures o <= i
  {
    if i == 0 then 0
    else
      var o := Opening(ats, i - 1);
      if ats[i] < ats[o] || ats[i] >= ats[o] + 1_000 then i else o
  }

  lemma {:induction false} WindowAt(ats: seq<nat>, i: nat)
    requires i < |ats|
    ensures var o := Opening(ats, i);
            After(ats[..i + 1]) == Some(Window(ats[o], ats[i], Min(i - o + 1, 256)))
  {
    assert ats[..i + 1][..i] == ats[..i];
    if i > 0 { WindowAt(ats, i - 1); }
  }

  /** In every run exactly the first 256 hooks of a window are admitted. */
  lemma {:induction false} AdmittedExactly(ats: seq<nat>, i: nat)
    requires i < |ats|
    ensures Admitted(After(ats[..i]), ats[i]).1 <==> i < Opening(ats, i) + 256
  {
    if i > 0 { WindowAt(ats, i - 1); }
  }

  ghost predicate Monotone(ats: seq<nat>) { forall i, j :: 0 <= i < j < |ats| ==> ats[i] <= ats[j] }

  /** How the count stands, seen from the current window. */
  ghost predicate Tally(w: Window, at: nat, n: nat, lo: nat) {
    && w.started <= at < w.started + WINDOW && 1 <= w.events <= MAX_EVENTS
    && (at < lo ==> n == 0)
    && (if w.started <= lo then n <= w.events
        else if w.started < lo + WINDOW then n <= MAX_EVENTS + w.events
        else n <= 2 * MAX_EVENTS)
  }

  lemma {:induction false} TallyHolds(ats: seq<nat>, lo: nat)
    requires Monotone(ats) && ats != []
    ensures Tally(After(ats).value, ats[|ats| - 1], Within(ats, lo), lo)
  {
    var before := ats[..|ats| - 1];
    if before != [] {
      TallyHolds(before, lo);
      assert before[|before| - 1] <= ats[|ats| - 1];
    }
  }

  /** With a clock that does not go back, no interval of one window's length admits more than twice the limit. */
  lemma RateIsBounded(ats: seq<nat>, lo: nat)
    requires Monotone(ats)
    ensures Within(ats, lo) <= 2 * MAX_EVENTS
  {
    if ats != [] { TallyHolds(ats, lo); }
  }
}
