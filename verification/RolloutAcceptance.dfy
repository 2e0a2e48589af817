/** Which rollouts are repaired, and which are refused. */
module RolloutAcceptance {
  import opened Common
  import opened Decimal
  import opened OrdinalKey
  import opened Rollout
  import opened RolloutRepair
  import opened RolloutFile

  function Lines(f: File): seq<Bytes> { if f.Nil? then [] else [f.line] + Lines(f.rest) }

  /** The ordinal a line reads as, if it has one. */
  function OrdinalOf(parse: Parser, line: Bytes): nat {
    if parse(line).Some? && parse(line).value.ordinal.Some? then parse(line).value.ordinal.value else 0
  }

  /** A line that can stand in a rollout: it reads as a record with an ordinal, and hides no other. */
  predicate IsRecord(parse: Parser, line: Bytes) {
    && line != [] && line[|line| - 1] != 13
    && parse(line).Some? && parse(line).value.ordinal.Some? && !parse(line).value.nested
    && parse(line).value.ordinal.value <= 0xFFFF_FFFF_FFFF_FFFF
  }

  /** The ordinal is that of the line before, which only settings records may repeat, or one more. */
  predicate Succeeds(parse: Parser, before: Bytes, line: Bytes)
    requires IsRecord(parse, line)
  {
    || OrdinalOf(parse, line) == OrdinalOf(parse, before) + 1
    || (OrdinalOf(parse, line) == OrdinalOf(parse, before) && parse(line).value.settings)
  }

  /** How many of the first `n` lines repeat the ordinal of the line before. */
  function Repeats(parse: Parser, lines: seq<Bytes>, n: nat): nat
    requires n <= |lines|
  {
    if n <= 1 then 0
    else
      Repeats(parse, lines, n - 1)
      + if OrdinalOf(parse, lines[n - 1]) == OrdinalOf(parse, lines[n - 2]) then 1 else 0
  }

  ghost predicate InSight(parse: Parser, line: Bytes) { exists s, e :: IsOrdinal(line, OrdinalOf(parse, line), s, e) }

  /** The i-th line is one the repair can pass: it can be numbered, and is so already or shows its digits. */
  ghost predicate Passes(parse: Parser, lines: seq<Bytes>, i: nat)
    requires i < |lines|
  {
    && i < 1_000_000 && IsRecord(parse, lines[i])
    && (if i == 0 then parse(lines[i]).value.session else Succeeds(parse, lines[i - 1], lines[i]))
    && OrdinalOf(parse, lines[0]) + i <= 0xFFFF_FFFF_FFFF_FFFF
    && (OrdinalOf(parse, lines[i]) == OrdinalOf(parse, lines[0]) + i || InSight(parse, lines[i]))
  }

  /** The damage the repair knows, read off the lines. */
  ghost predicate Recognised(parse: Parser, lines: seq<Bytes>) {
    && (forall i :: 0 <= i < |lines| ==> Passes(parse, lines, i))
    && 1 <= Repeats(parse, lines, |lines|) <= 64
  }

  // ----- line by line -----

  lemma {:induction false} RepeatsGrow(parse: Parser, lines: seq<Bytes>, m: nat, n: nat)
    requires m <= n <= |lines|
    ensures Repeats(parse, lines, m) <= Repeats(parse, lines, n)
  {
    if m < n { RepeatsGrow(parse, lines, m, n - 1); }
  }

  /** The state after the first `k` lines, the damaged ones counted. */
  ghost predicate Reached(parse: Parser, lines: seq<Bytes>, k: nat, st: State)
    requires k <= |lines|
  {
    && st.index == k && StateOk(st) && st.duplicates == Repeats(parse, lines, k)
    && (k > 0 ==> st.previous == Some(OrdinalOf(parse, lines[k - 1])) && st.base == OrdinalOf(parse, lines[0]))
  }

  /** With this line the repair knows no more than 64 repetitions. */
  ghost predicate PassesBounded(parse: Parser, lines: seq<Bytes>, k: nat)
    requires k < |lines|
  {
    Passes(parse, lines, k) && Repeats(parse, lines, k + 1) <= 64
  }

  lemma AdmissibleExactly(parse: Parser, line: Bytes, k: nat)
    ensures Admissible(parse, line, k).Some?
            <==> k < 1_000_000 && IsRecord(parse, line) && (k == 0 ==> parse(line).value.session)
    ensures Admissible(parse, line, k).Some? ==> Admissible(parse, line, k).value == OrdinalOf(parse, line)
  {
  }

  lemma FollowExactly(parse: Parser, lines: seq<Bytes>, k: nat, st: State)
    requires 0 < k < |lines| && Reached(parse, lines, k, st) && IsRecord(parse, lines[k])
    requires st.duplicates <= 64
    ensures var d := Follow(parse, lines[k], OrdinalOf(parse, lines[k]), st);
            && (d.Some? <==> Succeeds(parse, lines[k - 1], lines[k]) && Repeats(parse, lines, k + 1) <= 64)
            && (d.Some? ==> d.value == Repeats(parse, lines, k + 1))
  {
  }

  lemma PlaceExactly(parse: Parser, line: Bytes)
    ensures Place(line, OrdinalOf(parse, line)).Some? <==> InSight(parse, line)
  {
    var p := Place(line, OrdinalOf(parse, line));
    if p.Some? { assert IsOrdinal(line, OrdinalOf(parse, line), p.value.0, p.value.1); }
  }

  lemma FirstExactly(parse: Parser, lines: seq<Bytes>, st: State)
    requires 0 < |lines| && Reached(parse, lines, 0, st) && st == INITIAL
    ensures Mend(parse, lines[0], st).Some? <==> PassesBounded(parse, lines, 0)
    ensures Mend(parse, lines[0], st).Some? ==> Reached(parse, lines, 1, Mend(parse, lines[0], st).value.1)
  {
    AdmissibleExactly(parse, lines[0], 0);
  }

  lemma NextExactly(parse: Parser, lines: seq<Bytes>, k: nat, st: State)
    requires 0 < k < |lines| && Reached(parse, lines, k, st) && st.duplicates <= 64
    ensures Mend(parse, lines[k], st).Some? <==> PassesBounded(parse, lines, k)
    ensures Mend(parse, lines[k], st).Some? ==> Reached(parse, lines, k + 1, Mend(parse, lines[k], st).value.1)
  {
    AdmissibleExactly(parse, lines[k], k);
    if Admissible(parse, lines[k], k).Some? {
      FollowExactly(parse, lines, k, st);
      PlaceExactly(parse, lines[k]);
      if Follow(parse, lines[k], OrdinalOf(parse, lines[k]), st).Some? { OffsetAgrees(parse, lines[k], st); }
    }
  }

  // ----- whole files -----

  /** All lines from the k-th on pass. */
  ghost predicate AllPass(parse: Parser, lines: seq<Bytes>, k: nat) {
    forall i :: k <= i < |lines| ==> PassesBounded(parse, lines, i)
  }

  /** What is left of the lines. */
  ghost predicate Left(f: File, lines: seq<Bytes>, k: nat) { k <= |lines| && Lines(f) == lines[k..] }

  lemma LinesNext(f: File, lines: seq<Bytes>, k: nat)
    requires Left(f, lines, k)
    ensures f.Nil? <==> k == |lines|
    ensures f.Cons? ==> f.line == lines[k] && Left(f.rest, lines, k + 1)
  {
    if f.Cons? { assert lines[k..][1..] == lines[k + 1..]; }
  }

  lemma AllPassNext(parse: Parser, lines: seq<Bytes>, k: nat)
    requires k < |lines|
    ensures AllPass(parse, lines, k) <==> PassesBounded(parse, lines, k) && AllPass(parse, lines, k + 1)
  {
  }

  ghost predicate Tracks(parse: Parser, lines: seq<Bytes>, k: nat, st: State)
    requires k <= |lines|
  {
    Reached(parse, lines, k, st) && st.duplicates <= 64 && (k == 0 ==> st == INITIAL)
  }

  lemma OneExactly(parse: Parser, lines: seq<Bytes>, k: nat, st: State)
    requires k < |lines| && Tracks(parse, lines, k, st)
    ensures Mend(parse, lines[k], st).Some? <==> PassesBounded(parse, lines, k)
    ensures Mend(parse, lines[k], st).Some? ==> Tracks(parse, lines, k + 1, Mend(parse, lines[k], st).value.1)
  {
    if k == 0 { FirstExactly(parse, lines, st); } else { NextExactly(parse, lines, k, st); }
  }

  /** The rest of the file is mended exactly if the rest of the lines pass. */
  ghost predicate IsExact(parse: Parser, f: File, lines: seq<Bytes>, k: nat, st: State) {
    && (MendAll(parse, f, st).Some? <==> AllPass(parse, lines, k))
    && (MendAll(parse, f, st).Some? ==> Reached(parse, lines, |lines|, MendAll(parse, f, st).value.state))
  }

  lemma {:induction false} NilExactly(parse: Parser, lines: seq<Bytes>, st: State)
    requires Tracks(parse, lines, |lines|, st)
    ensures IsExact(parse, Nil, lines, |lines|, st)
  {
  }

  lemma {:induction false} ConsExactly(parse: Parser, f: File, lines: seq<Bytes>, k: nat, st: State, out: Bytes,
                                        next: State)
    requires k < |lines| && f.Cons? && Mend(parse, f.line, st) == Some((out, next)) && PassesBounded(parse, lines, k)
    requires IsExact(parse, f.rest, lines, k + 1, next)
    ensures IsExact(parse, f, lines, k, st)
  {
    AllPassNext(parse, lines, k);
  }

  lemma {:induction false} RefusedExactly(parse: Parser, f: File, lines: seq<Bytes>, k: nat, st: State)
    requires k < |lines| && f.Cons? && Mend(parse, f.line, st).None? && !PassesBounded(parse, lines, k)
    ensures IsExact(parse, f, lines, k, st)
  {
    AllPassNext(parse, lines, k);
  }

  lemma {:induction false} AllExactly(parse: Parser, f: File, lines: seq<Bytes>, k: nat, st: State)
    requires Left(f, lines, k) && Tracks(parse, lines, k, st)
    ensures IsExact(parse, f, lines, k, st)
  {
    LinesNext(f, lines, k);
    if f.Nil? {
      NilExactly(parse, lines, st);
    } else {
      OneExactly(parse, lines, k, st);
      var m := Mend(parse, f.line, st);
      if m.None? {
        RefusedExactly(parse, f, lines, k, st);
      } else {
        AllExactly(parse, f.rest, lines, k + 1, m.value.1);
        ConsExactly(parse, f, lines, k, st, m.value.0, m.value.1);
      }
    }
  }

  lemma AllPassExactly(parse: Parser, lines: seq<Bytes>)
    requires lines != []
    ensures AllPass(parse, lines, 0)
            <==> (forall i :: 0 <= i < |lines| ==> Passes(parse, lines, i)) && Repeats(parse, lines, |lines|) <= 64
  {
    var last := |lines| - 1;
    if AllPass(parse, lines, 0) {
      forall i | 0 <= i < |lines| ensures Passes(parse, lines, i) { assert PassesBounded(parse, lines, i); }
      assert PassesBounded(parse, lines, last);
    } else if Repeats(parse, lines, |lines|) <= 64 {
      var i :| 0 <= i < |lines| && !PassesBounded(parse, lines, i);
      RepeatsGrow(parse, lines, i + 1, |lines|);
      assert !Passes(parse, lines, i);
    }
  }

  /** Whatever repeats an ordinal is given another one. */
  lemma {:induction false} MendAllRepairs(parse: Parser, f: File, st: State)
    requires StateOk(st) && st.index > 0 && (st.duplicates > 0 ==> st.repaired > 0) && MendAll(parse, f, st).Some?
    ensures var end := MendAll(parse, f, st).value.state; end.duplicates > 0 ==> end.repaired > 0
  {
    if f.Cons? {
      MendCounts(parse, f.line, st);
      MendMoves(parse, f.line, st);
      MendKeepsState(parse, f.line, st);
      MendAllRepairs(parse, f.rest, Mend(parse, f.line, st).value.1);
    }
  }

  /** A file is repaired if and only if its lines show the known damage; the repetitions are those counted. */
  lemma {:induction false} RepairedExactly(parse: Parser, f: File)
    ensures Normalized(parse, f).Some? <==> Recognised(parse, Lines(f))
    ensures Normalized(parse, f).Some? ==>
              Normalized(parse, f).value.state.duplicates == Repeats(parse, Lines(f), |Lines(f)|)
  {
    var lines := Lines(f);
    AllExactly(parse, f, lines, 0, INITIAL);
    if f.Cons? { AllPassExactly(parse, lines); }
    if MendAll(parse, f, INITIAL).Some? && f.Cons? {
      var out, next := FirstMended(parse, f.line);
      MendAllRepairs(parse, f.rest, next);
    }
  }

  /** The same of bytes: they end in a newline, and their lines show the known damage. */
  lemma BytesRepairedExactly(parse: Parser, original: Bytes)
    ensures NormalizedBytes(parse, original).Some?
            <==> original != [] && original[|original| - 1] == 10 && Recognised(parse, Lines(Split(original)))
    ensures NormalizedBytes(parse, original).Some? ==>
              NormalizedBytes(parse, original).value.boundaries
              == Repeats(parse, Lines(Split(original)), |Lines(Split(original))|)
  {
    RepairedExactly(parse, Split(original));
  }
}
