/** What a repair of a rollout guarantees. */
module RolloutRepair {
  import opened Common
  import opened Decimal
  import opened OrdinalKey
  import opened Rollout

  // ----- the offset check -----

  /** `Mend` without its check that the offset is the number of repetitions. */
  ghost function MendLoosely(parse: Parser, line: Bytes, st: State): Option<(Bytes, State)> {
    var current := Admissible(parse, line, st.index);
    if current.None? then None
    else
      var duplicates := Follow(parse, line, current.value, st);
      if duplicates.None? || BaseOf(st, current.value) + st.index > U64_MAX then None
      else Written(line, current.value, BaseOf(st, current.value), duplicates.value, st)
  }

  ghost function MendAllLoosely(parse: Parser, f: File, st: State): Option<Outcome> {
    if f.Nil? then Some(Outcome(Nil, st))
    else
      var m := MendLoosely(parse, f.line, st);
      if m.None? then None
      else
        var rest := MendAllLoosely(parse, f.rest, m.value.1);
        if rest.None? then None else Some(Outcome(Cons(m.value.0, rest.value.file), rest.value.state))
  }

  /** The check never fires: leaving it out changes no outcome. */
  lemma {:induction false} OffsetCheckNeverFires(parse: Parser, f: File, st: State)
    requires StateOk(st)
    ensures MendAllLoosely(parse, f, st) == MendAll(parse, f, st)
  {
    if f.Cons? && MendLoosely(parse, f.line, st).Some? {
      OffsetAgrees(parse, f.line, st);
      MendKeepsState(parse, f.line, st);
      OffsetCheckNeverFires(parse, f.rest, Mend(parse, f.line, st).value.1);
    }
  }

  // ----- the repaired file -----

  /** `out` is `line`, or `line` with the digits of its ordinal exchanged for those of `n`, in plain sight. */
  ghost predicate Rewritten(line: Bytes, out: Bytes, n: nat) {
    out == line || exists c, s, e :: IsOrdinal(line, c, s, e) && out == Renumber(line, (s, e), n)
  }

  ghost predicate AllRewritten(f: File, g: File, n: nat) {
    if f.Nil? || g.Nil? then f == g else Rewritten(f.line, g.line, n) && AllRewritten(f.rest, g.rest, n + 1)
  }

  /** `out` is `line`, and reads as number `n`: the same but for its ordinal. */
  ghost predicate Numbered(parse: Parser, line: Bytes, out: Bytes, n: nat) {
    Rewritten(line, out, n) && parse(line).Some? && parse(out) == Some(parse(line).value.(ordinal := Some(n)))
  }

  /** Line by line, `g` is `f` numbered from `n` on. */
  ghost predicate AllNumbered(parse: Parser, f: File, g: File, n: nat) {
    if f.Nil? || g.Nil? then f == g
    else Numbered(parse, f.line, g.line, n) && AllNumbered(parse, f.rest, g.rest, n + 1)
  }

  /** If the line's ordinal is not `n`, exchanging its digits for those of `n` makes it read as `n`. */
  ghost predicate Renumbers(parse: Parser, line: Bytes, n: nat) {
    var r := parse(line);
    r.Some? && r.value.ordinal.Some? && r.value.ordinal.value != n && Place(line, r.value.ordinal.value).Some? ==>
      parse(Renumber(line, Place(line, r.value.ordinal.value).value, n)) == Some(r.value.(ordinal := Some(n)))
  }

  ghost predicate AllRenumber(parse: Parser, f: File, n: nat) {
    f.Cons? ==> Renumbers(parse, f.line, n) && AllRenumber(parse, f.rest, n + 1)
  }

  /** `out` is written for a line that is given number `n`. */
  ghost predicate Wrote(parse: Parser, line: Bytes, out: Bytes, n: nat) {
    && parse(line).Some? && parse(line).value.ordinal.Some?
    && var c := parse(line).value.ordinal.value;
       if c == n then out == line else Place(line, c).Some? && out == Renumber(line, Place(line, c).value, n)
  }

  ghost predicate AllWrote(parse: Parser, f: File, g: File, n: nat) {
    if f.Nil? || g.Nil? then f == g else Wrote(parse, f.line, g.line, n) && AllWrote(parse, f.rest, g.rest, n + 1)
  }

  /** What is written for one line. */
  lemma MendWrites(parse: Parser, line: Bytes, st: State, out: Bytes, n: nat)
    requires StateOk(st) && Mend(parse, line, st).Some? && out == Mend(parse, line, st).value.0
    requires n == Mend(parse, line, st).value.1.base + st.index
    ensures Wrote(parse, line, out, n)
  {
  }

  lemma WroteRewrites(parse: Parser, line: Bytes, out: Bytes, n: nat)
    requires Wrote(parse, line, out, n)
    ensures Rewritten(line, out, n)
  {
    var c := parse(line).value.ordinal.value;
    if c != n { assert IsOrdinal(line, c, Place(line, c).value.0, Place(line, c).value.1); }
  }

  lemma WroteNumbers(parse: Parser, line: Bytes, out: Bytes, n: nat)
    requires Wrote(parse, line, out, n)
    ensures Numbered(parse, line, out, n) <==> Renumbers(parse, line, n)
  {
    WroteRewrites(parse, line, out, n);
  }

  lemma {:induction false} AllWroteRewrites(parse: Parser, f: File, g: File, n: nat)
    requires AllWrote(parse, f, g, n)
    ensures AllRewritten(f, g, n)
  {
    if f.Cons? && g.Cons? {
      WroteRewrites(parse, f.line, g.line, n);
      AllWroteRewrites(parse, f.rest, g.rest, n + 1);
    }
  }

  lemma {:induction false} AllWroteNumbers(parse: Parser, f: File, g: File, n: nat)
    requires AllWrote(parse, f, g, n)
    ensures AllNumbered(parse, f, g, n) <==> AllRenumber(parse, f, n)
  {
    if f.Cons? && g.Cons? {
      WroteNumbers(parse, f.line, g.line, n);
      AllWroteNumbers(parse, f.rest, g.rest, n + 1);
    }
  }

  lemma MendMoves(parse: Parser, line: Bytes, st: State)
    requires Mend(parse, line, st).Some?
    ensures var next := Mend(parse, line, st).value.1;
            next.index == st.index + 1 && (st.index > 0 ==> next.base == st.base)
  {
  }

  lemma MendAllSplit(parse: Parser, f: File, st: State, out: Bytes, next: State, g: File)
    requires f.Cons? && StateOk(st) && st.index > 0 && Mend(parse, f.line, st) == Some((out, next))
    requires MendAll(parse, f, st).Some? && g == MendAll(parse, f, st).value.file
    ensures StateOk(next) && next.base == st.base && next.index == st.index + 1
    ensures MendAll(parse, f.rest, next).Some? && g == Cons(out, MendAll(parse, f.rest, next).value.file)
  {
    MendMoves(parse, f.line, st);
    MendKeepsState(parse, f.line, st);
  }

  lemma {:induction false} MendAllWrites(parse: Parser, f: File, st: State, g: File)
    requires StateOk(st) && st.index > 0 && MendAll(parse, f, st).Some? && g == MendAll(parse, f, st).value.file
    ensures AllWrote(parse, f, g, st.base + st.index)
  {
    if f.Cons? {
      var (out, next) := Mend(parse, f.line, st).value;
      MendAllSplit(parse, f, st, out, next, g);
      MendWrites(parse, f.line, st, out, st.base + st.index);
      MendAllWrites(parse, f.rest, next, g.rest);
    }
  }

  lemma FirstMended(parse: Parser, line: Bytes) returns (out: Bytes, next: State)
    requires Mend(parse, line, INITIAL).Some?
    ensures Mend(parse, line, INITIAL) == Some((out, next))
    ensures parse(line).Some? && parse(line).value.ordinal == Some(next.base) && next.index == 1 && StateOk(next)
    ensures next.duplicates == 0 && next.repaired == 0
  {
    out, next := Mend(parse, line, INITIAL).value.0, Mend(parse, line, INITIAL).value.1;
  }

  /**
  In an accepted repair nothing but digits of ordinals differs. The lines read as
  numbered one after the other from the first record's ordinal if and only if
  each line, with its digits exchanged, reads as that number.
   */
  lemma RepairNumbers(parse: Parser, f: File)
    requires Normalized(parse, f).Some?
    ensures f.Cons? && parse(f.line).Some? && parse(f.line).value.ordinal.Some?
    ensures var g, n := Normalized(parse, f).value.file, parse(f.line).value.ordinal.value;
            AllRewritten(f, g, n) && (AllNumbered(parse, f, g, n) <==> AllRenumber(parse, f, n))
  {
    RepairWrites(parse, f, Normalized(parse, f).value.file);
    AllWroteRewrites(parse, f, Normalized(parse, f).value.file, parse(f.line).value.ordinal.value);
    AllWroteNumbers(parse, f, Normalized(parse, f).value.file, parse(f.line).value.ordinal.value);
  }

  lemma RepairWrites(parse: Parser, f: File, g: File)
    requires Normalized(parse, f).Some? && g == Normalized(parse, f).value.file
    ensures f.Cons? && parse(f.line).Some? && parse(f.line).value.ordinal.Some?
    ensures AllWrote(parse, f, g, parse(f.line).value.ordinal.value)
  {
    var out, next := FirstMended(parse, f.line);
    MendWrites(parse, f.line, INITIAL, out, next.base);
    MendAllWrites(parse, f.rest, next, g.rest);
  }

  // ----- counting -----

  /** How many lines at the start are numbered from `n` on already. */
  function Intact(parse: Parser, f: File, n: nat): nat {
    if f.Nil? || parse(f.line).None? || parse(f.line).value.ordinal != Some(n) then 0
    else 1 + Intact(parse, f.rest, n + 1)
  }

  lemma MendCounts(parse: Parser, line: Bytes, st: State)
    requires StateOk(st) && st.index > 0 && Mend(parse, line, st).Some?
    ensures var next := Mend(parse, line, st).value.1;
            && next.duplicates >= st.duplicates
            && (next.duplicates == 0 <==> st.duplicates == 0 && parse(line).value.ordinal == Some(st.base + st.index))
            && next.repaired == st.repaired + if next.duplicates == 0 then 0 else 1
  {
  }

  lemma {:induction false} MendAllCounts(parse: Parser, f: File, st: State)
    requires StateOk(st) && st.index > 0 && MendAll(parse, f, st).Some?
    ensures var end := MendAll(parse, f, st).value.state;
            end.repaired
            == st.repaired + Length(f) - if st.duplicates == 0 then Intact(parse, f, st.base + st.index) else 0
  {
    if f.Cons? {
      MendCounts(parse, f.line, st);
      MendMoves(parse, f.line, st);
      MendKeepsState(parse, f.line, st);
      MendAllCounts(parse, f.rest, Mend(parse, f.line, st).value.1);
    }
  }

  /** The repaired records are all those from the first repeated ordinal on. */
  lemma RepairCounts(parse: Parser, f: File)
    requires Normalized(parse, f).Some?
    ensures f.Cons? && parse(f.line).Some? && parse(f.line).value.ordinal.Some?
    ensures Normalized(parse, f).value.state.repaired == Length(f) - Intact(parse, f, parse(f.line).value.ordinal.value)
  {
    var out, next := FirstMended(parse, f.line);
    MendAllCounts(parse, f.rest, next);
  }

  // ----- a file without repetitions is refused -----

  lemma {:induction false} IntactHasNoDuplicates(parse: Parser, f: File, st: State)
    requires StateOk(st) && st.index > 0 && st.duplicates == 0 && Intact(parse, f, st.base + st.index) == Length(f)
    requires MendAll(parse, f, st).Some?
    ensures MendAll(parse, f, st).value.state.duplicates == 0
  {
    if f.Cons? {
      MendCounts(parse, f.line, st);
      MendMoves(parse, f.line, st);
      MendKeepsState(parse, f.line, st);
      IntactHasNoDuplicates(parse, f.rest, Mend(parse, f.line, st).value.1);
    }
  }

  lemma IntactIsRefused(parse: Parser, f: File)
    requires f.Cons? ==> parse(f.line).Some? && parse(f.line).value.ordinal.Some?
                         && Intact(parse, f, parse(f.line).value.ordinal.value) == Length(f)
    ensures Normalized(parse, f).None?
  {
    if MendAll(parse, f, INITIAL).Some? && f.Cons? {
      var out, next := FirstMended(parse, f.line);
      IntactHasNoDuplicates(parse, f.rest, next);
    }
  }

  /** A line that reads as `n`, or carries `n` in plain sight. */
  ghost predicate Settled(parse: Parser, line: Bytes, n: nat) {
    (parse(line).Some? && parse(line).value.ordinal == Some(n)) || exists s, e :: IsOrdinal(line, n, s, e)
  }

  ghost predicate AllSettled(parse: Parser, f: File, n: nat) {
    f.Cons? ==> Settled(parse, f.line, n) && AllSettled(parse, f.rest, n + 1)
  }

  lemma RenumberIsInSight(line: Bytes, c: nat, place: (nat, nat), n: nat)
    requires IsOrdinal(line, c, place.0, place.1)
    ensures IsOrdinal(Renumber(line, place, n), n, place.0, place.0 + |Print(n)|)
  {
    OrdinalIsSlot(line, c, place.0, place.1);
    SlotIsOrdinal(line[..place.0], n, line[place.1..]);
  }

  lemma WroteSettles(parse: Parser, line: Bytes, out: Bytes, n: nat)
    requires Wrote(parse, line, out, n)
    ensures Settled(parse, out, n)
  {
    var c := parse(line).value.ordinal.value;
    if c != n { RenumberIsInSight(line, c, Place(line, c).value, n); }
  }

  lemma {:induction false} AllWroteSettles(parse: Parser, f: File, g: File, n: nat)
    requires AllWrote(parse, f, g, n)
    ensures AllSettled(parse, g, n)
  {
    if f.Cons? && g.Cons? {
      WroteSettles(parse, f.line, g.line, n);
      AllWroteSettles(parse, f.rest, g.rest, n + 1);
    }
  }

  /** A settled line is accepted only if it reads as it is numbered: its place shows no other ordinal. */
  lemma SettledReads(parse: Parser, line: Bytes, st: State, n: nat)
    requires StateOk(st) && st.index > 0 && Mend(parse, line, st).Some?
    requires n == st.base + st.index && Settled(parse, line, n)
    ensures parse(line).Some? && parse(line).value.ordinal == Some(n)
  {
    MendMoves(parse, line, st);
    MendWrites(parse, line, st, Mend(parse, line, st).value.0, n);
  }

  lemma {:induction false} SettledIsIntact(parse: Parser, f: File, st: State)
    requires StateOk(st) && st.index > 0 && MendAll(parse, f, st).Some? && AllSettled(parse, f, st.base + st.index)
    ensures Intact(parse, f, st.base + st.index) == Length(f)
  {
    if f.Cons? {
      SettledReads(parse, f.line, st, st.base + st.index);
      MendMoves(parse, f.line, st);
      MendKeepsState(parse, f.line, st);
      SettledIsIntact(parse, f.rest, Mend(parse, f.line, st).value.1);
    }
  }

  lemma SettledIsRefused(parse: Parser, f: File, n: nat)
    requires f.Cons? && parse(f.line).Some? && parse(f.line).value.ordinal == Some(n)
    requires AllSettled(parse, f.rest, n + 1)
    ensures Normalized(parse, f).None?
  {
    if MendAll(parse, f, INITIAL).Some? {
      var out, next := FirstMended(parse, f.line);
      SettledIsIntact(parse, f.rest, next);
      IntactIsRefused(parse, f);
    }
  }

  /** A repaired file is never repaired again, whatever its lines read as. */
  lemma RepairIsFinal(parse: Parser, f: File)
    requires Normalized(parse, f).Some?
    ensures Normalized(parse, Normalized(parse, f).value.file).None?
  {
    var out, next := FirstMended(parse, f.line);
    MendWrites(parse, f.line, INITIAL, out, next.base);
    var g := MendAll(parse, f.rest, next).value.file;
    MendAllWrites(parse, f.rest, next, g);
    AllWroteSettles(parse, f.rest, g, next.base + 1);
    SettledIsRefused(parse, Normalized(parse, f).value.file, next.base);
  }

  // ----- damage, and its repair -----

  /** The records of a rollout around their ordinals; at the chosen ones the count was not moved on. */
  datatype Entries = End | More(prefix: Bytes, suffix: Bytes, chosen: bool, rest: Entries)

  function Total(es: Entries): nat { if es.End? then 0 else 1 + Total(es.rest) }

  function Chosen(es: Entries): nat { if es.End? then 0 else Chosen(es.rest) + if es.chosen then 1 else 0 }

  /** The rollout as it should be, numbered from `n` on. */
  function Whole(es: Entries, n: nat): File {
    if es.End? then Nil else Cons(Splice(es.prefix, n, es.suffix), Whole(es.rest, n + 1))
  }

  function Lowered(es: Entries, k: nat): nat { k + if es.More? && es.chosen then 1 else 0 }

  /** The damaged ordinal of the first record. */
  function Current(es: Entries, n: nat, k: nat): nat { if n < Lowered(es, k) then 0 else n - Lowered(es, k) }

  /** The rollout with each ordinal lowered by the number of chosen records up to it, `k` before the first. */
  function Damaged(es: Entries, n: nat, k: nat): File {
    if es.End? then Nil
    else Cons(Splice(es.prefix, Current(es, n, k), es.suffix), Damaged(es.rest, n + 1, Lowered(es, k)))
  }

  /** A record that reads as number `n` and keeps its ordinal in plain sight. */
  ghost predicate Sound(parse: Parser, es: Entries, n: nat)
    requires es.More?
  {
    && KeySlot(es.prefix, es.suffix) && es.suffix[|es.suffix| - 1] != RETURN && n <= U64_MAX
    && var r := parse(Splice(es.prefix, n, es.suffix));
       r.Some? && r.value.ordinal == Some(n) && !r.value.nested && (es.chosen ==> r.value.settings)
  }

  /** The record reads the same with the number it is damaged to, but for its ordinal. */
  ghost predicate ReadsAlike(parse: Parser, es: Entries, n: nat, m: nat)
    requires es.More? && parse(Splice(es.prefix, n, es.suffix)).Some?
  {
    parse(Splice(es.prefix, m, es.suffix)) == Some(parse(Splice(es.prefix, n, es.suffix)).value.(ordinal := Some(m)))
  }

  /** All records are sound, numbered from `n` on, also when their ordinals are lowered, by `k` before the first. */
  ghost predicate AllSound(parse: Parser, es: Entries, n: nat, k: nat) {
    es.More? ==>
      && Sound(parse, es, n) && ReadsAlike(parse, es, n, Current(es, n, k))
      && AllSound(parse, es.rest, n + 1, Lowered(es, k))
  }

  lemma RenumberSplice(a: Bytes, n: nat, b: Bytes, m: nat)
    ensures Renumber(Splice(a, n, b), (|a|, |a| + |Print(n)|), m) == Splice(a, m, b)
  {
    var line := Splice(a, n, b);
    assert line[..|a|] == a && line[|a| + |Print(n)|..] == b;
  }

  lemma SplicePlace(a: Bytes, n: nat, b: Bytes)
    requires KeySlot(a, b)
    ensures Place(Splice(a, n, b), n) == Some((|a|, |a| + |Print(n)|))
  {
    SlotIsOrdinal(a, n, b);
    var r := Place(Splice(a, n, b), n);
    OrdinalIsUnique(Splice(a, n, b), n, |a|, |a| + |Print(n)|, n, r.value.0, r.value.1);
  }

  lemma SpliceEnds(a: Bytes, n: nat, b: Bytes)
    requires b != []
    ensures Splice(a, n, b) != [] && Splice(a, n, b)[|Splice(a, n, b)| - 1] == b[|b| - 1]
  {
  }

  /** The state after one more record, with `duplicates` repetitions in all. */
  function After(st: State, current: nat, duplicates: nat): State {
    State(st.index + 1, Some(current), st.base, duplicates, st.repaired + if duplicates == 0 then 0 else 1)
  }

  lemma SpliceAdmissible(parse: Parser, es: Entries, n: nat, m: nat, index: nat)
    requires es.More? && Sound(parse, es, n) && ReadsAlike(parse, es, n, m) && 0 < index < MAX_RECORDS && m <= U64_MAX
    ensures var line := Splice(es.prefix, m, es.suffix);
            Admissible(parse, line, index) == Some(m) && (es.chosen ==> parse(line).value.settings)
  {
    SpliceEnds(es.prefix, m, es.suffix);
  }

  lemma SpliceWritten(a: Bytes, b: Bytes, n: nat, current: nat, duplicates: nat, st: State)
    requires KeySlot(a, b) && st.base + st.index == n == current + duplicates
    ensures Written(Splice(a, current, b), current, st.base, duplicates, st)
            == Some((Splice(a, n, b), After(st, current, duplicates)))
  {
    SplicePlace(a, current, b);
    RenumberSplice(a, current, b, n);
  }

  lemma MendIsWritten(parse: Parser, line: Bytes, st: State, current: nat, duplicates: nat)
    requires StateOk(st) && st.index > 0 && Admissible(parse, line, st.index) == Some(current)
    requires st.base + st.index == current + duplicates <= U64_MAX
    requires duplicates == st.duplicates
             || (duplicates == st.duplicates + 1 <= MAX_DUPLICATES && parse(line).value.settings)
    ensures Mend(parse, line, st) == Written(line, current, st.base, duplicates, st)
  {
  }

  /** A damaged record is written as it was. */
  lemma MendsOne(parse: Parser, es: Entries, n: nat, current: nat, duplicates: nat, st: State)
    requires es.More? && Sound(parse, es, n) && ReadsAlike(parse, es, n, current)
    requires StateOk(st) && 0 < st.index < MAX_RECORDS
    requires st.base + st.index == n == current + duplicates && duplicates <= MAX_DUPLICATES
    requires duplicates == Lowered(es, st.duplicates)
    ensures Mend(parse, Splice(es.prefix, current, es.suffix), st)
            == Some((Splice(es.prefix, n, es.suffix), After(st, current, duplicates)))
  {
    SpliceAdmissible(parse, es, n, current, st.index);
    MendIsWritten(parse, Splice(es.prefix, current, es.suffix), st, current, duplicates);
    SpliceWritten(es.prefix, es.suffix, n, current, duplicates, st);
  }

  lemma MendAllStep(parse: Parser, line: Bytes, rest: File, st: State, out: Bytes, next: State, o: Outcome)
    requires Mend(parse, line, st) == Some((out, next)) && MendAll(parse, rest, next) == Some(o)
    ensures MendAll(parse, Cons(line, rest), st) == Some(Outcome(Cons(out, o.file), o.state))
  {
  }

  /** The state after the first damaged record, and after all of them. */
  function AfterOne(es: Entries, n: nat, k: nat, st: State): State { After(st, Current(es, n, k), Lowered(es, k)) }

  function AfterAll(es: Entries, n: nat, k: nat, st: State): State {
    if es.End? then st else AfterAll(es.rest, n + 1, Lowered(es, k), AfterOne(es, n, k, st))
  }

  lemma {:induction false} AfterAllCounts(es: Entries, n: nat, k: nat, st: State)
    requires st.duplicates == k
    ensures var end := AfterAll(es, n, k, st);
            && end.duplicates == k + Chosen(es) && end.repaired >= st.repaired
            && (Chosen(es) > 0 ==> end.repaired > st.repaired)
    decreases es
  {
    if es.More? { AfterAllCounts(es.rest, n + 1, Lowered(es, k), AfterOne(es, n, k, st)); }
  }

  /** What holds before the records are mended, numbered from `n` on and lowered by `k` before the first. */
  ghost predicate Mendable(parse: Parser, es: Entries, n: nat, k: nat, st: State) {
    && AllSound(parse, es, n, k) && StateOk(st) && st.index > 0
    && st.base + st.index == n && st.duplicates == k
    && st.index + Total(es) <= MAX_RECORDS && k + Chosen(es) <= MAX_DUPLICATES
  }

  /** The first damaged record is written as it was. */
  ghost predicate MendsFront(parse: Parser, es: Entries, n: nat, k: nat, st: State)
    requires es.More?
  {
    Mend(parse, Splice(es.prefix, Current(es, n, k), es.suffix), st)
    == Some((Splice(es.prefix, n, es.suffix), AfterOne(es, n, k, st)))
  }

  lemma MendsNext(parse: Parser, es: Entries, n: nat, k: nat, st: State)
    requires es.More? && Mendable(parse, es, n, k, st)
    ensures MendsFront(parse, es, n, k, st)
  {
    MendsOne(parse, es, n, Current(es, n, k), Lowered(es, k), st);
  }

  lemma MendableRest(parse: Parser, es: Entries, n: nat, k: nat, st: State)
    requires es.More? && Mendable(parse, es, n, k, st)
    ensures Mendable(parse, es.rest, n + 1, Lowered(es, k), AfterOne(es, n, k, st))
  {
  }

  /** One after the other, each is. */
  ghost predicate MendsInTurn(parse: Parser, es: Entries, n: nat, k: nat, st: State) {
    es.More? ==>
      && MendsFront(parse, es, n, k, st)
      && MendsInTurn(parse, es.rest, n + 1, Lowered(es, k), AfterOne(es, n, k, st))
  }

  lemma FrontInTurn(parse: Parser, es: Entries, n: nat, k: nat, st: State)
    requires es.More? && Mendable(parse, es, n, k, st)
    requires MendsInTurn(parse, es.rest, n + 1, Lowered(es, k), AfterOne(es, n, k, st))
    ensures MendsInTurn(parse, es, n, k, st)
  {
    MendsNext(parse, es, n, k, st);
  }

  lemma {:induction false} MendableInTurn(parse: Parser, es: Entries, n: nat, k: nat, st: State)
    requires Mendable(parse, es, n, k, st)
    ensures MendsInTurn(parse, es, n, k, st)
    decreases es
  {
    if es.More? {
      MendableRest(parse, es, n, k, st);
      MendableInTurn(parse, es.rest, n + 1, Lowered(es, k), AfterOne(es, n, k, st));
      FrontInTurn(parse, es, n, k, st);
    }
  }

  lemma {:induction false} MendsDamage(parse: Parser, es: Entries, n: nat, k: nat, st: State)
    requires MendsInTurn(parse, es, n, k, st)
    ensures MendAll(parse, Damaged(es, n, k), st) == Some(Outcome(Whole(es, n), AfterAll(es, n, k, st)))
    decreases es
  {
    if es.More? { MendsDamage(parse, es.rest, n + 1, Lowered(es, k), AfterOne(es, n, k, st)); }
  }

  // ----- behind records that are numbered as they should be -----

  function Join(h: File, f: File): File { if h.Nil? then f else Cons(h.line, Join(h.rest, f)) }

  /** An acceptable record that reads as number `n`, wherever its ordinal is written. */
  ghost predicate ReadsAs(parse: Parser, line: Bytes, n: nat) {
    && line != [] && line[|line| - 1] != RETURN && n <= U64_MAX
    && parse(line).Some? && parse(line).value.ordinal == Some(n) && !parse(line).value.nested
  }

  ghost predicate AllReadAs(parse: Parser, h: File, n: nat) {
    h.Cons? ==> ReadsAs(parse, h.line, n) && AllReadAs(parse, h.rest, n + 1)
  }

  /** The state after `count` records that were numbered as they should be. */
  function Past(st: State, count: nat): State {
    if count == 0 then st else st.(index := st.index + count, previous := Some(st.base + st.index + count - 1))
  }

  lemma KeepsOne(parse: Parser, line: Bytes, st: State)
    requires StateOk(st) && 0 < st.index < MAX_RECORDS && st.duplicates == 0 && ReadsAs(parse, line, st.base + st.index)
    ensures Mend(parse, line, st) == Some((line, Past(st, 1))) && StateOk(Past(st, 1))
  {
  }

  lemma {:induction false} KeepsFront(parse: Parser, h: File, f: File, st: State, o: Outcome)
    requires h.Cons? && StateOk(st) && 0 < st.index < MAX_RECORDS && st.duplicates == 0
    requires ReadsAs(parse, h.line, st.base + st.index)
    requires MendAll(parse, Join(h.rest, f), Past(st, 1)) == Some(Outcome(Join(h.rest, o.file), o.state))
    ensures MendAll(parse, Join(h, f), st) == Some(Outcome(Join(h, o.file), o.state))
  {
    KeepsOne(parse, h.line, st);
    MendAllStep(parse, h.line, Join(h.rest, f), st, h.line, Past(st, 1), Outcome(Join(h.rest, o.file), o.state));
  }

  /** What holds before records that are numbered as they should be, from `n` on; `end` is the state after them. */
  ghost predicate Keepable(parse: Parser, h: File, n: nat, st: State, end: State) {
    && AllReadAs(parse, h, n) && StateOk(st) && st.index > 0 && st.duplicates == 0 && st.base + st.index == n
    && st.index + Length(h) <= MAX_RECORDS && end == Past(st, Length(h))
  }

  lemma {:induction false} KeepableRest(parse: Parser, h: File, n: nat, st: State, end: State)
    requires h.Cons? && Keepable(parse, h, n, st, end)
    ensures ReadsAs(parse, h.line, n) && Keepable(parse, h.rest, n + 1, Past(st, 1), end)
  {
  }

  lemma {:induction false} KeepsNone(parse: Parser, h: File, f: File, n: nat, st: State, end: State, o: Outcome)
    requires h.Nil? && Keepable(parse, h, n, st, end) && MendAll(parse, f, end) == Some(o)
    ensures MendAll(parse, Join(h, f), st) == Some(Outcome(Join(h, o.file), o.state))
  {
    assert end == st && Join(h, f) == f && Outcome(Join(h, o.file), o.state) == o;
  }

  lemma {:induction false} KeepsHead(parse: Parser, h: File, f: File, n: nat, st: State, end: State, o: Outcome)
    requires Keepable(parse, h, n, st, end) && MendAll(parse, f, end) == Some(o)
    ensures MendAll(parse, Join(h, f), st) == Some(Outcome(Join(h, o.file), o.state))
  {
    if h.Nil? {
      KeepsNone(parse, h, f, n, st, end, o);
    } else {
      KeepableRest(parse, h, n, st, end);
      KeepsHead(parse, h.rest, f, n + 1, Past(st, 1), end, o);
      KeepsFront(parse, h, f, st, o);
    }
  }

  lemma KeepsFirst(parse: Parser, line: Bytes, base: nat)
    requires ReadsAs(parse, line, base) && parse(line).value.session
    ensures Mend(parse, line, INITIAL) == Some((line, State(1, Some(base), base, 0, 0)))
  {
  }

  lemma {:induction false} MendsTail(parse: Parser, es: Entries, n: nat, st: State)
    requires Mendable(parse, es, n, 0, st)
    ensures MendAll(parse, Damaged(es, n, 0), st) == Some(Outcome(Whole(es, n), AfterAll(es, n, 0, st)))
  {
    MendableInTurn(parse, es, n, 0, st);
    MendsDamage(parse, es, n, 0, st);
  }

  lemma {:induction false} MendsBehind(parse: Parser, h: File, f: File, base: nat, o: Outcome)
    requires h.Cons? && AllReadAs(parse, h, base) && parse(h.line).value.session && Length(h) <= MAX_RECORDS
    requires MendAll(parse, f, State(Length(h), Some(base + Length(h) - 1), base, 0, 0)) == Some(o)
    ensures MendAll(parse, Join(h, f), INITIAL) == Some(Outcome(Join(h, o.file), o.state))
  {
    var next := State(1, Some(base), base, 0, 0);
    KeepsFirst(parse, h.line, base);
    KeepsHead(parse, h.rest, f, base + 1, next, State(Length(h), Some(base + Length(h) - 1), base, 0, 0), o);
    MendAllStep(parse, h.line, Join(h.rest, f), INITIAL, h.line, next, Outcome(Join(h.rest, o.file), o.state));
  }

  lemma MendedIsNormal(parse: Parser, f: File, o: Outcome)
    requires f.Cons? && MendAll(parse, f, INITIAL) == Some(o) && o.state.duplicates > 0 && o.state.repaired > 0
    ensures Normalized(parse, f) == Some(o)
  {
  }

  /**
  Repair undoes damage: from any rollout numbered without a gap, with 1 to 64 of
  its settings records after the first chosen, it gives back every byte. Records
  before the first chosen one need only read as they are numbered.
   */
  lemma {:induction false} RepairUndoesDamage(parse: Parser, h: File, es: Entries, base: nat, n: nat)
    requires h.Cons? && AllReadAs(parse, h, base) && parse(h.line).value.session
    requires n == base + Length(h) && AllSound(parse, es, n, 0)
    requires Length(h) + Total(es) <= MAX_RECORDS && 1 <= Chosen(es) <= MAX_DUPLICATES
    ensures var r := Normalized(parse, Join(h, Damaged(es, n, 0)));
            r.Some? && r.value.file == Join(h, Whole(es, n)) && r.value.state.duplicates == Chosen(es)
  {
    var st := State(Length(h), Some(n - 1), base, 0, 0);
    var o := Outcome(Whole(es, n), AfterAll(es, n, 0, st));
    MendsTail(parse, es, n, st);
    MendsBehind(parse, h, Damaged(es, n, 0), base, o);
    AfterAllCounts(es, n, 0, st);
    MendedIsNormal(parse, Join(h, Damaged(es, n, 0)), Outcome(Join(h, o.file), o.state));
  }
}
