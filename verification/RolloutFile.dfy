/** `normalize_duplicate_ordinals` on the bytes of a rollout file. */
module RolloutFile {
  import opened Common
  import opened Decimal
  import opened OrdinalKey
  import opened Rollout
  import opened RolloutRepair
  import opened RolloutReader

  // ----- bytes and lines -----

  function Text(f: File): Bytes { if f.Nil? then [] else f.line + [NEWLINE] + Text(f.rest) }

  /** Where the first newline is; the length if there is none. */
  function FirstNewline(bytes: Bytes): (n: nat)
    ensures n <= |bytes| && (n < |bytes| ==> bytes[n] == NEWLINE)
  {
    if bytes == [] || bytes[0] == NEWLINE then 0 else 1 + FirstNewline(bytes[1..])
  }

  /** The lines of a file. */
  function Split(bytes: Bytes): File
    decreases |bytes|
  {
    var n := FirstNewline(bytes);
    if n == |bytes| then Nil else Cons(bytes[..n], Split(bytes[n + 1..]))
  }

  predicate Unbroken(line: Bytes) { forall i :: 0 <= i < |line| ==> line[i] != NEWLINE }

  predicate AllUnbroken(f: File) { f.Cons? ==> Unbroken(f.line) && AllUnbroken(f.rest) }

  lemma {:induction false} FirstNewlineAfter(line: Bytes, rest: Bytes)
    requires Unbroken(line)
    ensures FirstNewline(line + [NEWLINE] + rest) == |line|
  {
    var all := line + [NEWLINE] + rest;
    if line == [] {
      assert all[0] == NEWLINE;
    } else {
      assert all[1..] == line[1..] + [NEWLINE] + rest;
      FirstNewlineAfter(line[1..], rest);
    }
  }

  /** Splitting what was put together gives the lines again. */
  lemma {:induction false} SplitOfText(f: File)
    requires AllUnbroken(f)
    ensures Split(Text(f)) == f
  {
    if f.Cons? {
      SplitOfText(f.rest);
      FirstNewlineAfter(f.line, Text(f.rest));
      var all := Text(f);
      assert all[..|f.line|] == f.line && all[|f.line| + 1..] == Text(f.rest);
    }
  }

  lemma {:induction false} NewlineBeforeEnd(bytes: Bytes)
    requires bytes != [] && bytes[|bytes| - 1] == NEWLINE
    ensures FirstNewline(bytes) < |bytes|
  {
    if bytes[0] != NEWLINE { NewlineBeforeEnd(bytes[1..]); }
  }

  lemma CutAtNewline(bytes: Bytes, n: nat)
    requires n < |bytes| && bytes[n] == NEWLINE
    ensures bytes[..n] + [NEWLINE] + bytes[n + 1..] == bytes
  {
  }

  /** Putting together the lines of a file that ends in a newline gives the file again. */
  lemma {:induction false} TextOfSplit(bytes: Bytes)
    requires bytes == [] || bytes[|bytes| - 1] == NEWLINE
    ensures Text(Split(bytes)) == bytes
    decreases |bytes|
  {
    if bytes != [] {
      NewlineBeforeEnd(bytes);
      var n := FirstNewline(bytes);
      TextOfSplit(bytes[n + 1..]);
      CutAtNewline(bytes, n);
    }
  }

  // ----- the loop -----

  datatype Repaired = Repaired(bytes: Bytes, records: nat, boundaries: nat)

  /** What is written for the whole file is what was written so far and what the rest will add. */
  ghost predicate Continues(whole: Option<Outcome>, written: Bytes, rest: Option<Outcome>) {
    && (whole.None? <==> rest.None?)
    && (whole.Some? ==>
          && whole.value.state == rest.value.state
          && Text(whole.value.file) == written + Text(rest.value.file))
  }

  lemma TextJoins(written: Bytes, out: Bytes, tail: Bytes)
    ensures written + (out + [NEWLINE] + tail) == written + (out + [NEWLINE]) + tail
  {
  }

  lemma ContinuesOne(parse: Parser, whole: Option<Outcome>, written: Bytes, f: File, st: State, out: Bytes, next: State)
    requires f.Cons? && Continues(whole, written, MendAll(parse, f, st)) && Mend(parse, f.line, st) == Some((out, next))
    ensures Continues(whole, written + (out + [NEWLINE]), MendAll(parse, f.rest, next))
  {
    var rest := MendAll(parse, f.rest, next);
    assert MendAll(parse, f, st)
        == if rest.None? then None else Some(Outcome(Cons(out, rest.value.file), rest.value.state));
    if rest.Some? { TextJoins(written, out, Text(rest.value.file)); }
  }

  lemma ContinuesFirst(whole: Option<Outcome>)
    ensures Continues(whole, [], whole)
  {
    if whole.Some? { assert [] + Text(whole.value.file) == Text(whole.value.file); }
  }

  lemma ContinuesNone(parse: Parser, whole: Option<Outcome>, written: Bytes, f: File, st: State)
    requires f.Cons? && Continues(whole, written, MendAll(parse, f, st)) && Mend(parse, f.line, st).None?
    ensures whole.None?
  {
  }

  lemma ContinuesLast(parse: Parser, whole: Option<Outcome>, written: Bytes, st: State)
    requires Continues(whole, written, MendAll(parse, Nil, st))
    ensures whole.Some? && Text(whole.value.file) == written && whole.value.state == st
  {
    assert written + [] == written;
  }

  /** The body of the loop, for one line. */
  method MendLine(parse: Parser, line: Bytes, st: State) returns (r: Option<(Bytes, State)>)
    ensures r == Mend(parse, line, st)
  {
    if st.index >= MAX_RECORDS || line == [] || line[|line| - 1] == RETURN { return None; }
    var record := parse(line);
    if record.None? || record.value.ordinal.None? || record.value.ordinal.value > U64_MAX { return None; }
    var current := record.value.ordinal.value;
    if record.value.nested || (st.index == 0 && !record.value.session) { return None; }
    var base, duplicates := if st.index == 0 then current else st.base, st.duplicates;
    if st.previous.Some? {
      if current == st.previous.value {
        if !record.value.settings { return None; }
        duplicates := duplicates + 1;
        if duplicates > MAX_DUPLICATES { return None; }
      } else if st.previous.value + 1 != current {
        return None;
      }
    }
    var expected := base + st.index;
    if expected > U64_MAX || expected < current || expected - current != duplicates { return None; }
    r := WriteLine(line, current, base, duplicates, st);
  }

  method WriteLine(line: Bytes, current: nat, base: nat, duplicates: nat, st: State) returns (r: Option<(Bytes, State)>)
    ensures r == Written(line, current, base, duplicates, st)
  {
    var next := State(st.index + 1, Some(current), base, duplicates, st.repaired);
    var expected := base + st.index;
    if current == expected { return Some((line, next)); }
    var digits := OrdinalDigits(line, current);
    if digits.None? { return None; }
    var (s, e) := digits.value;
    ghost var place := Place(line, current).value;
    OrdinalIsUnique(line, current, s, e, current, place.0, place.1);
    r := Some((line[..s] + Print(expected) + line[e..], next.(repaired := st.repaired + 1)));
  }

  method FindNewline(bytes: Bytes, from: nat) returns (n: nat)
    requires from <= |bytes|
    ensures from <= n <= |bytes| && n == from + FirstNewline(bytes[from..])
  {
    n := from;
    while n < |bytes| && bytes[n] != NEWLINE
      invariant from <= n <= |bytes| && from + FirstNewline(bytes[from..]) == n + FirstNewline(bytes[n..])
    {
      assert bytes[n..][1..] == bytes[n + 1..];
      n := n + 1;
    }
  }

  lemma SplitAt(bytes: Bytes, from: nat, n: nat)
    requires from <= n < |bytes| && n == from + FirstNewline(bytes[from..])
    ensures Split(bytes[from..]) == Cons(bytes[from..n], Split(bytes[n + 1..]))
  {
    assert bytes[from..][..n - from] == bytes[from..n];
    assert bytes[from..][n - from + 1..] == bytes[n + 1..];
  }

  /** What `normalize_duplicate_ordinals` makes of a file. */
  ghost function NormalizedBytes(parse: Parser, original: Bytes): Option<Repaired> {
    var done := Normalized(parse, Split(original));
    if original == [] || original[|original| - 1] != NEWLINE || done.None? then None
    else Some(Repaired(Text(done.value.file), done.value.state.repaired, done.value.state.duplicates))
  }

  method NormalizeDuplicateOrdinals(original: Bytes, parse: Parser) returns (r: Option<Repaired>)
    ensures r == NormalizedBytes(parse, original)
  {
    if original == [] || original[|original| - 1] != NEWLINE { return None; }
    var done, replacement, st := MendLines(original, parse);
    NewlineBeforeEnd(original);
    if !done || st.duplicates == 0 || st.repaired == 0 { return None; }
    r := Some(Repaired(replacement, st.repaired, st.duplicates));
  }

  /** The line at `position`, and where the next one starts. */
  method NextLine(original: Bytes, position: nat) returns (line: Bytes, next: nat)
    requires position < |original| && original[|original| - 1] == NEWLINE
    ensures position < next <= |original| && Split(original[position..]) == Cons(line, Split(original[next..]))
  {
    var n := FindNewline(original, position);
    NewlineBeforeEnd(original[position..]);
    SplitAt(original, position, n);
    return original[position..n], n + 1;
  }

  /** One turn of the loop. */
  method MendNext(original: Bytes, parse: Parser, position: nat, st: State, replacement: Bytes,
                  ghost whole: Option<Outcome>, ghost rest: File)
    returns (ok: bool, positionNow: nat, stNow: State, replacementNow: Bytes)
    requires position < |original| && original[|original| - 1] == NEWLINE
    requires rest == Split(original[position..]) && Continues(whole, replacement, MendAll(parse, rest, st))
    ensures !ok ==> whole.None?
    ensures ok ==> position < positionNow <= |original| && rest.Cons? && rest.rest == Split(original[positionNow..])
    ensures ok ==> Continues(whole, replacementNow, MendAll(parse, rest.rest, stNow))
  {
    var line, n := NextLine(original, position);
    var mended := MendLine(parse, line, st);
    if mended.None? {
      ContinuesNone(parse, whole, replacement, rest, st);
      return false, position, st, replacement;
    }
    ContinuesOne(parse, whole, replacement, rest, st, mended.value.0, mended.value.1);
    return true, n, mended.value.1, replacement + (mended.value.0 + [NEWLINE]);
  }

  /** The loop; `done` unless a line was refused. */
  method MendLines(original: Bytes, parse: Parser) returns (done: bool, replacement: Bytes, st: State)
    requires original != [] && original[|original| - 1] == NEWLINE
    ensures var whole := MendAll(parse, Split(original), INITIAL);
            done == whole.Some? && (done ==> Text(whole.value.file) == replacement && whole.value.state == st)
  {
    ghost var rest := Split(original);
    ghost var whole := MendAll(parse, rest, INITIAL);
    ContinuesFirst(whole);
    done, replacement, st := true, [], INITIAL;
    var position: nat := 0;
    assert original[0..] == original;
    while position < |original|
      invariant done && position <= |original|
      invariant rest == Split(original[position..]) && Continues(whole, replacement, MendAll(parse, rest, st))
    {
      done, position, st, replacement := MendNext(original, parse, position, st, replacement, whole, rest);
      if !done { return; }
      rest := rest.rest;
    }
    ContinuesLast(parse, whole, replacement, st);
  }

  // ----- from end to end -----

  lemma SpliceUnbroken(a: Bytes, n: nat, b: Bytes)
    requires Unbroken(a) && Unbroken(b)
    ensures Unbroken(Splice(a, n, b))
  {
    assert forall i :: 0 <= i < |Print(n)| ==> IsDigit(Print(n)[i]);
  }

  lemma PartsUnbroken(line: Bytes, s: nat, e: nat)
    requires Unbroken(line) && s <= e <= |line|
    ensures Unbroken(line[..s]) && Unbroken(line[e..])
  {
  }

  lemma {:induction false} TextEnds(f: File)
    requires f.Cons?
    ensures Text(f) != [] && Text(f)[|Text(f)| - 1] == NEWLINE
  {
    if f.rest.Cons? { TextEnds(f.rest); }
  }

  lemma {:induction false} BeforeNewline(bytes: Bytes)
    ensures Unbroken(bytes[..FirstNewline(bytes)])
  {
    if bytes != [] && bytes[0] != NEWLINE {
      BeforeNewline(bytes[1..]);
      var n := FirstNewline(bytes[1..]);
      assert forall i :: 0 < i <= n ==> bytes[i] == bytes[1..][..n][i - 1];
    }
  }

  lemma {:induction false} SplitIsUnbroken(bytes: Bytes)
    ensures AllUnbroken(Split(bytes))
    decreases |bytes|
  {
    var n := FirstNewline(bytes);
    BeforeNewline(bytes);
    if n < |bytes| { SplitIsUnbroken(bytes[n + 1..]); }
  }

  /** The parts of a record around its ordinal hold no newline. */
  predicate NoNewlines(es: Entries) {
    es.More? ==> Unbroken(es.prefix) && Unbroken(es.suffix) && NoNewlines(es.rest)
  }

  lemma {:induction false} EntriesHaveNoNewlines(judge: Judge, f: File, marks: seq<bool>, n: nat)
    requires Gapless(judge, f, marks, n) && AllUnbroken(f)
    ensures NoNewlines(EntriesOf(judge, f, marks, n))
  {
    if f.Cons? {
      PartsUnbroken(f.line, Place(f.line, n).value.0, Place(f.line, n).value.1);
      EntriesHaveNoNewlines(judge, f.rest, marks[1..], n + 1);
    }
  }

  lemma {:induction false} DamagedUnbroken(es: Entries, n: nat, k: nat)
    requires NoNewlines(es)
    ensures AllUnbroken(Damaged(es, n, k))
    decreases es
  {
    if es.More? {
      SpliceUnbroken(es.prefix, Current(es, n, k), es.suffix);
      DamagedUnbroken(es.rest, n + 1, Lowered(es, k));
    }
  }

  lemma {:induction false} JoinUnbroken(h: File, f: File)
    ensures AllUnbroken(Join(h, f)) <==> AllUnbroken(h) && AllUnbroken(f)
  {
    if h.Cons? { JoinUnbroken(h.rest, f); }
  }

  /** The lines of a rollout whose count was not moved on at the marked records of `tail`, numbered from `n` on. */
  ghost function DamagedLines(judge: Judge, head: File, tail: File, marks: seq<bool>, n: nat): File
    requires Gapless(judge, tail, marks, n)
  {
    Join(head, Damaged(EntriesOf(judge, tail, marks, n), n, 0))
  }

  lemma {:induction false} RestoredEntries(judge: Judge, head: File, tail: File, marks: seq<bool>, base: nat, n: nat,
                                           es: Entries)
    requires head.Cons? && AllReadAs(Reader(judge), head, base) && Read(judge, head.line).value.session
    requires n == base + Length(head) && AllSound(Reader(judge), es, n, 0)
    requires Whole(es, n) == tail && Total(es) == |marks| && Chosen(es) == Count(marks)
    requires Length(head) + |marks| <= MAX_RECORDS && 1 <= Count(marks) <= MAX_DUPLICATES
    ensures var r := Normalized(Reader(judge), Join(head, Damaged(es, n, 0)));
            r.Some? && r.value.file == Join(head, tail) && r.value.state.duplicates == Count(marks)
  {
    RepairUndoesDamage(Reader(judge), head, es, base, n);
  }

  lemma RestoredLines(judge: Judge, head: File, tail: File, marks: seq<bool>, base: nat, n: nat)
    requires head.Cons? && AllReadAs(Reader(judge), head, base) && Read(judge, head.line).value.session
    requires n == base + Length(head) && Gapless(judge, tail, marks, n)
    requires Length(head) + |marks| <= MAX_RECORDS && 1 <= Count(marks) <= MAX_DUPLICATES
    ensures var r := Normalized(Reader(judge), DamagedLines(judge, head, tail, marks, n));
            r.Some? && r.value.file == Join(head, tail) && r.value.state.duplicates == Count(marks)
  {
    var es := EntriesOf(judge, tail, marks, n);
    EntriesAreTheFile(judge, tail, marks, n);
    EntriesAreSound(judge, tail, marks, n, 0, es);
    RestoredEntries(judge, head, tail, marks, base, n, es);
  }

  lemma DamagedLinesUnbroken(judge: Judge, head: File, tail: File, marks: seq<bool>, n: nat)
    requires Gapless(judge, tail, marks, n) && AllUnbroken(Join(head, tail))
    ensures AllUnbroken(DamagedLines(judge, head, tail, marks, n))
  {
    JoinUnbroken(head, tail);
    EntriesHaveNoNewlines(judge, tail, marks, n);
    DamagedUnbroken(EntriesOf(judge, tail, marks, n), n, 0);
    JoinUnbroken(head, Damaged(EntriesOf(judge, tail, marks, n), n, 0));
  }

  lemma NormalBytes(parse: Parser, f: File, o: Outcome)
    requires f.Cons? && AllUnbroken(f) && Normalized(parse, f) == Some(o)
    ensures var r := NormalizedBytes(parse, Text(f));
            r.Some? && r.value.bytes == Text(o.file) && r.value.boundaries == o.state.duplicates
  {
    SplitOfText(f);
    TextEnds(f);
  }

  /**
  From any bytes that end in a newline and whose lines read as numbered without a
  gap, those of `tail` in plain sight: after 1 to 64 records of applied settings
  in `tail` were not counted, the repair gives back every byte.
   */
  lemma BytesAreRestored(judge: Judge, original: Bytes, head: File, tail: File, marks: seq<bool>, base: nat, n: nat)
    requires original != [] && original[|original| - 1] == NEWLINE && Split(original) == Join(head, tail)
    requires head.Cons? && AllReadAs(Reader(judge), head, base) && Read(judge, head.line).value.session
    requires n == base + Length(head) && Gapless(judge, tail, marks, n)
    requires Length(head) + |marks| <= MAX_RECORDS && 1 <= Count(marks) <= MAX_DUPLICATES
    ensures var r := NormalizedBytes(Reader(judge), Text(DamagedLines(judge, head, tail, marks, n)));
            r.Some? && r.value.bytes == original && r.value.boundaries == Count(marks)
  {
    var damaged := DamagedLines(judge, head, tail, marks, n);
    SplitIsUnbroken(original);
    DamagedLinesUnbroken(judge, head, tail, marks, n);
    RestoredLines(judge, head, tail, marks, base, n);
    NormalBytes(Reader(judge), damaged, Normalized(Reader(judge), damaged).value);
    TextOfSplit(original);
  }

  lemma {:induction false} RewrittenIsUnbroken(f: File, g: File, n: nat)
    requires AllRewritten(f, g, n) && AllUnbroken(f)
    ensures AllUnbroken(g) && Length(g) == Length(f)
  {
    if f.Cons? && g.Cons? {
      RewrittenIsUnbroken(f.rest, g.rest, n + 1);
      if g.line != f.line {
        var c: nat, s: nat, e: nat :| IsOrdinal(f.line, c, s, e) && g.line == Renumber(f.line, (s, e), n);
        SpliceUnbroken(f.line[..s], n, f.line[e..]);
      }
    }
  }

  /** The bytes of a repaired file have as many lines, and are refused when repaired again. */
  lemma BytesAreFinal(parse: Parser, original: Bytes)
    requires NormalizedBytes(parse, original).Some?
    ensures var bytes := NormalizedBytes(parse, original).value.bytes;
            Length(Split(bytes)) == Length(Split(original)) && NormalizedBytes(parse, bytes).None?
  {
    var f := Split(original);
    var g := Normalized(parse, f).value.file;
    SplitIsUnbroken(original);
    RepairNumbers(parse, f);
    RewrittenIsUnbroken(f, g, parse(f.line).value.ordinal.value);
    SplitOfText(g);
    RepairIsFinal(parse, f);
  }
}
