/**
Reading a rollout record: which of its keys gives its ordinal, and when exactly
exchanging the digits after its only unspaced `ordinal` key changes what it reads as.
 */
module RolloutReader {
  import opened Common
  import opened Decimal
  import opened OrdinalKey
  import opened JsonText
  import opened Rollout
  import opened RolloutRepair

  /** What a record says apart from its ordinal, or that it is no acceptable JSON. */
  datatype Rest = Rest(nested: bool, session: bool, settings: bool)

  /** Any way to judge the tokens of a record, the value of its ordinal left out. */
  type Judge = seq<Token> -> Option<Rest>

  function NumberOf(t: Token): Option<nat> {
    if t.Number? && IsNumeral(t.raw) && Value(t.raw) <= U64_MAX then Some(Value(t.raw)) else None
  }

  /** What a line reads as: of several `ordinal` keys, however written, the last one counts. */
  function Read(judge: Judge, line: Bytes): Option<Record> {
    var lexed := Lex(line);
    if lexed.None? then None
    else
      var ts := lexed.value;
      var k := LastValue(ts, |ts|);
      if k.None? then None
      else
        var rest := judge(ts[k.value := Number([])]);
        if rest.None? then None
        else Some(Record(NumberOf(ts[k.value]), rest.value.nested, rest.value.session, rest.value.settings))
  }

  function Reader(judge: Judge): Parser { line => Read(judge, line) }

  /** What starts at `s` is the value of the last `ordinal` key. */
  predicate LastKeyEndsAt(line: Bytes, s: nat)
    requires s <= |line|
  {
    && Lex(line).Some? && Lex(line[..s]).Some?
    && LastValue(Lex(line).value, |Lex(line).value|) == Some(|Lex(line[..s]).value|)
  }

  // ----- exchanging digits exchanges one token -----

  lemma DigitsAreNumeric(ds: Bytes, b: Bytes)
    requires AllDigits(ds) && b != [] && !IsNumeric(b[0])
    ensures NumberEnd(ds + b) == |ds|
  {
    if ds == [] {
      assert [] + b == b;
    } else {
      assert (ds + b)[1..] == ds[1..] + b;
      DigitsAreNumeric(ds[1..], b);
    }
  }

  lemma DigitsLex(ds: Bytes, b: Bytes)
    requires ds != [] && AllDigits(ds) && Closes(b, 0)
    ensures Lex(ds + b) == Led(Some(Number(ds)), Lex(b))
  {
    DigitsAreNumeric(ds, b);
    assert (ds + b)[0] == ds[0] && (ds + b)[..|ds|] == ds && (ds + b)[|ds|..] == b;
  }

  /** The text before the digits is tokens of its own. */
  lemma BeforeDigits(line: Bytes, s: nat)
    requires KeyEndsAt(line, s) && Lex(line).Some?
    ensures Lex(line[..s]).Some? && line[..s] != [] && line[..s][s - 1] == COLON
  {
    EndsInIs(line, s, NAME);
    assert line[s - 10..s][9] == line[s - 1];
    if line[s - 11] == COMMA {
      var x, y := line[..s - 11], line[s..];
      assert line[s - 11..s] == KEY;
      assert line[..s] == x + KEY && line == x + KEY + y;
      LexToKey(x, y);
    } else {
      KeyLexes(OPEN);
      assert line[..11] == [OPEN] + line[1..11];
    }
  }

  lemma SlotLexes(a: Bytes, ds: Bytes, b: Bytes)
    requires a != [] && a[|a| - 1] == COLON && Lex(a).Some? && ds != [] && AllDigits(ds) && Closes(b, 0)
    ensures Lex(a + ds + b) == if Lex(b).None? then None else Some(Lex(a).value + ([Number(ds)] + Lex(b).value))
  {
    DigitsLex(ds, b);
    LexAppend(a, ds + b);
    assert a + ds + b == a + (ds + b);
  }

  lemma OneToken(x: seq<Token>, t: Token, y: seq<Token>, u: Token)
    ensures |x| < |x + ([t] + y)| && (x + ([t] + y))[|x|] == t
    ensures (x + ([t] + y))[|x| := u] == x + ([u] + y)
  {
  }

  lemma Cut3(line: Bytes, s: nat, e: nat)
    requires s <= e <= |line|
    ensures line == line[..s] + line[s..e] + line[e..]
  {
  }

  lemma SlotExchanges(line: Bytes, a: Bytes, ds: Bytes, b: Bytes, es: Bytes, out: Bytes)
    requires line == a + ds + b && out == a + es + b && Lex(line).Some?
    requires a != [] && a[|a| - 1] == COLON && Lex(a).Some? && Closes(b, 0)
    requires ds != [] && AllDigits(ds) && es != [] && AllDigits(es)
    ensures var ts, k := Lex(line).value, |Lex(a).value|;
            k < |ts| && ts[k] == Number(ds) && Lex(out) == Some(ts[k := Number(es)])
  {
    SlotLexes(a, ds, b);
    SlotLexes(a, es, b);
    OneToken(Lex(a).value, Number(ds), Lex(b).value, Number(es));
  }

  lemma OrdinalParts(line: Bytes, c: nat, s: nat, e: nat)
    requires IsOrdinal(line, c, s, e)
    ensures KeyEndsAt(line, s) && line[s..e] != [] && AllDigits(line[s..e]) && Closes(line[e..], 0)
  {
    assert line[e..][0] == line[e];
  }

  /** Only the token after the unspaced key is exchanged. */
  lemma RenumberLexes(line: Bytes, c: nat, s: nat, e: nat, n: nat)
    requires IsOrdinal(line, c, s, e) && Lex(line).Some?
    ensures Lex(line[..s]).Some? && |Lex(line[..s]).value| < |Lex(line).value|
    ensures var ts, k := Lex(line).value, |Lex(line[..s]).value|;
            ts[k] == Number(line[s..e]) && Lex(Renumber(line, (s, e), n)) == Some(ts[k := Number(Print(n))])
  {
    OrdinalParts(line, c, s, e);
    BeforeDigits(line, s);
    Cut3(line, s, e);
    SlotExchanges(line, line[..s], line[s..e], line[e..], Print(n), Renumber(line, (s, e), n));
  }

  /**
  Exchanging the digits in sight makes the record read as the new number, and
  nothing else, if and only if they belong to the last of its `ordinal` keys.
   */
  lemma RenumberReads(judge: Judge, line: Bytes, c: nat, s: nat, e: nat, n: nat)
    requires Read(judge, line).Some? && Read(judge, line).value.ordinal == Some(c) && IsOrdinal(line, c, s, e)
    requires n != c && n <= U64_MAX
    ensures Read(judge, Renumber(line, (s, e), n)) == Some(Read(judge, line).value.(ordinal := Some(n)))
            <==> LastKeyEndsAt(line, s)
  {
    RenumberLexes(line, c, s, e, n);
    var ts, k := Lex(line).value, |Lex(line[..s]).value|;
    LastValueStays(ts, k, Print(n), |ts|);
    PrintIsNumeral(n);
    ValueOfPrint(n);
    if LastKeyEndsAt(line, s) { assert ts[k := Number(Print(n))][k := Number([])] == ts[k := Number([])]; }
  }

  // ----- whole files -----

  /** If the line's ordinal is not `n`, its digits in sight belong to the last of its `ordinal` keys. */
  ghost predicate InPlainSight(judge: Judge, line: Bytes, n: nat) {
    var r := Read(judge, line);
    r.Some? && r.value.ordinal.Some? && r.value.ordinal.value != n && Place(line, r.value.ordinal.value).Some? ==>
      LastKeyEndsAt(line, Place(line, r.value.ordinal.value).value.0)
  }

  ghost predicate AllInPlainSight(judge: Judge, f: File, n: nat) {
    f.Cons? ==> InPlainSight(judge, f.line, n) && AllInPlainSight(judge, f.rest, n + 1)
  }

  lemma RenumbersExactly(judge: Judge, line: Bytes, n: nat)
    requires n <= U64_MAX
    ensures Renumbers(Reader(judge), line, n) <==> InPlainSight(judge, line, n)
  {
    var r := Read(judge, line);
    if r.Some? && r.value.ordinal.Some? && r.value.ordinal.value != n && Place(line, r.value.ordinal.value).Some? {
      var c := r.value.ordinal.value;
      RenumberReads(judge, line, c, Place(line, c).value.0, Place(line, c).value.1, n);
    }
  }

  lemma RenumberExactlyFrom(judge: Judge, f: File, n: nat)
    requires f.Cons? && n <= U64_MAX
    requires AllRenumber(Reader(judge), f.rest, n + 1) <==> AllInPlainSight(judge, f.rest, n + 1)
    ensures AllRenumber(Reader(judge), f, n) <==> AllInPlainSight(judge, f, n)
  {
    RenumbersExactly(judge, f.line, n);
  }

  lemma {:induction false} AllRenumberExactly(judge: Judge, f: File, n: nat)
    requires n + Length(f) <= U64_MAX + 1
    ensures AllRenumber(Reader(judge), f, n) <==> AllInPlainSight(judge, f, n)
  {
    if f.Cons? {
      AllRenumberExactly(judge, f.rest, n + 1);
      RenumberExactlyFrom(judge, f, n);
    }
  }

  lemma {:induction false} NumbersFit(parse: Parser, f: File, st: State)
    requires StateOk(st) && st.index > 0 && st.base + st.index <= U64_MAX + 1 && MendAll(parse, f, st).Some?
    ensures st.base + st.index + Length(f) <= U64_MAX + 1
  {
    if f.Cons? {
      MendMoves(parse, f.line, st);
      MendKeepsState(parse, f.line, st);
      NumbersFit(parse, f.rest, Mend(parse, f.line, st).value.1);
    }
  }

  /**
  The lines of an accepted repair read as numbered one after the other if and only
  if in every line whose ordinal was not in place the unspaced `ordinal` key is the
  last of its `ordinal` keys.
   */
  lemma RepairNumbersExactly(judge: Judge, f: File)
    requires Normalized(Reader(judge), f).Some?
    ensures f.Cons? && Read(judge, f.line).Some? && Read(judge, f.line).value.ordinal.Some?
    ensures var g, n := Normalized(Reader(judge), f).value.file, Read(judge, f.line).value.ordinal.value;
            AllNumbered(Reader(judge), f, g, n) <==> AllInPlainSight(judge, f, n)
  {
    RepairNumbers(Reader(judge), f);
    var out, next := FirstMended(Reader(judge), f.line);
    NumbersFit(Reader(judge), f.rest, next);
    AllRenumberExactly(judge, f, next.base);
  }

  // ----- any rollout without a gap -----

  /** A record that reads as number `n`, the digits in sight being those of its last `ordinal` key. */
  ghost predicate Plain(judge: Judge, line: Bytes, n: nat) {
    && Read(judge, line).Some? && Read(judge, line).value.ordinal == Some(n)
    && Place(line, n).Some? && LastKeyEndsAt(line, Place(line, n).value.0)
  }

  /** A record of a rollout without a gap; marked ones are records of applied settings. */
  ghost predicate InOrder(judge: Judge, line: Bytes, marked: bool, n: nat) {
    && Plain(judge, line, n) && line[|line| - 1] != RETURN
    && !Read(judge, line).value.nested && (marked ==> Read(judge, line).value.settings)
  }

  ghost predicate Gapless(judge: Judge, f: File, marks: seq<bool>, n: nat) {
    && |marks| == Length(f)
    && (f.Cons? ==> InOrder(judge, f.line, marks[0], n) && Gapless(judge, f.rest, marks[1..], n + 1))
  }

  function Count(marks: seq<bool>): nat { if marks == [] then 0 else Count(marks[1..]) + if marks[0] then 1 else 0 }

  /** The records around their ordinals, those marked chosen. */
  ghost function EntriesOf(judge: Judge, f: File, marks: seq<bool>, n: nat): Entries
    requires Gapless(judge, f, marks, n)
  {
    if f.Nil? then End
    else
      var place := Place(f.line, n).value;
      More(f.line[..place.0], f.line[place.1..], marks[0], EntriesOf(judge, f.rest, marks[1..], n + 1))
  }

  lemma PlainDigits(judge: Judge, line: Bytes, n: nat, s: nat, e: nat)
    requires Plain(judge, line, n) && IsOrdinal(line, n, s, e) && LastKeyEndsAt(line, s)
    ensures n <= U64_MAX && IsNumeral(line[s..e])
  {
    RenumberLexes(line, n, s, e, n);
  }

  /** The digits in sight are written as they would be printed. */
  lemma PlainSplice(judge: Judge, line: Bytes, n: nat, s: nat, e: nat)
    requires Plain(judge, line, n) && Place(line, n) == Some((s, e))
    ensures n <= U64_MAX && Splice(line[..s], n, line[e..]) == line && KeySlot(line[..s], line[e..])
  {
    OrdinalIsSlot(line, n, s, e);
    PlainDigits(judge, line, n, s, e);
    PrintOfValue(line[s..e]);
    Cut3(line, s, e);
  }

  lemma {:induction false} EntriesAreTheFile(judge: Judge, f: File, marks: seq<bool>, n: nat)
    requires Gapless(judge, f, marks, n)
    ensures var es := EntriesOf(judge, f, marks, n);
            Whole(es, n) == f && Total(es) == Length(f) && Chosen(es) == Count(marks)
  {
    if f.Cons? {
      var (s, e) := Place(f.line, n).value;
      PlainSplice(judge, f.line, n, s, e);
      EntriesAreTheFile(judge, f.rest, marks[1..], n + 1);
    }
  }

  lemma PlainIsSound(judge: Judge, es: Entries, line: Bytes, n: nat, s: nat, e: nat)
    requires es.More? && InOrder(judge, line, es.chosen, n) && Place(line, n) == Some((s, e))
    requires es.prefix == line[..s] && es.suffix == line[e..]
    ensures Sound(Reader(judge), es, n) && Splice(es.prefix, n, es.suffix) == line
  {
    PlainSplice(judge, line, n, s, e);
  }

  lemma PlainReadsAlike(judge: Judge, es: Entries, line: Bytes, n: nat, s: nat, e: nat, m: nat)
    requires es.More? && Plain(judge, line, n) && Place(line, n) == Some((s, e)) && m <= n
    requires es.prefix == line[..s] && es.suffix == line[e..] && Splice(es.prefix, n, es.suffix) == line
    ensures ReadsAlike(Reader(judge), es, n, m)
  {
    PlainSplice(judge, line, n, s, e);
    if m != n { RenumberReads(judge, line, n, s, e, m); }
  }

  lemma EntryIsSound(judge: Judge, es: Entries, line: Bytes, n: nat, s: nat, e: nat, m: nat)
    requires es.More? && InOrder(judge, line, es.chosen, n) && Place(line, n) == Some((s, e)) && m <= n
    requires es.prefix == line[..s] && es.suffix == line[e..]
    ensures Sound(Reader(judge), es, n) && ReadsAlike(Reader(judge), es, n, m)
  {
    PlainIsSound(judge, es, line, n, s, e);
    PlainReadsAlike(judge, es, line, n, s, e, m);
  }

  lemma EntriesUnfold(judge: Judge, f: File, marks: seq<bool>, n: nat, es: Entries, s: nat, e: nat)
    requires f.Cons? && Gapless(judge, f, marks, n)
    requires es == EntriesOf(judge, f, marks, n) && Place(f.line, n) == Some((s, e))
    ensures Gapless(judge, f.rest, marks[1..], n + 1) && InOrder(judge, f.line, marks[0], n)
    ensures s <= e <= |f.line|
    ensures es == More(f.line[..s], f.line[e..], marks[0], EntriesOf(judge, f.rest, marks[1..], n + 1))
  {
  }

  lemma FrontIsSound(judge: Judge, f: File, marks: seq<bool>, n: nat, es: Entries, m: nat)
    requires f.Cons? && Gapless(judge, f, marks, n) && es == EntriesOf(judge, f, marks, n) && m <= n
    ensures Sound(Reader(judge), es, n) && ReadsAlike(Reader(judge), es, n, m)
  {
    var (s, e) := Place(f.line, n).value;
    EntriesUnfold(judge, f, marks, n, es, s, e);
    EntryIsSound(judge, es, f.line, n, s, e, m);
  }

  lemma SoundFrom(judge: Judge, f: File, marks: seq<bool>, n: nat, k: nat, es: Entries)
    requires f.Cons? && Gapless(judge, f, marks, n) && es == EntriesOf(judge, f, marks, n)
    requires AllSound(Reader(judge), es.rest, n + 1, Lowered(es, k))
    ensures AllSound(Reader(judge), es, n, k)
  {
    FrontIsSound(judge, f, marks, n, es, Current(es, n, k));
  }

  lemma {:induction false} EntriesAreSound(judge: Judge, f: File, marks: seq<bool>, n: nat, k: nat, es: Entries)
    requires Gapless(judge, f, marks, n) && es == EntriesOf(judge, f, marks, n)
    ensures AllSound(Reader(judge), es, n, k)
    decreases f
  {
    if f.Cons? {
      EntriesAreSound(judge, f.rest, marks[1..], n + 1, Lowered(es, k), es.rest);
      SoundFrom(judge, f, marks, n, k, es);
    }
  }
}
