/**
Records whose repair is accepted although it leaves them reading as before: their
unspaced `ordinal` key is not the last of their `ordinal` keys.
 */
module RolloutMisled {
  import opened Common
  import opened Decimal
  import opened OrdinalKey
  import opened JsonText
  import opened Rollout
  import opened RolloutRepair
  import opened RolloutReader

  // ----- two records, the second of which is misled -----

  /** Both read as `c`; the first is the thread's session record, the second one of applied settings. */
  ghost predicate RepeatsOnce(judge: Judge, first: Bytes, second: Bytes, c: nat) {
    && first != [] && first[|first| - 1] != RETURN && second != [] && second[|second| - 1] != RETURN
    && Read(judge, first).Some? && Read(judge, second).Some?
    && var r, t := Read(judge, first).value, Read(judge, second).value;
       r.ordinal == t.ordinal == Some(c) && !r.nested && !t.nested && r.session && t.settings
  }

  lemma RepeatIsAccepted(judge: Judge, first: Bytes, second: Bytes, c: nat)
    requires RepeatsOnce(judge, first, second, c) && c < U64_MAX && Place(second, c).Some?
    ensures Normalized(Reader(judge), Cons(first, Cons(second, Nil))).Some?
  {
    var parse := Reader(judge);
    var next := State(1, Some(c), c, 0, 0);
    assert Mend(parse, first, INITIAL) == Some((first, next));
    assert Mend(parse, second, next).Some?;
    var last := Mend(parse, second, next).value;
    assert last.1 == State(2, Some(c), c, 1, 1);
    MendAllStep(parse, second, Nil, next, last.0, last.1, Outcome(Nil, last.1));
    MendAllStep(parse, first, Cons(second, Nil), INITIAL, first, next, Outcome(Cons(last.0, Nil), last.1));
  }

  /** The repair of a repeated ordinal is accepted, and misses if the unspaced key is not the last. */
  lemma RepeatIsMissed(judge: Judge, first: Bytes, second: Bytes, c: nat)
    requires RepeatsOnce(judge, first, second, c) && c < U64_MAX
    requires Place(second, c).Some? && !LastKeyEndsAt(second, Place(second, c).value.0)
    ensures Normalized(Reader(judge), Cons(first, Cons(second, Nil))).Some?
    ensures var f := Cons(first, Cons(second, Nil));
            !AllNumbered(Reader(judge), f, Normalized(Reader(judge), f).value.file, c)
  {
    var f := Cons(first, Cons(second, Nil));
    RepeatIsAccepted(judge, first, second, c);
    RepairNumbersExactly(judge, f);
    assert !InPlainSight(judge, second, c + 1);
    assert f.rest.line == second;
  }

  // ----- tokens as they are written -----

  predicate IsPlain(raw: Bytes) { forall i :: 0 <= i < |raw| ==> raw[i] != QUOTE && raw[i] != BACKSLASH }

  predicate Simple(t: Token) { (t.Mark? && IsMark(t.byte)) || (t.Text? && IsPlain(t.raw)) }

  predicate AllSimple(ts: seq<Token>) { forall i :: 0 <= i < |ts| ==> Simple(ts[i]) }

  function Write(t: Token): Bytes { if t.Mark? then [t.byte] else [QUOTE] + t.raw + [QUOTE] }

  function WriteAll(ts: seq<Token>): Bytes { if ts == [] then [] else Write(ts[0]) + WriteAll(ts[1..]) }

  lemma {:induction false} PlainEnds(raw: Bytes, rest: Bytes)
    requires IsPlain(raw)
    ensures QuoteAt(raw + [QUOTE] + rest) == |raw|
  {
    var r := raw + [QUOTE] + rest;
    if raw == [] {
      assert r[0] == QUOTE;
    } else {
      assert r[1..] == raw[1..] + [QUOTE] + rest && r[0] == raw[0];
      PlainEnds(raw[1..], rest);
    }
  }

  lemma WrittenFirst(t: Token, rest: Bytes)
    requires Simple(t)
    ensures First(Write(t) + rest) == (Some(t), |Write(t)|)
  {
    var r := Write(t) + rest;
    if t.Text? {
      assert r[0] == QUOTE && r[1..] == t.raw + [QUOTE] + rest;
      PlainEnds(t.raw, rest);
      assert r[1..|t.raw| + 1] == t.raw;
    }
  }

  lemma WrittenNext(t: Token, r: Bytes, us: seq<Token>)
    requires Simple(t) && Lex(r) == Some(us)
    ensures Lex(Write(t) + r) == Some([t] + us)
  {
    WrittenFirst(t, r);
    assert (Write(t) + r)[|Write(t)|..] == r;
    LexNext(Write(t) + r, t, |Write(t)|, us);
  }

  lemma Regroup(a: Bytes, b: Bytes, c: Bytes)
    ensures a + b + c == a + (b + c)
  {
  }

  lemma {:induction false} WriteNext(ts: seq<Token>, rest: Bytes)
    requires ts != []
    ensures WriteAll(ts) + rest == Write(ts[0]) + (WriteAll(ts[1..]) + rest)
  {
    Regroup(Write(ts[0]), WriteAll(ts[1..]), rest);
  }

  lemma WrittenStep(t: Token, ts: seq<Token>, r: Bytes, line: Bytes, us: seq<Token>)
    requires Simple(t) && Lex(r) == Some(ts + us) && line == Write(t) + r
    ensures Lex(line) == Some([t] + ts + us)
  {
    WrittenNext(t, r, ts + us);
    assert [t] + (ts + us) == [t] + ts + us;
  }

  /** Tokens that are written are read back. */
  lemma {:induction false} WrittenLexes(ts: seq<Token>, rest: Bytes, us: seq<Token>)
    requires AllSimple(ts) && Lex(rest) == Some(us)
    ensures Lex(WriteAll(ts) + rest) == Some(ts + us)
  {
    if ts == [] {
      assert WriteAll(ts) + rest == rest && ts + us == us;
    } else {
      WrittenLexes(ts[1..], rest, us);
      WriteNext(ts, rest);
      WrittenStep(ts[0], ts[1..], WriteAll(ts[1..]) + rest, WriteAll(ts) + rest, us);
      assert ts == [ts[0]] + ts[1..];
    }
  }

  // ----- a record with its key after other members -----

  /** The tokens of the key, after a comma. */
  const KEY_TOKENS: seq<Token> := [Mark(COMMA), Text(LETTERS), Mark(COLON)]

  /** The bytes of `,"ordinal" :` with a space. */
  const SPACED: Bytes := [COMMA, 34, 111, 114, 100, 105, 110, 97, 108, 34, 32, COLON]

  lemma KeyIs()
    ensures Lex(KEY) == Some(KEY_TOKENS)
  {
    NameLexes();
    assert NAME[1..8] == LETTERS && KEY[1..] == NAME;
    LexNext(KEY, Mark(COMMA), 1, [Text(LETTERS)] + [Mark(COLON)]);
    assert [Mark(COMMA)] + ([Text(LETTERS)] + [Mark(COLON)]) == KEY_TOKENS;
  }

  lemma SpaceLexes()
    ensures Lex(SPACED[10..]) == Some([Mark(COLON)])
  {
    ColonLexes();
    assert SPACED[10..][1..] == [COLON];
  }

  lemma SpacedIs()
    ensures Lex(SPACED) == Some(KEY_TOKENS)
  {
    SpaceLexes();
    var ts := [Mark(COMMA), Text(LETTERS)];
    assert WriteAll(ts[2..]) == [];
    assert WriteAll(ts[1..]) == Write(ts[1]) + WriteAll(ts[2..]);
    assert ts[1..][1..] == ts[2..];
    assert WriteAll(ts) == [COMMA] + ([QUOTE] + LETTERS + [QUOTE]);
    assert SPACED == WriteAll(ts) + SPACED[10..];
    WrittenLexes(ts, SPACED[10..], [Mark(COLON)]);
    assert ts + [Mark(COLON)] == KEY_TOKENS;
  }

  /** The members before the key: an object is open, and no string in it reads as the key does. */
  predicate Opening(xs: seq<Token>) {
    AllSimple(xs) && Depth(xs, |xs|) == 1 && Text(LETTERS) !in xs
  }

  function UpToKey(xs: seq<Token>): Bytes { WriteAll(xs) + KEY }

  lemma EndsInKey(x: Bytes, a: Bytes)
    requires a == x + KEY
    ensures |a| >= 11 && a[|a| - 1] == COLON && KeyEndsAt(a, |a|)
  {
    EndsInIs(a, |a|, NAME);
    assert a[|a| - 10..] == NAME && a[|a| - 1] == KEY[10] && a[|a| - 11] == KEY[0];
  }

  lemma {:induction false} UpToKeyIs(xs: seq<Token>, a: Bytes)
    requires AllSimple(xs) && a == UpToKey(xs)
    ensures Lex(a) == Some(xs + KEY_TOKENS) && |a| >= 11 && a[|a| - 1] == COLON && KeyEndsAt(a, |a|)
  {
    KeyIs();
    WrittenLexes(xs, KEY, KEY_TOKENS);
    EndsInKey(WriteAll(xs), a);
  }

  /** The tokens end in those of a key. */
  predicate KeyIsLast(ts: seq<Token>) { |ts| >= 2 && ts[|ts| - 2] == Text(LETTERS) }

  lemma LexStep(r: Bytes, n: nat)
    requires r != [] && n == First(r).1 > 0 && Lex(r).Some?
    ensures Lex(r[n..]).Some? && (KeyIsLast(Lex(r[n..]).value) ==> KeyIsLast(Lex(r).value))
  {
  }

  lemma KeyAfterFirst(x: Bytes, a: Bytes, n: nat)
    requires x != [] && a == x + KEY && Lex(a).Some? && n == First(a).1
    ensures 0 < n <= |x| && a[n..] == x[n..] + KEY
  {
    assert x + KEY + [] == a;
    FirstBeforeKey(x, []);
  }

  lemma {:induction false} KeyTokensLast(x: Bytes, a: Bytes)
    requires a == x + KEY && Lex(a).Some?
    ensures KeyIsLast(Lex(a).value)
    decreases |x|
  {
    if x == [] {
      KeyIs();
      assert a == KEY;
    } else {
      var n := First(a).1;
      KeyAfterFirst(x, a, n);
      LexStep(a, n);
      KeyTokensLast(x[n..], a[n..]);
    }
  }

  lemma FirstKeyTokens(a: Bytes)
    requires a == [OPEN] + NAME
    ensures Lex(a).Some? && KeyIsLast(Lex(a).value)
  {
    NameLexes();
    assert NAME[1..8] == LETTERS && a[1..] == NAME;
    LexNext(a, Mark(OPEN), 1, [Text(LETTERS)] + [Mark(COLON)]);
  }

  lemma {:induction false} BlankEnds(r: Bytes)
    requires Lex(r) == Some([]) && r != []
    ensures IsSpace(r[|r| - 1])
    decreases |r|
  {
    if r[1..] != [] { BlankEnds(r[1..]); }
  }

  lemma KeyStandsLast(a: Bytes, b: Bytes, t: nat)
    requires KeyEndsAt(a, t) && b == a[..t]
    ensures |b| >= 11 && b[t - 10..] == NAME && (b[t - 11] == COMMA || (t == 11 && b[0] == OPEN))
  {
    EndsInIs(a, t, NAME);
    assert b[t - 10..] == a[t - 10..t];
  }

  lemma CutAt(b: Bytes, n: nat, mark: Byte, r: Bytes)
    requires n < |b| && b[n] == mark && b[n + 1..] == r
    ensures b == b[..n] + ([mark] + r)
  {
    assert b == b[..n] + [b[n]] + b[n + 1..];
  }

  lemma KeyTokensBefore(a: Bytes, b: Bytes, t: nat)
    requires KeyEndsAt(a, t) && b == a[..t] && Lex(b).Some?
    ensures KeyIsLast(Lex(b).value)
  {
    KeyStandsLast(a, b, t);
    if b[t - 11] == COMMA {
      CutAt(b, t - 11, COMMA, NAME);
      KeyTokensLast(b[..t - 11], b);
    } else {
      CutAt(b, 0, OPEN, NAME);
      assert b == [OPEN] + NAME;
      FirstKeyTokens(b);
    }
  }

  /** A key in sight within a text of tokens ends the tokens before it. */
  lemma KeyInSight(a: Bytes, t: nat, b: Bytes, r: Bytes)
    requires Lex(a).Some? && KeyEndsAt(a, t) && b == a[..t] && r == a[t..]
    ensures Lex(b).Some? && Lex(r).Some? && Lex(a).value == Lex(b).value + Lex(r).value
    ensures KeyIsLast(Lex(b).value)
  {
    BeforeDigits(a, t);
    assert a == b + r;
    LexAppend(b, r);
    KeyTokensBefore(a, b, t);
  }

  lemma {:induction false} NoOtherKey(xs: seq<Token>, a: Bytes, t: nat)
    requires AllSimple(xs) && Text(LETTERS) !in xs && a == UpToKey(xs) && KeyEndsAt(a, t)
    ensures t == |a|
  {
    UpToKeyIs(xs, a);
    KeyInSight(a, t, a[..t], a[t..]);
    var ts := Lex(a[..t]).value;
    assert (xs + KEY_TOKENS)[|ts| - 2] == Text(LETTERS);
    assert |ts| - 2 == |xs| + 1;
    assert Lex(a[t..]).value == [];
    if t < |a| { BlankEnds(a[t..]); }
  }

  lemma {:induction false} OpeningHasOneKey(xs: seq<Token>)
    requires Opening(xs)
    ensures OnlyKey(UpToKey(xs), |UpToKey(xs)|)
  {
    UpToKeyIs(xs, UpToKey(xs));
    forall t: nat | KeyEndsAt(UpToKey(xs), t) ensures t == |UpToKey(xs)| { NoOtherKey(xs, UpToKey(xs), t); }
  }

  // ----- which of two keys counts -----

  lemma {:induction false} DepthBefore(xs: seq<Token>, ys: seq<Token>, n: nat)
    requires n <= |xs|
    ensures Depth(xs + ys, n) == Depth(xs, n)
  {
    if n > 0 { DepthBefore(xs, ys, n - 1); }
  }

  lemma NoKey(ts: seq<Token>, n: nat)
    requires 0 < n <= |ts| && !ts[n - 1].Text?
    ensures LastValue(ts, n) == LastValue(ts, n - 1)
  {
  }

  lemma {:induction false} LettersRead(raw: Bytes)
    requires IsPlain(raw)
    ensures Characters(raw) == raw
  {
    if raw != [] {
      LettersRead(raw[1..]);
      assert raw == [raw[0]] + raw[1..];
    }
  }

  lemma NameReads() returns (raw: Bytes)
    ensures raw == LETTERS && Characters(raw) == raw
  {
    raw := LETTERS;
    LettersRead(raw);
  }

  lemma KeyAt(ts: seq<Token>, i: nat)
    requires OrdinalKeyAt(ts, i)
    ensures LastValue(ts, i + 1) == Some(i + 2)
  {
  }

  /** A key that is followed by a value and the end of the record is the last one. */
  lemma {:induction false} LastKeyCounts(ts: seq<Token>, i: nat, raw: Bytes)
    requires |ts| == i + 4 && ts[i] == Text(raw) && ts[i + 1] == Mark(COLON) && !ts[i + 2].Text? && !ts[i + 3].Text?
    requires Depth(ts, i) == 1 && Characters(raw) == LETTERS
    ensures LastValue(ts, |ts|) == Some(i + 2)
  {
    KeyAt(ts, i);
    NoKey(ts, i + 4);
    NoKey(ts, i + 3);
    NoKey(ts, i + 2);
  }

  /** A record with one key, and the tokens of one with a second key, which is spaced. */
  function Ending(c: nat): seq<Token> { [Number(Print(c)), Mark(CLOSE)] }

  function OneKey(xs: seq<Token>, c: nat): seq<Token> { xs + KEY_TOKENS + Ending(c) }

  function TwoKeys(xs: seq<Token>, c: nat): seq<Token> {
    xs + KEY_TOKENS + ([Number(Print(c))] + (KEY_TOKENS + Ending(c)))
  }

  lemma {:induction false} OneKeyShape(xs: seq<Token>, c: nat, ts: seq<Token>)
    requires ts == OneKey(xs, c)
    ensures var i := |xs| + 1;
            && |ts| == i + 4 && ts[i] == Text(LETTERS) && ts[i + 1] == Mark(COLON)
            && ts[i + 2].Number? && ts[i + 3].Mark? && Depth(ts, i) == Depth(xs, |xs|)
  {
    assert ts == xs + (KEY_TOKENS + Ending(c));
    DepthBefore(xs, KEY_TOKENS + Ending(c), |xs|);
  }

  lemma {:induction false} OneKeyCounts(xs: seq<Token>, c: nat)
    requires Depth(xs, |xs|) == 1
    ensures LastValue(OneKey(xs, c), |OneKey(xs, c)|) == Some(|xs| + 3)
  {
    OneKeyShape(xs, c, OneKey(xs, c));
    var raw := NameReads();
    LastKeyCounts(OneKey(xs, c), |xs| + 1, raw);
  }

  lemma {:induction false} TwoKeysDepth(ts: seq<Token>, n: nat)
    requires n + 5 <= |ts| && ts[n] == Mark(COMMA) && ts[n + 1].Text? && ts[n + 2] == Mark(COLON)
    requires ts[n + 3].Number? && ts[n + 4] == Mark(COMMA)
    ensures Depth(ts, n + 5) == Depth(ts, n)
  {
    assert Depth(ts, n + 1) == Depth(ts, n);
    assert Depth(ts, n + 2) == Depth(ts, n);
    assert Depth(ts, n + 3) == Depth(ts, n);
    assert Depth(ts, n + 4) == Depth(ts, n);
  }

  lemma {:induction false} TwoKeysShape(xs: seq<Token>, c: nat, ts: seq<Token>)
    requires ts == TwoKeys(xs, c)
    ensures var i := |xs| + 5;
            && |ts| == i + 4 && ts[i] == Text(LETTERS) && ts[i + 1] == Mark(COLON)
            && ts[i + 2].Number? && ts[i + 3].Mark? && Depth(ts, i) == Depth(xs, |xs|)
  {
    var rest := KEY_TOKENS + ([Number(Print(c))] + (KEY_TOKENS + Ending(c)));
    assert ts == xs + rest;
    DepthBefore(xs, rest, |xs|);
    TwoKeysDepth(ts, |xs|);
  }

  lemma {:induction false} TwoKeysCount(xs: seq<Token>, c: nat)
    requires Depth(xs, |xs|) == 1
    ensures LastValue(TwoKeys(xs, c), |TwoKeys(xs, c)|) == Some(|xs| + 7)
  {
    TwoKeysShape(xs, c, TwoKeys(xs, c));
    var raw := NameReads();
    LastKeyCounts(TwoKeys(xs, c), |xs| + 5, raw);
  }

  // ----- the two lines -----

  function Line(xs: seq<Token>, c: nat): Bytes { UpToKey(xs) + Print(c) + [CLOSE] }

  function Tail(c: nat): Bytes { SPACED + Print(c) + [CLOSE] }

  function MisledLine(xs: seq<Token>, c: nat): Bytes { UpToKey(xs) + Print(c) + Tail(c) }

  lemma CloseLexes()
    ensures Lex([CLOSE]) == Some([Mark(CLOSE)])
  {
    LexNext([CLOSE], Mark(CLOSE), 1, []);
    assert [Mark(CLOSE)] + [] == [Mark(CLOSE)];
  }

  lemma {:induction false} TailLexes(c: nat)
    ensures Lex(Tail(c)) == Some(KEY_TOKENS + Ending(c))
  {
    SpacedIs();
    CloseLexes();
    PrintIsNumeral(c);
    SlotLexes(SPACED, Print(c), [CLOSE]);
    assert [Number(Print(c))] + [Mark(CLOSE)] == Ending(c);
  }

  lemma {:induction false} LinesLex(xs: seq<Token>, c: nat)
    requires AllSimple(xs)
    ensures Lex(Line(xs, c)) == Some(OneKey(xs, c)) && Lex(MisledLine(xs, c)) == Some(TwoKeys(xs, c))
  {
    UpToKeyIs(xs, UpToKey(xs));
    CloseLexes();
    TailLexes(c);
    PrintIsNumeral(c);
    SlotLexes(UpToKey(xs), Print(c), [CLOSE]);
    SlotLexes(UpToKey(xs), Print(c), Tail(c));
    assert [Number(Print(c))] + [Mark(CLOSE)] == Ending(c);
  }

  lemma PrintedIs(c: nat)
    requires c <= U64_MAX
    ensures NumberOf(Number(Print(c))) == Some(c)
  {
    PrintIsNumeral(c);
    ValueOfPrint(c);
  }

  lemma {:induction false} ReadsAs(judge: Judge, line: Bytes, ts: seq<Token>, k: nat, c: nat)
    requires Lex(line) == Some(ts) && LastValue(ts, |ts|) == Some(k) && k < |ts| && ts[k] == Number(Print(c))
    requires c <= U64_MAX && Read(judge, line).Some?
    ensures Read(judge, line).value.ordinal == Some(c)
  {
    PrintedIs(c);
  }

  lemma {:induction false} LineReads(judge: Judge, xs: seq<Token>, c: nat)
    requires Opening(xs) && c <= U64_MAX && Read(judge, Line(xs, c)).Some?
    ensures Read(judge, Line(xs, c)).value.ordinal == Some(c)
  {
    LinesLex(xs, c);
    OneKeyCounts(xs, c);
    ReadsAs(judge, Line(xs, c), OneKey(xs, c), |xs| + 3, c);
  }

  lemma {:induction false} SecondNumber(xs: seq<Token>, c: nat, ts: seq<Token>)
    requires ts == TwoKeys(xs, c)
    ensures |xs| + 7 < |ts| && ts[|xs| + 7] == Number(Print(c))
  {
    var rest := KEY_TOKENS + ([Number(Print(c))] + (KEY_TOKENS + Ending(c)));
    assert ts == xs + rest && rest[7] == Number(Print(c));
  }

  lemma {:induction false} MisledReads(judge: Judge, xs: seq<Token>, c: nat)
    requires Opening(xs) && c <= U64_MAX && Read(judge, MisledLine(xs, c)).Some?
    ensures Read(judge, MisledLine(xs, c)).value.ordinal == Some(c)
  {
    LinesLex(xs, c);
    TwoKeysCount(xs, c);
    SecondNumber(xs, c, TwoKeys(xs, c));
    ReadsAs(judge, MisledLine(xs, c), TwoKeys(xs, c), |xs| + 7, c);
  }

  lemma TailHasNoKey(c: nat, t: nat)
    ensures !CommaKeyAt(Tail(c), t)
  {
    PrintIsNumeral(c);
    var b := Tail(c);
    assert forall i :: 12 <= i < |b| - 1 ==> b[i] == Print(c)[i - 12];
  }

  lemma {:induction false} TailCloses(xs: seq<Token>, c: nat)
    requires Opening(xs)
    ensures KeySlot(UpToKey(xs), Tail(c))
  {
    OpeningHasOneKey(xs);
    forall t: nat ensures !CommaKeyAt(Tail(c), t) { TailHasNoKey(c, t); }
  }

  lemma {:induction false} MisledPlace(xs: seq<Token>, c: nat)
    requires Opening(xs)
    ensures Place(MisledLine(xs, c), c).Some? && Place(MisledLine(xs, c), c).value.0 == |UpToKey(xs)|
  {
    TailCloses(xs, c);
    SlotIsOrdinal(UpToKey(xs), c, Tail(c));
    var line, place := MisledLine(xs, c), Place(MisledLine(xs, c), c).value;
    OrdinalIsUnique(line, c, |UpToKey(xs)|, |UpToKey(xs)| + |Print(c)|, c, place.0, place.1);
  }

  lemma {:induction false} MisledKey(xs: seq<Token>, c: nat)
    requires Opening(xs)
    ensures |UpToKey(xs)| <= |MisledLine(xs, c)| && !LastKeyEndsAt(MisledLine(xs, c), |UpToKey(xs)|)
  {
    LinesLex(xs, c);
    TwoKeysCount(xs, c);
    UpToKeyIs(xs, UpToKey(xs));
    assert MisledLine(xs, c)[..|UpToKey(xs)|] == UpToKey(xs);
  }

  /**
  Whoever takes the first line for the thread's session record and the second for
  a record of applied settings accepts the repair, which leaves the second reading as before.
   */
  lemma {:induction false} SpacedKeyMisleads(judge: Judge, xs: seq<Token>, ys: seq<Token>, c: nat)
    requires Opening(xs) && Opening(ys) && c < U64_MAX
    requires Read(judge, Line(xs, c)).Some? && Read(judge, MisledLine(ys, c)).Some?
    requires var r := Read(judge, Line(xs, c)).value; !r.nested && r.session
    requires var r := Read(judge, MisledLine(ys, c)).value; !r.nested && r.settings
    ensures var f := Cons(Line(xs, c), Cons(MisledLine(ys, c), Nil));
            && Normalized(Reader(judge), f).Some?
            && !AllNumbered(Reader(judge), f, Normalized(Reader(judge), f).value.file, c)
  {
    LineReads(judge, xs, c);
    MisledReads(judge, ys, c);
    MisledPlace(ys, c);
    MisledKey(ys, c);
    RepeatIsMissed(judge, Line(xs, c), MisledLine(ys, c), c);
  }

  // ----- records with a type and a payload -----

  function Ascii(s: string): Bytes { seq(|s|, i requires 0 <= i < |s| => s[i] as int) }

  function Quoted(s: string): Token { Text(Ascii(s)) }

  /** The tokens of `{"type":kind,"payload":{key:value}`. */
  function Members(kind: Token, key: Token, value: Token): seq<Token> {
    [Mark(OPEN), Quoted("type"), Mark(COLON), kind, Mark(COMMA),
     Quoted("payload"), Mark(COLON), Mark(OPEN), key, Mark(COLON), value, Mark(CLOSE)]
  }

  lemma {:induction false} MembersDepth(ts: seq<Token>, kind: Token, key: Token, value: Token)
    requires ts == Members(kind, key, value) && kind.Text? && key.Text? && value.Text?
    ensures Depth(ts, |ts|) == 1
  {
    assert Depth(ts, 1) == 1;
    assert Depth(ts, 2) == 1;
    assert Depth(ts, 3) == 1;
    assert Depth(ts, 4) == 1;
    assert Depth(ts, 5) == 1;
    assert Depth(ts, 6) == 1;
    assert Depth(ts, 7) == 1;
    assert Depth(ts, 8) == 2;
    assert Depth(ts, 9) == 2;
    assert Depth(ts, 10) == 2;
    assert Depth(ts, 11) == 2;
  }

  /** A plain string other than the key. */
  predicate IsOther(t: Token) { t.Text? && Simple(t) && t.raw != LETTERS }

  lemma {:induction false} MembersOpen(kind: Token, key: Token, value: Token)
    requires IsOther(kind) && IsOther(key) && IsOther(value)
    ensures Opening(Members(kind, key, value))
  {
    MembersDepth(Members(kind, key, value), kind, key, value);
    assert Ascii("payload")[0] == 112;
    assert IsOther(Quoted("type")) && IsOther(Quoted("payload"));
  }

  /** The session record of the thread `id`, and a record of applied settings, up to their ordinals. */
  function SessionMembers(id: Bytes): seq<Token> { Members(Quoted("session_meta"), Quoted("id"), Text(id)) }

  function SettingsMembers(): seq<Token> {
    Members(Quoted("event_msg"), Quoted("type"), Quoted("thread_settings_applied"))
  }

  /** Two such records of one thread; the second has a spaced key after its unspaced one. */
  function TwoRecords(id: Bytes, c: nat): File {
    Cons(Line(SessionMembers(id), c), Cons(MisledLine(SettingsMembers(), c), Nil))
  }

  lemma {:induction false} RecordsOpen(id: Bytes)
    requires IsPlain(id) && id != LETTERS
    ensures Opening(SessionMembers(id)) && Opening(SettingsMembers())
  {
    MembersOpen(Quoted("session_meta"), Quoted("id"), Text(id));
    MembersOpen(Quoted("event_msg"), Quoted("type"), Quoted("thread_settings_applied"));
  }

  /** Records that carry what the repair asks for are misled as well. */
  lemma {:induction false} RecordsMislead(judge: Judge, id: Bytes, c: nat)
    requires IsPlain(id) && id != LETTERS && c < U64_MAX
    requires var r := Read(judge, Line(SessionMembers(id), c)); r.Some? && !r.value.nested && r.value.session
    requires var r := Read(judge, MisledLine(SettingsMembers(), c)); r.Some? && !r.value.nested && r.value.settings
    ensures Normalized(Reader(judge), TwoRecords(id, c)).Some?
    ensures !AllNumbered(Reader(judge), TwoRecords(id, c), Normalized(Reader(judge), TwoRecords(id, c)).value.file, c)
  {
    RecordsOpen(id);
    SpacedKeyMisleads(judge, SessionMembers(id), SettingsMembers(), c);
  }
}
