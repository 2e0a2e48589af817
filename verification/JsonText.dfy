/** The text of one JSON record as tokens, and which of its keys decides its ordinal. */
module JsonText {
  import opened Common
  import opened Decimal
  import opened OrdinalKey

  const QUOTE: Byte := 34
  const BACKSLASH: Byte := 92
  const COLON: Byte := 58

  /** A punctuation mark, a string without its quotes, a number, or one of the three words. */
  datatype Token = Mark(byte: Byte) | Text(raw: Bytes) | Number(raw: Bytes) | Word(raw: Bytes)

  predicate IsSpace(b: Byte) { b == 32 || b == 9 || b == 10 || b == 13 }

  predicate IsMark(b: Byte) { b == OPEN || b == CLOSE || b == 91 || b == 93 || b == COMMA || b == COLON }

  predicate IsNumeric(b: Byte) { IsDigit(b) || b == 43 || b == 45 || b == 46 || b == 69 || b == 101 }

  /** Where the closing quote of a string is; the length if there is none. */
  function QuoteAt(r: Bytes): (n: nat)
    ensures n <= |r| && (n < |r| ==> r[n] == QUOTE)
    decreases |r|
  {
    if r == [] || r[0] == QUOTE then 0
    else if r[0] == BACKSLASH && |r| >= 2 then 2 + QuoteAt(r[2..])
    else 1 + QuoteAt(r[1..])
  }

  function NumberEnd(r: Bytes): (n: nat)
    ensures n <= |r| && forall i :: 0 <= i < n ==> IsNumeric(r[i])
  {
    if r == [] || !IsNumeric(r[0]) then 0
    else
      var n := NumberEnd(r[1..]);
      assert forall i :: 1 <= i < n + 1 ==> r[i] == r[1..][i - 1];
      n + 1
  }

  const TRUE: Bytes := [116, 114, 117, 101]
  const FALSE: Bytes := [102, 97, 108, 115, 101]
  const NULL: Bytes := [110, 117, 108, 108]

  function WordEnd(r: Bytes): (n: nat)
    ensures n <= |r|
  {
    if TRUE <= r then 4 else if FALSE <= r then 5 else if NULL <= r then 4 else 0
  }

  /** The first token of a text, unless it is a space, and its length; 0 if there is none. */
  function First(r: Bytes): (p: (Option<Token>, nat))
    requires r != []
    ensures p.1 <= |r| && (p.1 == 0 ==> p.0.None?)
  {
    if IsSpace(r[0]) then (None, 1)
    else if IsMark(r[0]) then (Some(Mark(r[0])), 1)
    else if r[0] == QUOTE then
      var n := QuoteAt(r[1..]);
      if n == |r| - 1 then (None, 0) else (Some(Text(r[1..n + 1])), n + 2)
    else if IsNumeric(r[0]) then (Some(Number(r[..NumberEnd(r)])), NumberEnd(r))
    else var n := WordEnd(r); if n == 0 then (None, 0) else (Some(Word(r[..n])), n)
  }

  function Led(t: Option<Token>, rest: Option<seq<Token>>): Option<seq<Token>> {
    if rest.None? || t.None? then rest else Some([t.value] + rest.value)
  }

  /** The tokens of a text; `None` where some part of it is none. */
  function Lex(r: Bytes): Option<seq<Token>>
    decreases |r|
  {
    if r == [] then Some([])
    else
      var (t, n) := First(r);
      if n == 0 then None else Led(t, Lex(r[n..]))
  }

  // ----- the text before a key is tokens of its own -----

  lemma {:induction false} QuoteStays(x: Bytes, y: Bytes)
    requires QuoteAt(x) < |x|
    ensures QuoteAt(x + y) == QuoteAt(x)
    decreases |x|
  {
    if x[0] == QUOTE {
    } else if x[0] == BACKSLASH && |x| >= 2 {
      assert (x + y)[2..] == x[2..] + y;
      QuoteStays(x[2..], y);
    } else {
      assert (x + y)[1..] == x[1..] + y;
      QuoteStays(x[1..], y);
    }
  }

  lemma {:induction false} NumberStays(x: Bytes, y: Bytes)
    requires NumberEnd(x) < |x|
    ensures NumberEnd(x + y) == NumberEnd(x)
  {
    if IsNumeric(x[0]) {
      assert (x + y)[1..] == x[1..] + y;
      NumberStays(x[1..], y);
    }
  }

  lemma WordStays(x: Bytes, y: Bytes)
    requires 0 < WordEnd(x)
    ensures WordEnd(x + y) == WordEnd(x)
  {
    BeginsAlike(x, y, TRUE);
    BeginsAlike(x, y, FALSE);
    BeginsAlike(x, y, NULL);
    assert x[0] == (x + y)[0];
  }

  lemma BeginsAlike(x: Bytes, y: Bytes, w: Bytes)
    requires w != []
    ensures w <= x ==> w <= x + y && x[0] == w[0]
    ensures w <= x + y ==> (x + y)[0] == w[0]
  {
  }

  /** A token that ends before the text does is the same whatever follows. */
  lemma FirstStays(x: Bytes, y: Bytes)
    requires x != [] && 0 < First(x).1 && (First(x).1 < |x| || IsMark(x[0]))
    ensures First(x + y) == First(x)
  {
    if IsSpace(x[0]) || IsMark(x[0]) {
    } else if x[0] == QUOTE {
      assert (x + y)[1..] == x[1..] + y;
      QuoteStays(x[1..], y);
      var n := QuoteAt(x[1..]);
      assert (x + y)[1..n + 1] == x[1..n + 1];
    } else if IsNumeric(x[0]) {
      NumberStays(x, y);
      assert (x + y)[..NumberEnd(x)] == x[..NumberEnd(x)];
    } else {
      WordStays(x, y);
      assert (x + y)[..WordEnd(x)] == x[..WordEnd(x)];
    }
  }

  lemma EndsInColon(a: Bytes)
    requires a != [] && a[|a| - 1] == COLON && 0 < First(a).1
    ensures First(a).1 < |a| || IsMark(a[0])
  {
  }

  lemma LedTwice(t: Option<Token>, x: seq<Token>, y: Option<seq<Token>>)
    ensures Led(t, if y.None? then None else Some(x + y.value))
            == if y.None? then None else Some(Led(t, Some(x)).value + y.value)
  {
    if t.Some? && y.Some? { assert [t.value] + (x + y.value) == [t.value] + x + y.value; }
  }

  /** After a colon, tokens start afresh. */
  lemma {:induction false} LexAppend(a: Bytes, r: Bytes)
    requires a != [] && a[|a| - 1] == COLON && Lex(a).Some?
    ensures Lex(a + r) == if Lex(r).None? then None else Some(Lex(a).value + Lex(r).value)
    decreases |a|
  {
    var (t, n) := First(a);
    EndsInColon(a);
    FirstStays(a, r);
    assert (a + r)[n..] == a[n..] + r;
    if n < |a| {
      LexAppend(a[n..], r);
      LedTwice(t, Lex(a[n..]).value, Lex(r));
    } else {
      assert a[n..] == [] && [] + r == r;
      LedTwice(t, [], Lex(r));
      if Lex(r).Some? { assert [] + Lex(r).value == Lex(r).value; }
    }
  }

  // ----- a key in sight is a key -----

  /** The bytes of `,"ordinal":`. */
  const KEY: Bytes := [COMMA] + NAME

  /** A string that has not ended before the key would end at the key's first quote. */
  lemma {:induction false} StringEndsAtKey(x: Bytes, y: Bytes)
    ensures QuoteAt(x + KEY + y) < |x| || QuoteAt(x + KEY + y) == |x| + 1
    decreases |x|
  {
    var r := x + KEY + y;
    assert r[|x|] == COMMA && r[|x| + 1] == QUOTE;
    if x == [] {
      assert r[1..][0] == QUOTE;
    } else if x[0] == QUOTE {
    } else if x[0] == BACKSLASH && |x| >= 2 {
      assert r[2..] == x[2..] + KEY + y;
      StringEndsAtKey(x[2..], y);
    } else if x[0] == BACKSLASH {
      assert r[2..][0] == QUOTE;
    } else {
      assert r[1..] == x[1..] + KEY + y;
      StringEndsAtKey(x[1..], y);
    }
  }

  lemma LetterIsNoToken(r: Bytes)
    requires r != [] && r[0] == NAME[1]
    ensures Lex(r).None?
  {
  }

  /** The first token before a key ends before it. */
  lemma FirstBeforeKey(x: Bytes, y: Bytes)
    requires x != [] && Lex(x + KEY + y).Some?
    ensures 0 < First(x + KEY + y).1 <= |x|
  {
    var r := x + KEY + y;
    var (t, n) := First(r);
    assert r[|x|] == COMMA;
    if IsSpace(r[0]) || IsMark(r[0]) {
    } else if r[0] == QUOTE {
      assert r[1..] == x[1..] + KEY + y;
      StringEndsAtKey(x[1..], y);
      if n > |x| { LetterIsNoToken(r[n..]); }
    } else if IsNumeric(r[0]) {
      assert n <= |x|;
    } else if n > |x| {
      WordHasNoComma(r, |x|);
    }
  }

  lemma WordHasNoComma(r: Bytes, i: nat)
    requires i < WordEnd(r)
    ensures r[i] != COMMA
  {
    var w := if TRUE <= r then TRUE else if FALSE <= r then FALSE else NULL;
    assert r[..|w|] == w && r[i] == w[i];
  }

  lemma {:induction false} QuotePrefix(x: Bytes, y: Bytes)
    requires QuoteAt(x + y) < |x|
    ensures QuoteAt(x) == QuoteAt(x + y)
    decreases |x|
  {
    if x[0] == QUOTE {
    } else if x[0] == BACKSLASH && |x| >= 2 {
      assert (x + y)[2..] == x[2..] + y;
      QuotePrefix(x[2..], y);
    } else if x[0] != BACKSLASH {
      assert (x + y)[1..] == x[1..] + y;
      QuotePrefix(x[1..], y);
    }
  }

  lemma {:induction false} NumberPrefix(x: Bytes, y: Bytes)
    requires NumberEnd(x + y) < |x|
    ensures NumberEnd(x) == NumberEnd(x + y)
  {
    if IsNumeric(x[0]) {
      assert (x + y)[1..] == x[1..] + y;
      NumberPrefix(x[1..], y);
    }
  }

  /** A token that ends within a part of the text is the first of that part. */
  lemma FirstPrefix(x: Bytes, y: Bytes)
    requires x != [] && 0 < First(x + y).1 < |x|
    ensures First(x) == First(x + y)
  {
    if IsSpace(x[0]) || IsMark(x[0]) {
    } else if x[0] == QUOTE {
      assert (x + y)[1..] == x[1..] + y;
      QuotePrefix(x[1..], y);
      var n := QuoteAt(x[1..]);
      assert (x + y)[1..n + 1] == x[1..n + 1];
    } else if IsNumeric(x[0]) {
      NumberPrefix(x, y);
      assert (x + y)[..NumberEnd(x)] == x[..NumberEnd(x)];
    } else {
      var n := WordEnd(x + y);
      assert forall w: Bytes :: w <= x + y && |w| <= |x| ==> w <= x;
      assert (x + y)[..n] == x[..n];
    }
  }

  lemma NextLetter(r: Bytes, n: nat)
    requires r != [] && r[0] != QUOTE && r[0] != BACKSLASH && QuoteAt(r[1..]) == n
    ensures QuoteAt(r) == n + 1
  {
  }

  lemma NameEnds()
    ensures QuoteAt(NAME[1..]) == 7
  {
    NextLetter(NAME[7..], 0);
    NextLetter(NAME[6..], 1);
    NextLetter(NAME[5..], 2);
    NextLetter(NAME[4..], 3);
    NextLetter(NAME[3..], 4);
    NextLetter(NAME[2..], 5);
    NextLetter(NAME[1..], 6);
  }

  lemma LexNext(r: Bytes, t: Token, n: nat, rest: seq<Token>)
    requires r != [] && First(r) == (Some(t), n) && n > 0 && Lex(r[n..]) == Some(rest)
    ensures Lex(r) == Some([t] + rest)
  {
  }

  lemma ColonLexes()
    ensures Lex([COLON]) == Some([Mark(COLON)])
  {
    LexNext([COLON], Mark(COLON), 1, []);
    assert [Mark(COLON)] + [] == [Mark(COLON)];
  }

  lemma NameLexes()
    ensures Lex(NAME) == Some([Text(NAME[1..8])] + [Mark(COLON)])
  {
    NameEnds();
    assert First(NAME) == (Some(Text(NAME[1..8])), 9);
    assert NAME[9..] == [COLON];
    ColonLexes();
    LexNext(NAME, Text(NAME[1..8]), 9, [Mark(COLON)]);
  }

  lemma KeyLexes(mark: Byte)
    requires IsMark(mark)
    ensures Lex([mark] + NAME).Some?
  {
    NameLexes();
    assert ([mark] + NAME)[1..] == NAME;
  }

  /** In a text of tokens, what comes before a key in sight, and the key, are tokens of their own. */
  lemma {:induction false} LexToKey(x: Bytes, y: Bytes)
    requires Lex(x + KEY + y).Some?
    ensures Lex(x + KEY).Some?
    decreases |x|
  {
    var a := x + KEY;
    if x == [] {
      KeyLexes(COMMA);
      assert a == KEY;
    } else {
      FirstBeforeKey(x, y);
      FirstPrefix(a, y);
      var n := First(a).1;
      assert (a + y)[n..] == x[n..] + KEY + y && a[n..] == x[n..] + KEY;
      LexToKey(x[n..], y);
    }
  }

  // ----- the ordinal of a record -----

  function HexDigit(b: Byte): int {
    if IsDigit(b) then b - 48 else if 65 <= b <= 70 then b - 55 else if 97 <= b <= 102 then b - 87 else -1
  }

  /** The characters of a string; an escape that is none gives -1. */
  function Characters(raw: Bytes): seq<int>
    decreases |raw|
  {
    if raw == [] then []
    else if raw[0] != BACKSLASH then [raw[0]] + Characters(raw[1..])
    else if |raw| >= 6 && raw[1] == 117 then
      [((HexDigit(raw[2]) * 16 + HexDigit(raw[3])) * 16 + HexDigit(raw[4])) * 16 + HexDigit(raw[5])]
      + Characters(raw[6..])
    else if |raw| >= 2 then [Escaped(raw[1])] + Characters(raw[2..])
    else [-1]
  }

  function Escaped(b: Byte): int {
    if b == QUOTE || b == BACKSLASH || b == 47 then b
    else if b == 98 then 8 else if b == 102 then 12 else if b == 110 then 10 else if b == 114 then 13
    else if b == 116 then 9 else -1
  }

  /** The letters of the name. */
  const LETTERS: seq<int> := [111, 114, 100, 105, 110, 97, 108]

  /** How deep in objects and arrays the n-th token stands. */
  function Depth(ts: seq<Token>, n: nat): int
    requires n <= |ts|
  {
    if n == 0 then 0
    else
      Depth(ts, n - 1)
      + if ts[n - 1] == Mark(OPEN) || ts[n - 1] == Mark(91) then 1
        else if ts[n - 1] == Mark(CLOSE) || ts[n - 1] == Mark(93) then -1 else 0
  }

  /** The i-th token is a key of the record, however written, that reads `ordinal`, and a value follows. */
  predicate OrdinalKeyAt(ts: seq<Token>, i: nat) {
    && i + 2 < |ts| && ts[i].Text? && Characters(ts[i].raw) == LETTERS && ts[i + 1] == Mark(COLON) && Depth(ts, i) == 1
  }

  /** The value of the last such key before the n-th token: where a key is repeated, the last one counts. */
  function LastValue(ts: seq<Token>, n: nat): (k: Option<nat>)
    requires n <= |ts|
    ensures k.Some? ==> k.value < |ts|
  {
    if n == 0 then None
    else if OrdinalKeyAt(ts, n - 1) then Some(n + 1)
    else LastValue(ts, n - 1)
  }

  /** Exchanging a number for another moves no key. */
  lemma {:induction false} DepthStays(ts: seq<Token>, k: nat, raw: Bytes, n: nat)
    requires k < |ts| && ts[k].Number? && n <= |ts|
    ensures Depth(ts[k := Number(raw)], n) == Depth(ts, n)
  {
    if n > 0 { DepthStays(ts, k, raw, n - 1); }
  }

  lemma {:induction false} LastValueStays(ts: seq<Token>, k: nat, raw: Bytes, n: nat)
    requires k < |ts| && ts[k].Number? && n <= |ts|
    ensures LastValue(ts[k := Number(raw)], n) == LastValue(ts, n)
  {
    if n > 0 {
      DepthStays(ts, k, raw, n - 1);
      LastValueStays(ts, k, raw, n - 1);
    }
  }
}
