/** Where a rollout record keeps its ordinal: the digits after its only unspaced `ordinal` key. */
module OrdinalKey {
  import opened Common
  import opened Decimal

  /** The bytes of `"ordinal":`. */
  const NAME: Bytes := [34, 111, 114, 100, 105, 110, 97, 108, 34, 58]
  const COMMA: Byte := 44
  const OPEN: Byte := 123
  const CLOSE: Byte := 125

  /** What stands before `s` ends in `p`. */
  predicate EndsIn(line: Bytes, s: nat, p: Bytes)
    requires s <= |line|
    decreases |p|
  {
    p == [] || (s > 0 && line[s - 1] == p[|p| - 1] && EndsIn(line, s - 1, p[..|p| - 1]))
  }

  lemma {:induction false} EndsInIs(line: Bytes, s: nat, p: Bytes)
    requires s <= |line|
    ensures EndsIn(line, s, p) <==> |p| <= s && line[s - |p|..s] == p
    decreases |p|
  {
    if p != [] && s > 0 {
      EndsInIs(line, s - 1, p[..|p| - 1]);
      if |p| <= s {
        var w := line[s - |p|..s];
        assert w[..|p| - 1] == line[s - |p|..s - 1] && w[|p| - 1] == line[s - 1];
        assert w == w[..|p| - 1] + [w[|p| - 1]] && p == p[..|p| - 1] + [p[|p| - 1]];
      }
    }
  }

  predicate CommaKeyAt(line: Bytes, s: nat) { 11 <= s <= |line| && EndsIn(line, s, NAME) && line[s - 11] == COMMA }

  /** The key, after a comma or as the first of the record, ends at `s`. */
  predicate KeyEndsAt(line: Bytes, s: nat) {
    && 11 <= s <= |line| && EndsIn(line, s, NAME)
    && (line[s - 11] == COMMA || (s == 11 && line[0] == OPEN))
  }

  ghost predicate OnlyKey(line: Bytes, s: nat) {
    KeyEndsAt(line, s) && forall t :: KeyEndsAt(line, t) ==> t == s
  }

  /** Where the digits from `s` on end. */
  function DigitsEnd(line: Bytes, s: nat): (e: nat)
    requires s <= |line|
    ensures s <= e <= |line| && AllDigits(line[s..e]) && (e < |line| ==> !IsDigit(line[e]))
    decreases |line| - s
  {
    if s < |line| && IsDigit(line[s]) then
      var e := DigitsEnd(line, s + 1);
      assert forall i :: s < i < e ==> line[i] == line[s + 1..e][i - (s + 1)];
      e
    else s
  }

  predicate Closes(line: Bytes, e: nat) { e < |line| && (line[e] == COMMA || line[e] == CLOSE) }

  /** `line[s..e]` are the digits of the record's ordinal `n`. */
  ghost predicate IsOrdinal(line: Bytes, n: nat, s: nat, e: nat) {
    && s < e <= |line| && OnlyKey(line, s) && e == DigitsEnd(line, s) && Closes(line, e)
    && Value(line[s..e]) == n
  }

  /** Collects the ends of all keys, as the search over windows does. */
  method FindKeys(line: Bytes) returns (ends: seq<nat>)
    ensures forall t: nat :: t in ends <==> KeyEndsAt(line, t)
    ensures forall i, j :: 0 <= i < j < |ends| ==> ends[i] < ends[j]
  {
    ends := [];
    var s := 11;
    while s <= |line|
      invariant 11 <= s
      invariant forall t: nat :: t in ends <==> t < s && KeyEndsAt(line, t)
      invariant forall i, j :: 0 <= i < j < |ends| ==> ends[i] < ends[j]
    {
      EndsInIs(line, s, NAME);
      if line[s - 10..s] == NAME && (line[s - 11] == COMMA || (s == 11 && line[0] == OPEN)) {
        assert forall i :: 0 <= i < |ends| ==> ends[i] in ends;
        ends := ends + [s];
      }
      s := s + 1;
    }
  }

  /** `ordinal_digits`. */
  method OrdinalDigits(line: Bytes, parsed: nat) returns (r: Option<(nat, nat)>)
    ensures r.Some? ==> IsOrdinal(line, parsed, r.value.0, r.value.1)
    ensures r.None? ==> forall s, e :: !IsOrdinal(line, parsed, s, e)
  {
    var ends := FindKeys(line);
    if |ends| != 1 {
      if |ends| > 1 { assert ends[0] in ends && ends[1] in ends; }
      return None;
    }
    var s := ends[0];
    assert forall t: nat :: KeyEndsAt(line, t) ==> t in ends;
    assert s in ends;
    var e := s;
    while e < |line| && IsDigit(line[e])
      invariant s <= e <= |line| && DigitsEnd(line, s) == DigitsEnd(line, e)
    {
      e := e + 1;
    }
    if e == s || !Closes(line, e) || Value(line[s..e]) != parsed { return None; }
    r := Some((s, e));
  }

  // ----- the digits may be exchanged -----

  /** A line with the numeral of `n` between its two parts. */
  function Splice(a: Bytes, n: nat, b: Bytes): Bytes { a + Print(n) + b }

  /** Around an ordinal: the key ends the first part, which holds no other, and the second part closes the field. */
  ghost predicate KeySlot(a: Bytes, b: Bytes) {
    && OnlyKey(a, |a|) && Closes(b, 0)
    && forall t: nat :: !CommaKeyAt(b, t)
  }

  lemma NameHasNoDigit(line: Bytes, t: nat, i: nat)
    requires 10 <= t <= |line| && EndsIn(line, t, NAME) && t - 10 <= i < t
    ensures !IsDigit(line[i])
  {
    EndsInIs(line, t, NAME);
    assert line[i] == line[t - 10..t][i - (t - 10)];
  }

  lemma DigitOutsideKey(line: Bytes, t: nat, i: nat)
    requires KeyEndsAt(line, t) && i < |line| && IsDigit(line[i])
    ensures i < t - 11 || i >= t
  {
    if t - 10 <= i < t { NameHasNoDigit(line, t, i); }
  }

  /** A key in a line with a numeral lies before the numeral or behind it. */
  lemma KeyOutsideDigits(a: Bytes, ds: Bytes, b: Bytes, t: nat)
    requires ds != [] && AllDigits(ds) && KeyEndsAt(a + ds + b, t)
    ensures t <= |a| || t >= |a| + |ds| + 11
  {
    var line := a + ds + b;
    assert forall i :: |a| <= i < |a| + |ds| ==> line[i] == ds[i - |a|];
    NameHasNoDigit(line, t, t - 1);
    DigitOutsideKey(line, t, |a| + |ds| - 1);
  }

  lemma KeyBefore(a: Bytes, rest: Bytes, t: nat)
    requires t <= |a|
    ensures KeyEndsAt(a + rest, t) <==> KeyEndsAt(a, t)
  {
    if 11 <= t {
      EndsInIs(a, t, NAME);
      EndsInIs(a + rest, t, NAME);
      assert (a + rest)[t - 10..t] == a[t - 10..t];
    }
  }

  lemma KeyBehind(front: Bytes, b: Bytes, t: nat)
    requires |front| > 0 && |front| + 11 <= t <= |front| + |b|
    ensures KeyEndsAt(front + b, t) <==> CommaKeyAt(b, t - |front|)
  {
    var u := t - |front|;
    EndsInIs(b, u, NAME);
    EndsInIs(front + b, t, NAME);
    assert (front + b)[t - 10..t] == b[u - 10..u];
  }

  /** Whatever numeral stands in a slot, the key before it is the only one. */
  lemma SlotHasOnlyKey(a: Bytes, ds: Bytes, b: Bytes)
    requires KeySlot(a, b) && ds != [] && AllDigits(ds)
    ensures OnlyKey(a + ds + b, |a|)
  {
    var line := a + ds + b;
    assert line == a + (ds + b);
    KeyBefore(a, ds + b, |a|);
    forall t: nat | KeyEndsAt(line, t) ensures t == |a| {
      KeyOutsideDigits(a, ds, b, t);
      if t <= |a| { KeyBefore(a, ds + b, t); } else { KeyBehind(a + ds, b, t); }
    }
  }

  /** The digits in a slot end where the second part starts. */
  lemma {:induction false} SlotDigitsEnd(a: Bytes, ds: Bytes, b: Bytes, i: nat)
    requires AllDigits(ds) && i <= |ds| && Closes(b, 0)
    ensures DigitsEnd(a + ds + b, |a| + i) == |a| + |ds|
    decreases |ds| - i
  {
    var line := a + ds + b;
    if i < |ds| {
      assert line[|a| + i] == ds[i];
      SlotDigitsEnd(a, ds, b, i + 1);
    } else {
      assert line[|a| + i] == b[0];
    }
  }

  lemma SlotShape(a: Bytes, ds: Bytes, b: Bytes, line: Bytes)
    requires AllDigits(ds) && Closes(b, 0) && line == a + ds + b
    ensures DigitsEnd(line, |a|) == |a| + |ds| && Closes(line, |a| + |ds|) && line[|a|..|a| + |ds|] == ds
  {
    SlotDigitsEnd(a, ds, b, 0);
    assert line[|a| + |ds|] == b[0];
  }

  lemma FilledSlot(a: Bytes, ds: Bytes, b: Bytes, line: Bytes)
    requires KeySlot(a, b) && ds != [] && AllDigits(ds) && line == a + ds + b
    ensures IsOrdinal(line, Value(ds), |a|, |a| + |ds|)
  {
    SlotHasOnlyKey(a, ds, b);
    SlotShape(a, ds, b, line);
  }

  /** `ordinal_digits` finds the numeral a slot was filled with. */
  lemma SlotIsOrdinal(a: Bytes, n: nat, b: Bytes)
    requires KeySlot(a, b)
    ensures IsOrdinal(Splice(a, n, b), n, |a|, |a| + |Print(n)|)
  {
    FilledSlot(a, Print(n), b, Splice(a, n, b));
    ValueOfPrint(n);
  }

  /** The parts of a line around its ordinal are such a slot. */
  lemma OrdinalIsSlot(line: Bytes, n: nat, s: nat, e: nat)
    requires IsOrdinal(line, n, s, e)
    ensures KeySlot(line[..s], line[e..])
  {
    var a, b := line[..s], line[e..];
    assert line == a + line[s..] && line == line[..e] + b;
    KeyBefore(a, line[s..], s);
    forall t: nat | KeyEndsAt(a, t) ensures t == s { KeyBefore(a, line[s..], t); }
    forall t: nat ensures !CommaKeyAt(b, t) {
      if 11 <= t <= |b| { KeyBehind(line[..e], b, e + t); }
    }
  }

  /** The place of the ordinal is determined by the line. */
  lemma OrdinalIsUnique(line: Bytes, n: nat, s: nat, e: nat, m: nat, t: nat, f: nat)
    requires IsOrdinal(line, n, s, e) && IsOrdinal(line, m, t, f)
    ensures s == t && e == f && n == m
  {
  }
}
