/**
Repair of a rollout file whose record ordinals repeat at known boundaries:
what `normalize_duplicate_ordinals` makes of each line, as a function of the
lines before it.
 */
module Rollout {
  import opened Common
  import opened Decimal
  import opened OrdinalKey

  const MAX_RECORDS: nat := 1_000_000
  const MAX_DUPLICATES: nat := 64
  const NEWLINE: Byte := 10
  const RETURN: Byte := 13

  /**
  What a line reads as: its ordinal, whether an ordinal key is nested in it, and
  whether it is the thread's session record or the record of applied settings.
   */
  datatype Record = Record(ordinal: Option<nat>, nested: bool, session: bool, settings: bool)

  type Parser = Bytes -> Option<Record>

  /** The lines of a file, without their newlines. */
  datatype File = Nil | Cons(line: Bytes, rest: File)

  function Length(f: File): nat { if f.Nil? then 0 else 1 + Length(f.rest) }

  datatype State = State(index: nat, previous: Option<nat>, base: nat, duplicates: nat, repaired: nat)

  const INITIAL := State(0, None, 0, 0, 0)

  /** The place of the ordinal `n`, if `ordinal_digits` finds it. */
  ghost function Place(line: Bytes, n: nat): (r: Option<(nat, nat)>)
    ensures r.Some? ==> IsOrdinal(line, n, r.value.0, r.value.1)
    ensures r.None? ==> forall s, e :: !IsOrdinal(line, n, s, e)
  {
    if exists s, e :: IsOrdinal(line, n, s, e) then
      var s, e :| IsOrdinal(line, n, s, e);
      Some((s, e))
    else None
  }

  /** The ordinal of a line that has one and is otherwise acceptable at `index`. */
  function Admissible(parse: Parser, line: Bytes, index: nat): (r: Option<nat>)
    ensures r.Some? ==> parse(line).Some? && parse(line).value.ordinal == r && !parse(line).value.nested
    ensures r.Some? ==> r.value <= U64_MAX
  {
    if index >= MAX_RECORDS || line == [] || line[|line| - 1] == RETURN then None
    else
      var record := parse(line);
      if record.None? || record.value.ordinal.None? || record.value.ordinal.value > U64_MAX then None
      else if record.value.nested || (index == 0 && !record.value.session) then None
      else record.value.ordinal
  }

  /** How many repeated ordinals there are with this record, if it may follow. */
  function Follow(parse: Parser, line: Bytes, current: nat, st: State): Option<nat>
    requires parse(line).Some?
  {
    if st.previous.None? then Some(st.duplicates)
    else if current == st.previous.value then
      if !parse(line).value.settings || st.duplicates + 1 > MAX_DUPLICATES then None else Some(st.duplicates + 1)
    else if st.previous.value + 1 != current then None
    else Some(st.duplicates)
  }

  function BaseOf(st: State, current: nat): nat { if st.index == 0 then current else st.base }

  /** The line with its ordinal replaced. */
  function Renumber(line: Bytes, place: (nat, nat), n: nat): Bytes
    requires place.0 <= place.1 <= |line|
  {
    line[..place.0] + Print(n) + line[place.1..]
  }

  /** The line as it is written, and the state after it; `None` when the damage is not recognised. */
  ghost function Mend(parse: Parser, line: Bytes, st: State): Option<(Bytes, State)> {
    var current := Admissible(parse, line, st.index);
    if current.None? then None
    else
      var duplicates := Follow(parse, line, current.value, st);
      if duplicates.None? then None
      else if BaseOf(st, current.value) + st.index > U64_MAX then None
      else if BaseOf(st, current.value) + st.index != current.value + duplicates.value then None
      else Written(line, current.value, BaseOf(st, current.value), duplicates.value, st)
  }

  ghost function Written(line: Bytes, current: nat, base: nat, duplicates: nat, st: State): Option<(Bytes, State)> {
    var next := State(st.index + 1, Some(current), base, duplicates, st.repaired);
    if current == base + st.index then Some((line, next))
    else
      var place := Place(line, current);
      if place.None? then None
      else Some((Renumber(line, place.value, base + st.index), next.(repaired := st.repaired + 1)))
  }

  datatype Outcome = Outcome(file: File, state: State)

  ghost function MendAll(parse: Parser, f: File, st: State): Option<Outcome> {
    if f.Nil? then Some(Outcome(Nil, st))
    else
      var m := Mend(parse, f.line, st);
      if m.None? then None
      else
        var rest := MendAll(parse, f.rest, m.value.1);
        if rest.None? then None else Some(Outcome(Cons(m.value.0, rest.value.file), rest.value.state))
  }

  /** `normalize_duplicate_ordinals`, on lines. */
  ghost function Normalized(parse: Parser, f: File): Option<Outcome> {
    var r := MendAll(parse, f, INITIAL);
    if f.Nil? || r.None? || r.value.state.duplicates == 0 || r.value.state.repaired == 0 then None else r
  }

  // ----- what is known along the way -----

  ghost predicate StateOk(st: State) {
    if st.index == 0 then st.previous.None? && st.duplicates == 0 && st.repaired == 0
    else st.previous.Some? && st.base + st.index == st.previous.value + st.duplicates + 1
  }

  /** The check of the offset, once the sequence of ordinals was checked, never fires. */
  lemma OffsetAgrees(parse: Parser, line: Bytes, st: State)
    requires StateOk(st) && Admissible(parse, line, st.index).Some?
    requires Follow(parse, line, Admissible(parse, line, st.index).value, st).Some?
    ensures var current := Admissible(parse, line, st.index).value;
            BaseOf(st, current) + st.index == current + Follow(parse, line, current, st).value
  {
  }

  lemma MendKeepsState(parse: Parser, line: Bytes, st: State)
    requires StateOk(st) && Mend(parse, line, st).Some?
    ensures StateOk(Mend(parse, line, st).value.1)
  {
  }
}
