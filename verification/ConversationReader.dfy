/** Reading one page: the window, `parse_page`, and the cap on a message's text. */
module ConversationReader {
  import opened Common
  import opened Conversation

  /** `read_bounded_history_file_window`; an end beyond the file is an error. */
  method ReadWindow(file: Bytes, before: Option<nat>) returns (window: Option<(nat, Bytes)>)
    ensures var end := if before.Some? then before.value else |file|;
            if end > |file| then window.None?
            else
              window == if end <= 4_194_304 then Some((0, file[..end]))
                        else Some((end - 4_194_304, file[end - 4_194_304..end]))
  {
    var end := if before.Some? then before.value else |file|;
    if end > |file| { return None; }
    var start := if end < WINDOW_BYTES then 0 else end - WINDOW_BYTES;
    window := Some((start, file[start..end]));
  }

  /** A line, by its place in the file. */
  datatype Span = Span(from: nat, to: nat)

  ghost predicate IsLine(file: Bytes, first: nat, end: nat, line: Span) {
    && first <= line.from < end <= |file| && Starts(file, first, line.from)
    && line.to == LineEnd(file, line.from, end)
  }

  /** The first `n` lines are those of `file[first..position]`, in order. */
  ghost predicate Laid(file: Bytes, first: nat, end: nat, lines: seq<Span>, n: nat, position: nat)
    requires n <= |lines|
  {
    if n == 0 then position == first
    else
      var line := lines[n - 1];
      IsLine(file, first, end, line) && line.to == position && Laid(file, first, end, lines, n - 1, line.from)
  }

  lemma {:induction false} LaidStays(file: Bytes, first: nat, end: nat, lines: seq<Span>, n: nat, position: nat,
                                     line: Span)
    requires n <= |lines| && Laid(file, first, end, lines, n, position)
    ensures Laid(file, first, end, lines + [line], n, position)
  {
    if n > 0 { LaidStays(file, first, end, lines, n - 1, lines[n - 1].from, line); }
  }

  lemma LaidOneMore(file: Bytes, first: nat, end: nat, lines: seq<Span>, line: Span)
    requires Laid(file, first, end, lines, |lines|, line.from) && IsLine(file, first, end, line)
    ensures Laid(file, first, end, lines + [line], |lines| + 1, line.to)
  {
    LaidStays(file, first, end, lines, |lines|, line.from, line);
  }

  /** The line that ends at `position` is the one found from there. */
  lemma LaidLast(file: Bytes, first: nat, end: nat, lines: seq<Span>, n: nat, position: nat)
    requires 0 < n <= |lines| && Laid(file, first, end, lines, n, position)
    ensures first < position <= end <= |file| && lines[n - 1] == Span(LineStart(file, first, position), position)
  {
    var p := lines[n - 1].from;
    if position < end {
      LineEndTerminates(file, p, end);
      LineEndStays(file, p, position, end);
    }
    LineStartIs(file, first, p, position - 1);
  }

  /** `bytes` is what `file` holds from `start` on. */
  ghost predicate IsWindow(bytes: Bytes, start: nat, file: Bytes) {
    start + |bytes| <= |file| && forall i :: 0 <= i < |bytes| ==> bytes[i] == file[start + i]
  }

  lemma WindowSlice(bytes: Bytes, start: nat, file: Bytes, from: nat, to: nat)
    requires IsWindow(bytes, start, file) && start <= from <= to <= start + |bytes|
    ensures bytes[from - start..to - start] == file[from..to]
  {
  }

  /** Where the line that starts at `from` ends in the window. */
  method FindLineEnd(bytes: Bytes, start: nat, from: nat, ghost file: Bytes) returns (e: nat)
    requires from < |bytes| && IsWindow(bytes, start, file)
    ensures from < e <= |bytes| && start + e == LineEnd(file, start + from, start + |bytes|)
  {
    e := from;
    while e < |bytes| && bytes[e] != NEWLINE
      invariant from <= e <= |bytes|
      invariant e < |bytes| ==>
                  LineEnd(file, start + from, start + |bytes|) == LineEnd(file, start + e, start + |bytes|)
      invariant e == |bytes| ==> LineEnd(file, start + from, start + |bytes|) == start + e
    {
      e := e + 1;
    }
    if e < |bytes| { e := e + 1; }
  }

  /** The lines of the window from `first` on. */
  method SplitLines(bytes: Bytes, start: nat, first: nat, ghost file: Bytes, ghost at: nat, ghost end: nat)
    returns (lines: seq<Span>)
    requires first <= |bytes| && IsWindow(bytes, start, file) && at == start + first && end == start + |bytes|
    ensures Laid(file, at, end, lines, |lines|, end)
    ensures lines == [] <==> first == |bytes|
  {
    lines := [];
    var position := first;
    while position < |bytes|
      invariant first <= position <= |bytes| && (lines == [] <==> position == first)
      invariant position < |bytes| ==> Starts(file, start + first, start + position)
      invariant Laid(file, start + first, start + |bytes|, lines, |lines|, start + position)
    {
      var e := FindLineEnd(bytes, start, position, file);
      LineEndTerminates(file, start + position, start + |bytes|);
      LaidOneMore(file, start + first, start + |bytes|, lines, Span(start + position, start + e));
      lines := lines + [Span(start + position, start + e)];
      position := e;
    }
  }

  // ----- the loop over the readings of the lines -----

  /** The first `n` of `rs` are the readings of the first `n` lines. */
  ghost predicate Read(file: Bytes, parse: Bytes -> Reading, lines: seq<Span>, rs: seq<Reading>, n: nat)
    requires n <= |lines| == |rs|
  {
    n == 0 ||
    (var line := lines[n - 1];
     && line.from <= line.to <= |file| && rs[n - 1] == parse(file[line.from..line.to])
     && Read(file, parse, lines, rs, n - 1))
  }

  predicate Full(r: Reading, count: nat, bytes: nat) {
    r.Visible? && (count >= PAGE_MESSAGES || bytes + TextSize(r) > PAGE_BYTES)
  }

  /** How many readings are left when the page is full, if all but `i` put `count` messages of `bytes` bytes on it. */
  function Left(rs: seq<Reading>, i: nat, count: nat, bytes: nat): (left: nat)
    requires i <= |rs|
    ensures left <= i
  {
    if i == 0 || Full(rs[i - 1], count, bytes) then i
    else Left(rs, i - 1, count + Count(rs[i - 1]), bytes + TextSize(rs[i - 1]))
  }

  /** The messages of the readings from `i` on. */
  function MessagesFrom(rs: seq<Reading>, i: nat): seq<Message>
    requires i <= |rs|
    decreases |rs| - i
  {
    if i == |rs| then [] else MessageOf(rs[i]) + MessagesFrom(rs, i + 1)
  }

  predicate MalformedFrom(rs: seq<Reading>, i: nat)
    requires i <= |rs|
    decreases |rs| - i
  {
    i < |rs| && (rs[i].Malformed? || MalformedFrom(rs, i + 1))
  }

  function Reversed(messages: seq<Message>): seq<Message> {
    if messages == [] then [] else [messages[|messages| - 1]] + Reversed(messages[..|messages| - 1])
  }

  lemma ReversedPush(messages: seq<Message>, m: Message)
    ensures Reversed(messages + [m]) == [m] + Reversed(messages)
  {
    assert (messages + [m])[..|messages|] == messages;
  }

  /** Where line `i` starts; after the last, the end. */
  function OffsetOf(lines: seq<Span>, i: nat, end: nat): nat
    requires i <= |lines|
  {
    if i == |lines| then end else lines[i].from
  }

  /** Reads one line of the window. */
  method ReadLine(bytes: Bytes, start: nat, line: Span, parse: Bytes -> Reading, ghost file: Bytes) returns (r: Reading)
    requires IsWindow(bytes, start, file) && start <= line.from <= line.to <= start + |bytes|
    ensures r == parse(file[line.from..line.to])
  {
    WindowSlice(bytes, start, file, line.from, line.to);
    r := parse(bytes[line.from - start..line.to - start]);
  }

  /** `left` lines are left, the others put these messages of `textBytes` bytes on the page. */
  ghost predicate Gathered(rs: seq<Reading>, left: nat, messages: seq<Message>, textBytes: nat, incomplete: bool) {
    && left <= |rs| && Left(rs, |rs|, 0, 0) == Left(rs, left, |messages|, textBytes)
    && Reversed(messages) == MessagesFrom(rs, left) && incomplete == MalformedFrom(rs, left)
  }

  lemma GatherOne(rs: seq<Reading>, left: nat, messages: seq<Message>, textBytes: nat, incomplete: bool, r: Reading)
    requires 0 < left <= |rs| && r == rs[left - 1] && Gathered(rs, left, messages, textBytes, incomplete)
    ensures if Full(r, |messages|, textBytes) then Left(rs, |rs|, 0, 0) == left
            else Gathered(rs, left - 1, messages + MessageOf(r), textBytes + TextSize(r), incomplete || r.Malformed?)
  {
    if r.Visible? { ReversedPush(messages, r.message); } else { assert messages + [] == messages; }
    assert MessagesFrom(rs, left - 1) == MessageOf(r) + MessagesFrom(rs, left);
  }

  /** Takes lines from the end until the page is full. Messages come last first. */
  method Gather(bytes: Bytes, start: nat, lines: seq<Span>, parse: Bytes -> Reading, first: nat,
                ghost file: Bytes, ghost rs: seq<Reading>)
    returns (messages: seq<Message>, nextBefore: nat, incomplete: bool)
    requires IsWindow(bytes, start, file) && |rs| == |lines| && Read(file, parse, lines, rs, |lines|)
    requires forall i :: 0 <= i < |lines| ==> start <= lines[i].from && lines[i].to <= start + |bytes|
    ensures var left := Left(rs, |rs|, 0, 0);
            && nextBefore == OffsetOf(lines, left, first) && Reversed(messages) == MessagesFrom(rs, left)
            && incomplete == MalformedFrom(rs, left)
  {
    messages, nextBefore, incomplete := [], first, false;
    var left: nat, textBytes: nat := |lines|, 0;
    while left > 0
      invariant left <= |lines| && Gathered(rs, left, messages, textBytes, incomplete)
      invariant nextBefore == OffsetOf(lines, left, first) && Read(file, parse, lines, rs, left)
    {
      var line := lines[left - 1];
      var r := ReadLine(bytes, start, line, parse, file);
      GatherOne(rs, left, messages, textBytes, incomplete, r);
      if r.Malformed? {
        incomplete := true;
      } else if r.Visible? {
        if |messages| >= PAGE_MESSAGES || textBytes + |r.message.text| > PAGE_BYTES { break; }
        textBytes := textBytes + |r.message.text|;
        messages := messages + [r.message];
      }
      nextBefore := line.from;
      left := left - 1;
    }
  }

  lemma LeftStep(rs: seq<Reading>, i: nat, count: nat, bytes: nat, r: Reading)
    requires 0 < i <= |rs| && r == rs[i - 1]
    ensures Left(rs, i, count, bytes)
            == if Full(r, count, bytes) then i else Left(rs, i - 1, count + Count(r), bytes + TextSize(r))
  {
  }

  /** The page stops at the line where the readings say it is full. */
  lemma {:induction false} LeftIsCursor(file: Bytes, first: nat, end: nat, parse: Bytes -> Reading, lines: seq<Span>,
                                        rs: seq<Reading>,
                                        i: nat, at: nat, count: nat, bytes: nat)
    requires i <= |lines| == |rs| && first <= at <= end <= |file| && at == OffsetOf(lines, i, end)
    requires Laid(file, first, end, lines, i, at) && Read(file, parse, lines, rs, i)
    ensures OffsetOf(lines, Left(rs, i, count, bytes), end) == Cursor(file, first, at, parse, count, bytes)
    decreases i
  {
    if i > 0 {
      LaidLast(file, first, end, lines, i, at);
      var p, r := lines[i - 1].from, rs[i - 1];
      CursorTakes(file, first, p, at, parse, r, count, bytes);
      LeftStep(rs, i, count, bytes, r);
      if !Full(r, count, bytes) {
        LeftIsCursor(file, first, end, parse, lines, rs, i - 1, p, count + Count(r), bytes + TextSize(r));
      }
    }
  }

  /** What is laid out up to a line is laid out up to any line before it. */
  lemma {:induction false} LaidPrefix(file: Bytes, first: nat, end: nat, lines: seq<Span>, n: nat, i: nat,
                                      position: nat)
    requires i <= n <= |lines| && Laid(file, first, end, lines, n, position)
    ensures Laid(file, first, end, lines, i, if i == n then position else lines[i].from)
    decreases n
  {
    if i < n { LaidPrefix(file, first, end, lines, n - 1, i, lines[n - 1].from); }
  }

  /** Line `i` is what the forward parse reads there. */
  lemma LineAt(file: Bytes, first: nat, end: nat, lines: seq<Span>, i: nat)
    requires i < |lines| && Laid(file, first, end, lines, |lines|, end)
    ensures IsLine(file, first, end, lines[i]) && lines[i].to == OffsetOf(lines, i + 1, end)
  {
    LaidPrefix(file, first, end, lines, |lines|, i + 1, end);
  }

  lemma {:induction false} ReadAt(file: Bytes, parse: Bytes -> Reading, lines: seq<Span>, rs: seq<Reading>, n: nat,
                                  i: nat)
    requires i < n <= |lines| == |rs| && Read(file, parse, lines, rs, n)
    ensures lines[i].from <= lines[i].to <= |file| && rs[i] == parse(file[lines[i].from..lines[i].to])
    decreases n
  {
    if i < n - 1 { ReadAt(file, parse, lines, rs, n - 1, i); }
  }

  /** What the readings hold is what the file holds. */
  lemma {:induction false} ReadingsAreForward(file: Bytes, first: nat, end: nat, parse: Bytes -> Reading,
                                              lines: seq<Span>,
                                              rs: seq<Reading>, i: nat)
    requires i <= |lines| == |rs| && first <= end <= |file|
    requires Laid(file, first, end, lines, |lines|, end) && Read(file, parse, lines, rs, |lines|)
    ensures first <= OffsetOf(lines, i, end) <= end
    ensures var held := Forward(file, OffsetOf(lines, i, end), end, parse);
            held.messages == MessagesFrom(rs, i) && held.malformed == MalformedFrom(rs, i)
    decreases |lines| - i
  {
    if i < |lines| {
      ReadingsAreForward(file, first, end, parse, lines, rs, i + 1);
      LineAt(file, first, end, lines, i);
      ReadAt(file, parse, lines, rs, |lines|, i);
    }
  }

  /** What the loop gathers is the page of the window. */
  lemma GatheredIsPage(file: Bytes, start: nat, first: nat, end: nat, parse: Bytes -> Reading, lines: seq<Span>,
                       rs: seq<Reading>)
    requires start <= first <= end <= |file| && Laid(file, first, end, lines, |lines|, end) && Capped(parse)
    requires first == FirstLine(file, start, end) && (lines == [] <==> first == end)
    requires |rs| == |lines| && Read(file, parse, lines, rs, |lines|)
    ensures var left := Left(rs, |rs|, 0, 0);
            var next := OffsetOf(lines, left, first);
            PageOf(file, start, end, parse)
            == if next == end && start > 0 then Page(MessagesFrom(rs, left), Some(start), true)
               else Page(MessagesFrom(rs, left), if next > 0 then Some(next) else None, MalformedFrom(rs, left))
  {
    LeftIsCursor(file, first, end, parse, lines, rs, |rs|, end, 0, 0);
    ReadingsAreForward(file, first, end, parse, lines, rs, Left(rs, |rs|, 0, 0));
    if first < end { TakesOne(file, first, end, parse); }
  }

  lemma {:induction false} ReadingsExist(file: Bytes, parse: Bytes -> Reading, lines: seq<Span>, rs: seq<Reading>,
                                         n: nat)
    requires n <= |lines| == |rs|
    requires forall i :: 0 <= i < |lines| ==>
               lines[i].from <= lines[i].to <= |file| && rs[i] == parse(file[lines[i].from..lines[i].to])
    ensures Read(file, parse, lines, rs, n)
  {
    if n > 0 { ReadingsExist(file, parse, lines, rs, n - 1); }
  }

  lemma LinesAreInside(file: Bytes, first: nat, end: nat, lines: seq<Span>)
    requires first <= end <= |file| && Laid(file, first, end, lines, |lines|, end)
    ensures forall i :: 0 <= i < |lines| ==> first <= lines[i].from < lines[i].to <= end
  {
    forall i | 0 <= i < |lines| ensures IsLine(file, first, end, lines[i]) { LineAt(file, first, end, lines, i); }
  }

  lemma ReadingsOf(file: Bytes, first: nat, end: nat, parse: Bytes -> Reading, lines: seq<Span>)
    returns (rs: seq<Reading>)
    requires first <= end <= |file| && Laid(file, first, end, lines, |lines|, end)
    ensures |rs| == |lines| && Read(file, parse, lines, rs, |lines|)
  {
    LinesAreInside(file, first, end, lines);
    rs := seq(|lines|, i requires 0 <= i < |lines| => parse(file[lines[i].from..lines[i].to]));
    ReadingsExist(file, parse, lines, rs, |lines|);
  }

  /** Where the first line that starts in the window starts. */
  method SkipPartialLine(bytes: Bytes, start: nat, ghost file: Bytes) returns (first: nat)
    requires IsWindow(bytes, start, file)
    ensures first <= |bytes| && start + first == FirstLine(file, start, start + |bytes|)
  {
    first := 0;
    if start > 0 && |bytes| > 0 { first := FindLineEnd(bytes, start, 0, file); }
  }

  /** The messages of a page last first, where it stopped taking lines, and whether a line of it is malformed. */
  method ParseLines(bytes: Bytes, start: nat, parse: Bytes -> Reading, ghost file: Bytes)
    returns (messages: seq<Message>, nextBefore: nat, incomplete: bool)
    requires IsWindow(bytes, start, file) && Capped(parse)
    ensures PageOf(file, start, start + |bytes|, parse)
            == if nextBefore == start + |bytes| && start > 0 then Page(Reversed(messages), Some(start), true)
               else Page(Reversed(messages), if nextBefore > 0 then Some(nextBefore) else None, incomplete)
  {
    var first := SkipPartialLine(bytes, start, file);
    var at := start + first;
    ghost var end := start + |bytes|;
    var lines := SplitLines(bytes, start, first, file, at, end);
    LinesAreInside(file, at, end, lines);
    ghost var rs := ReadingsOf(file, at, end, parse, lines);
    messages, nextBefore, incomplete := Gather(bytes, start, lines, parse, at, file, rs);
    GatheredIsPage(file, start, at, end, parse, lines, rs);
  }

  /** `parse_page` on the window `bytes` of a file, which starts at `start`. */
  method ParsePage(bytes: Bytes, start: nat, parse: Bytes -> Reading, ghost file: Bytes) returns (page: Page)
    requires IsWindow(bytes, start, file) && Capped(parse)
    ensures page == PageOf(file, start, start + |bytes|, parse)
  {
    var messages, nextBefore, incomplete := ParseLines(bytes, start, parse, file);
    if nextBefore == start + |bytes| && start > 0 {
      incomplete := true;
      nextBefore := start;
    }
    page := Page(Reversed(messages), if nextBefore > 0 then Some(nextBefore) else None, incomplete);
  }

  /** One page of a file, up to `before` or from its end. */
  method ReadPage(file: Bytes, before: Option<nat>, parse: Bytes -> Reading) returns (page: Option<Page>)
    requires Capped(parse)
    ensures var end := if before.Some? then before.value else |file|;
            page == if end > |file| then None else Some(PageOf(file, WindowStart(end), end, parse))
  {
    var window := ReadWindow(file, before);
    if window.None? { return None; }
    var p := ParsePage(window.value.1, window.value.0, parse, file);
    page := Some(p);
  }

  // ----- the cap on one message -----

  function Utf8Size(c: char): nat {
    if c as int < 0x80 then 1 else if c as int < 0x800 then 2 else if c as int < 0x1_0000 then 3 else 4
  }

  /** How many bytes a text takes in UTF-8. */
  function Size(text: string): nat { if text == [] then 0 else Size(text[..|text| - 1]) + Utf8Size(text[|text| - 1]) }

  predicate IsControl(c: char) { c as int < 0x20 || 0x7F <= c as int < 0xA0 }

  predicate Shown(c: char) { !IsControl(c) || c == '\n' || c == '\t' }

  function ShownText(text: string): string {
    if text == [] then []
    else ShownText(text[..|text| - 1]) + if Shown(text[|text| - 1]) then [text[|text| - 1]] else []
  }

  /** Keeps the longest prefix of the shown characters that fits, and says whether it left any out. */
  method CapText(text: string) returns (clean: string, truncated: bool)
    ensures Size(clean) <= 65_536 && clean <= ShownText(text)
    ensures truncated <==> clean != ShownText(text)
    ensures truncated ==> Size(clean + [ShownText(text)[|clean|]]) > 65_536
  {
    clean, truncated := [], false;
    var i := 0;
    while i < |text|
      invariant 0 <= i <= |text| && clean == ShownText(text[..i]) && !truncated && Size(clean) <= MESSAGE_BYTES
    {
      var c := text[i];
      assert text[..i + 1][..i] == text[..i];
      if Shown(c) {
        assert (clean + [c])[..|clean|] == clean;
        if Size(clean) + Utf8Size(c) > MESSAGE_BYTES {
          ShownPrefix(text, i + 1);
          truncated := true;
          break;
        }
        clean := clean + [c];
      }
      i := i + 1;
    }
    assert text[..|text|] == text;
  }

  lemma {:induction false} ShownPrefix(text: string, i: nat)
    requires i <= |text|
    ensures ShownText(text[..i]) <= ShownText(text)
    decreases |text|
  {
    if i < |text| {
      ShownPrefix(text[..|text| - 1], i);
      assert text[..|text| - 1][..i] == text[..i];
    } else {
      assert text[..i] == text;
    }
  }
}
