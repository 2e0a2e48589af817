/**
Pages of visible messages, read backwards from the end of a provider's
transcript through a bounded window.
 */
module Conversation {
  import opened Common

  const WINDOW_BYTES: nat := 4_194_304
  const PAGE_BYTES: nat := 262_144
  const MESSAGE_BYTES: nat := 65_536
  const PAGE_MESSAGES: nat := 50

  type Byte = bv8
  type Bytes = seq<Byte>
  const NEWLINE: Byte := 10

  datatype Role = User | Assistant
  /** `text` is in UTF-8. */
  datatype Message = Message(role: Role, text: Bytes, truncated: bool)

  /** What one line of a transcript reads as. */
  datatype Reading = Malformed | Hidden | Visible(message: Message)

  datatype Page = Page(messages: seq<Message>, nextBefore: Option<nat>, incomplete: bool)

  /** Reading a line is not modelled, except that no message is larger than `CapText` leaves it. */
  ghost predicate Capped(parse: Bytes -> Reading) {
    forall line :: parse(line).Visible? ==> |parse(line).message.text| <= MESSAGE_BYTES
  }

  // ----- lines, as positions in a file -----

  /** A line of `file[..hi]` may start at `p`. */
  predicate Starts(file: Bytes, lo: nat, p: nat)
    requires p <= |file|
  {
    p == lo || (p > 0 && file[p - 1] == NEWLINE)
  }

  /** Where the line at `p` ends: after its newline, or at `hi`. */
  function LineEnd(file: Bytes, p: nat, hi: nat): (e: nat)
    requires p < hi <= |file|
    ensures p < e <= hi
    decreases hi - p
  {
    if file[p] == NEWLINE || p + 1 == hi then p + 1 else LineEnd(file, p + 1, hi)
  }

  /** Where the last line of `file[lo..hi]` starts. */
  function LineStart(file: Bytes, lo: nat, hi: nat): (p: nat)
    requires lo < hi <= |file|
    ensures lo <= p < hi && Starts(file, lo, p)
  {
    StartBefore(file, lo, hi - 1)
  }

  function StartBefore(file: Bytes, lo: nat, q: nat): (p: nat)
    requires lo <= q < |file|
    ensures lo <= p <= q && Starts(file, lo, p)
  {
    if Starts(file, lo, q) then q else StartBefore(file, lo, q - 1)
  }

  lemma {:induction false} LineEndStays(file: Bytes, p: nat, mid: nat, hi: nat)
    requires p < mid <= hi <= |file| && file[mid - 1] == NEWLINE
    ensures LineEnd(file, p, hi) == LineEnd(file, p, mid)
    decreases mid - p
  {
    if file[p] != NEWLINE { LineEndStays(file, p + 1, mid, hi); }
  }

  lemma {:induction false} LineEndTerminates(file: Bytes, p: nat, hi: nat)
    requires p < hi <= |file|
    ensures LineEnd(file, p, hi) == hi || file[LineEnd(file, p, hi) - 1] == NEWLINE
    decreases hi - p
  {
    if file[p] != NEWLINE && p + 1 < hi { LineEndTerminates(file, p + 1, hi); }
  }

  lemma {:induction false} StartedLineEnds(file: Bytes, lo: nat, q: nat)
    requires lo <= q < |file|
    ensures LineEnd(file, StartBefore(file, lo, q), q + 1) == q + 1
    decreases q
  {
    if !Starts(file, lo, q) {
      StartedLineEnds(file, lo, q - 1);
      LineEndOneMore(file, StartBefore(file, lo, q - 1), q);
    }
  }

  lemma {:induction false} LineEndOneMore(file: Bytes, p: nat, q: nat)
    requires p < q < |file| && LineEnd(file, p, q) == q && file[q - 1] != NEWLINE
    ensures LineEnd(file, p, q + 1) == q + 1
    decreases q - p
  {
    if p + 1 < q { LineEndOneMore(file, p + 1, q); }
  }

  /** The last line, found from the end, ends there. */
  lemma LineStartEnds(file: Bytes, lo: nat, hi: nat)
    requires lo < hi <= |file|
    ensures LineEnd(file, LineStart(file, lo, hi), hi) == hi
  {
    StartedLineEnds(file, lo, hi - 1);
  }

  /** A line that ends at `hi` is the one found from there. */
  lemma {:induction false} LineStartIs(file: Bytes, lo: nat, p: nat, q: nat)
    requires lo <= p <= q < |file| && Starts(file, lo, p) && LineEnd(file, p, q + 1) == q + 1
    ensures StartBefore(file, lo, q) == p
    decreases q
  {
    if p < q {
      NoStartInside(file, p, q);
      LineEndOneLess(file, p, q);
      LineStartIs(file, lo, p, q - 1);
    }
  }

  lemma {:induction false} NoStartInside(file: Bytes, p: nat, q: nat)
    requires p < q < |file| && LineEnd(file, p, q + 1) == q + 1
    ensures file[q - 1] != NEWLINE
    decreases q - p
  {
    if p + 1 < q { NoStartInside(file, p + 1, q); }
  }

  lemma {:induction false} LineEndOneLess(file: Bytes, p: nat, q: nat)
    requires p < q < |file| && LineEnd(file, p, q + 1) == q + 1
    ensures LineEnd(file, p, q) == q
    decreases q - p
  {
    if p + 1 < q { LineEndOneLess(file, p + 1, q); }
  }

  // ----- what a stretch of a file holds -----

  function TextSize(r: Reading): nat { if r.Visible? then |r.message.text| else 0 }

  function Count(r: Reading): nat { if r.Visible? then 1 else 0 }

  function MessageOf(r: Reading): seq<Message> { if r.Visible? then [r.message] else [] }

  /**
  The visible messages of some lines and the bytes of their text; whether a line
  is malformed, or too long to be read through the window.
   */
  datatype Summary = Summary(messages: seq<Message>, bytes: nat, malformed: bool, oversized: bool)

  const NOTHING := Summary([], 0, false, false)

  function Join(a: Summary, b: Summary): Summary {
    Summary(a.messages + b.messages, a.bytes + b.bytes, a.malformed || b.malformed, a.oversized || b.oversized)
  }

  lemma JoinAssociates(a: Summary, b: Summary, c: Summary)
    ensures Join(Join(a, b), c) == Join(a, Join(b, c)) && Join(a, NOTHING) == a == Join(NOTHING, a)
  {
  }

  predicate Oversized(p: nat, e: nat) { e >= p + WINDOW_BYTES && !(p == 0 && e == WINDOW_BYTES) }

  function OneLine(file: Bytes, p: nat, e: nat, parse: Bytes -> Reading): Summary
    requires p <= e <= |file|
  {
    var r := parse(file[p..e]);
    Summary(MessageOf(r), TextSize(r), r.Malformed?, Oversized(p, e))
  }

  /** One forward parse, line by line. */
  function Forward(file: Bytes, lo: nat, hi: nat, parse: Bytes -> Reading): Summary
    requires lo <= hi <= |file|
    decreases hi - lo
  {
    if lo == hi then NOTHING
    else
      var e := LineEnd(file, lo, hi);
      Join(OneLine(file, lo, e, parse), Forward(file, e, hi, parse))
  }

  /** A stretch may be parsed in two, if it is cut between lines. */
  lemma {:induction false} ForwardSplits(file: Bytes, lo: nat, mid: nat, hi: nat, parse: Bytes -> Reading)
    requires lo <= mid <= hi <= |file| && Starts(file, lo, mid)
    ensures Forward(file, lo, hi, parse) == Join(Forward(file, lo, mid, parse), Forward(file, mid, hi, parse))
    decreases mid - lo
  {
    JoinAssociates(Forward(file, mid, hi, parse), NOTHING, NOTHING);
    if lo < mid {
      var e := LineEnd(file, lo, mid);
      LineEndStays(file, lo, mid, hi);
      ForwardSplits(file, e, mid, hi, parse);
      JoinAssociates(OneLine(file, lo, e, parse), Forward(file, e, mid, parse), Forward(file, mid, hi, parse));
    }
  }

  /** The last line of a stretch, found from its end, is the last of the forward parse. */
  lemma ForwardLast(file: Bytes, lo: nat, hi: nat, parse: Bytes -> Reading)
    requires lo < hi <= |file|
    ensures var p := LineStart(file, lo, hi);
            Forward(file, lo, hi, parse) == Join(Forward(file, lo, p, parse), OneLine(file, p, hi, parse))
  {
    var p := LineStart(file, lo, hi);
    ForwardSplits(file, lo, p, hi, parse);
    LineStartEnds(file, lo, hi);
    JoinAssociates(OneLine(file, p, hi, parse), NOTHING, NOTHING);
  }

  // ----- one page -----

  /** How far down lines fit on a page that holds `count` messages of `used` bytes together. */
  function Cursor(file: Bytes, lo: nat, hi: nat, parse: Bytes -> Reading, count: nat, used: nat): (c: nat)
    requires lo <= hi <= |file|
    ensures lo <= c <= hi && (c < hi ==> Starts(file, lo, c))
    decreases hi
  {
    if lo == hi then hi
    else
      var p := LineStart(file, lo, hi);
      var r := parse(file[p..hi]);
      if r.Visible? && (count >= PAGE_MESSAGES || used + TextSize(r) > PAGE_BYTES) then hi
      else Cursor(file, lo, p, parse, count + Count(r), used + TextSize(r))
  }

  /** A window that starts inside a file leaves the line it starts in to the next page. */
  function FirstLine(file: Bytes, start: nat, end: nat): (first: nat)
    requires start <= end <= |file|
    ensures start <= first <= end
  {
    if start == 0 || start == end then start else LineEnd(file, start, end)
  }

  /** The page of the window `file[start..end]`. */
  function PageOf(file: Bytes, start: nat, end: nat, parse: Bytes -> Reading): Page
    requires start <= end <= |file|
  {
    var next := Cursor(file, FirstLine(file, start, end), end, parse, 0, 0);
    var stuck := next == end && start > 0;
    var cursor := if stuck then start else next;
    var held := Forward(file, next, end, parse);
    Page(held.messages, if cursor > 0 then Some(cursor) else None, held.malformed || stuck)
  }

  predicate FitsPage(s: Summary, count: nat, used: nat) {
    count + |s.messages| <= PAGE_MESSAGES && used + s.bytes <= PAGE_BYTES
  }

  /** Below the last line lies the rest of what a page takes. */
  lemma TakenLast(file: Bytes, lo: nat, c: nat, hi: nat, parse: Bytes -> Reading)
    requires lo < hi <= |file| && lo <= c <= LineStart(file, lo, hi)
    ensures var p := LineStart(file, lo, hi);
            Forward(file, c, hi, parse) == Join(Forward(file, c, p, parse), OneLine(file, p, hi, parse))
  {
    var p := LineStart(file, lo, hi);
    ForwardSplits(file, c, p, hi, parse);
    LineStartEnds(file, lo, hi);
    JoinAssociates(OneLine(file, p, hi, parse), NOTHING, NOTHING);
  }

  lemma FitsOneMore(s: Summary, line: Summary, count: nat, used: nat)
    requires FitsPage(s, count + |line.messages|, used + line.bytes)
    ensures FitsPage(Join(s, line), count, used)
  {
  }

  /** Taking the last line leaves the lines below it to be taken. */
  lemma CursorStep(file: Bytes, lo: nat, hi: nat, parse: Bytes -> Reading, count: nat, used: nat)
    requires lo < hi <= |file| && count <= PAGE_MESSAGES && used <= PAGE_BYTES
    requires Cursor(file, lo, hi, parse, count, used) < hi
    ensures var p := LineStart(file, lo, hi);
            var line := OneLine(file, p, hi, parse);
            && FitsPage(line, count, used)
            && Cursor(file, lo, hi, parse, count, used)
               == Cursor(file, lo, p, parse, count + |line.messages|, used + line.bytes)
  {
  }

  lemma CursorTakes(file: Bytes, lo: nat, p: nat, hi: nat, parse: Bytes -> Reading, r: Reading, count: nat, used: nat)
    requires lo < hi <= |file| && p == LineStart(file, lo, hi) && r == parse(file[p..hi])
    ensures Cursor(file, lo, hi, parse, count, used)
            == if r.Visible? && (count >= PAGE_MESSAGES || used + TextSize(r) > PAGE_BYTES) then hi
               else Cursor(file, lo, p, parse, count + Count(r), used + TextSize(r))
  {
  }

  lemma {:induction false} TakenFits(file: Bytes, lo: nat, c: nat, hi: nat, parse: Bytes -> Reading, count: nat,
                                     used: nat)
    requires lo <= hi <= |file| && count <= PAGE_MESSAGES && used <= PAGE_BYTES
    requires c == Cursor(file, lo, hi, parse, count, used)
    ensures FitsPage(Forward(file, c, hi, parse), count, used)
    decreases hi
  {
    if c < hi {
      var p := LineStart(file, lo, hi);
      var line := OneLine(file, p, hi, parse);
      CursorStep(file, lo, hi, parse, count, used);
      TakenFits(file, lo, c, p, parse, count + |line.messages|, used + line.bytes);
      TakenLast(file, lo, c, hi, parse);
      FitsOneMore(Forward(file, c, p, parse), line, count, used);
    }
  }

  function TotalSize(messages: seq<Message>): nat {
    if messages == [] then 0 else |messages[0].text| + TotalSize(messages[1..])
  }

  lemma TotalOfLine(r: Reading, rest: seq<Message>)
    ensures TotalSize(MessageOf(r) + rest) == TextSize(r) + TotalSize(rest)
  {
    if r.Visible? { assert ([r.message] + rest)[1..] == rest; } else { assert [] + rest == rest; }
  }

  lemma {:induction false} BytesAreTotal(file: Bytes, lo: nat, hi: nat, parse: Bytes -> Reading)
    requires lo <= hi <= |file|
    ensures Forward(file, lo, hi, parse).bytes == TotalSize(Forward(file, lo, hi, parse).messages)
    decreases hi - lo
  {
    if lo < hi {
      var e := LineEnd(file, lo, hi);
      BytesAreTotal(file, e, hi, parse);
      TotalOfLine(parse(file[lo..e]), Forward(file, e, hi, parse).messages);
    }
  }

  /** The first line from the end always fits. */
  lemma TakesOne(file: Bytes, lo: nat, hi: nat, parse: Bytes -> Reading)
    requires Capped(parse) && lo < hi <= |file|
    ensures Cursor(file, lo, hi, parse, 0, 0) < hi
  {
  }

  /** Whatever the bytes, a page is bounded and its cursor lies before its end. */
  lemma PageIsBounded(file: Bytes, start: nat, end: nat, parse: Bytes -> Reading)
    requires Capped(parse) && start <= end <= |file| && (start > 0 ==> start < end)
    ensures var page := PageOf(file, start, end, parse);
            && |page.messages| <= 50 && TotalSize(page.messages) <= 262_144
            && (page.nextBefore.Some? ==> page.nextBefore.value < end)
  {
    var first := FirstLine(file, start, end);
    var next := Cursor(file, first, end, parse, 0, 0);
    TakenFits(file, first, next, end, parse, 0, 0);
    BytesAreTotal(file, next, end, parse);
    if first < end { TakesOne(file, first, end, parse); }
  }

  // ----- all pages -----

  function WindowStart(end: nat): nat { if end < WINDOW_BYTES then 0 else end - WINDOW_BYTES }

  /** The messages of all pages from `end` down, and whether any page said it was incomplete. */
  ghost function Walk(file: Bytes, end: nat, parse: Bytes -> Reading): (seq<Message>, bool)
    requires Capped(parse) && end <= |file|
    decreases end
  {
    var page := PageOf(file, WindowStart(end), end, parse);
    PageIsBounded(file, WindowStart(end), end, parse);
    if page.nextBefore.None? then (page.messages, page.incomplete)
    else
      var (earlier, incomplete) := Walk(file, page.nextBefore.value, parse);
      (earlier + page.messages, incomplete || page.incomplete)
  }

  lemma {:induction false} ShortStretch(file: Bytes, lo: nat, hi: nat, parse: Bytes -> Reading)
    requires lo <= hi <= |file| && (hi < lo + WINDOW_BYTES || hi <= WINDOW_BYTES)
    ensures !Forward(file, lo, hi, parse).oversized
    decreases hi - lo
  {
    if lo < hi { ShortStretch(file, LineEnd(file, lo, hi), hi, parse); }
  }

  /** A window with no line to start at ends in a line too long for it. */
  lemma StuckOnOversized(file: Bytes, end: nat, parse: Bytes -> Reading)
    requires WINDOW_BYTES < end <= |file| && FirstLine(file, WindowStart(end), end) == end
    ensures Forward(file, 0, end, parse).oversized
  {
    var start := WindowStart(end);
    var p := LineStart(file, 0, end);
    if p > start { LineEndStays(file, start, p, end); }
    ForwardLast(file, 0, end, parse);
  }

  /** Where the page ending at `end` stops taking lines. */
  function StopOf(file: Bytes, end: nat, parse: Bytes -> Reading): (next: nat)
    requires end <= |file|
    ensures next <= end
  {
    Cursor(file, FirstLine(file, WindowStart(end), end), end, parse, 0, 0)
  }

  /** A line of the file is too long for the window that ends with it. */
  predicate Stuck(file: Bytes, end: nat, parse: Bytes -> Reading)
    requires end <= |file|
  {
    StopOf(file, end, parse) == end && WindowStart(end) > 0
  }

  lemma StuckMeansOversized(file: Bytes, end: nat, parse: Bytes -> Reading)
    requires Capped(parse) && end <= |file| && Stuck(file, end, parse)
    ensures Forward(file, 0, end, parse).oversized
  {
    var first := FirstLine(file, WindowStart(end), end);
    if first < end { TakesOne(file, first, end, parse); }
    StuckOnOversized(file, end, parse);
  }

  /** A page that is not stuck stops between two lines, within its window. */
  lemma StopsBetweenLines(file: Bytes, end: nat, parse: Bytes -> Reading)
    requires Capped(parse) && end <= |file| && !Stuck(file, end, parse)
    ensures Starts(file, 0, StopOf(file, end, parse))
    ensures end < StopOf(file, end, parse) + WINDOW_BYTES || end <= WINDOW_BYTES
  {
    var start := WindowStart(end);
    var first := FirstLine(file, start, end);
    if first < end { TakesOne(file, first, end, parse); }
    if start > 0 { LineEndTerminates(file, start, end); }
  }

  /** Every cursor is the start of a line, except where a line too long for the window is passed over. */
  lemma CursorIsLineStart(file: Bytes, end: nat, parse: Bytes -> Reading)
    requires Capped(parse) && end <= |file| && !Stuck(file, end, parse)
    ensures var page := PageOf(file, WindowStart(end), end, parse);
            page.nextBefore.Some? ==> page.nextBefore.value <= |file| && Starts(file, 0, page.nextBefore.value)
  {
    StopsBetweenLines(file, end, parse);
  }

  lemma {:induction false} LineEndBefore(file: Bytes, p: nat, q: nat, hi: nat)
    requires p < q <= hi <= |file| && file[q - 1] == NEWLINE
    ensures LineEnd(file, p, hi) <= q
    decreases q - p
  {
    if file[p] != NEWLINE { LineEndBefore(file, p + 1, q, hi); }
  }

  /** A message that a page holding `held` has no room for. */
  predicate Overflows(r: Reading, held: Summary, count: nat, used: nat) {
    r.Visible? && (count + |held.messages| >= 50 || used + held.bytes + |r.message.text| > 262_144)
  }

  /** Lines are taken until the next one has no room. */
  lemma {:induction false} TakenUntilFull(file: Bytes, lo: nat, c: nat, hi: nat, parse: Bytes -> Reading, count: nat,
                                          used: nat)
    requires lo < c <= hi <= |file| && c == Cursor(file, lo, hi, parse, count, used)
    ensures Overflows(parse(file[LineStart(file, lo, c)..c]), Forward(file, c, hi, parse), count, used)
    decreases hi
  {
    if c < hi {
      var p := LineStart(file, lo, hi);
      var line := OneLine(file, p, hi, parse);
      TakenUntilFull(file, lo, c, p, parse, count + |line.messages|, used + line.bytes);
      TakenLast(file, lo, c, hi, parse);
    }
  }

  /** The page holds the messages of the lines from `c`, which is its cursor or the start of the file. */
  ghost predicate HoldsFrom(file: Bytes, c: nat, end: nat, parse: Bytes -> Reading, page: Page)
    requires c <= end <= |file|
  {
    && page.nextBefore == (if c > 0 then Some(c) else None)
    && page.messages == Forward(file, c, end, parse).messages
  }

  lemma PageStops(file: Bytes, end: nat, parse: Bytes -> Reading)
    requires Capped(parse) && end <= |file| && !Stuck(file, end, parse)
    ensures HoldsFrom(file, StopOf(file, end, parse), end, parse, PageOf(file, WindowStart(end), end, parse))
  {
  }

  /**
  A page is as full as it may be: the line above it, if it lies in the last
  4 MiB, has a message that would be the 51st or exceed 256 KiB.
   */
  lemma PageIsFull(file: Bytes, end: nat, p: nat, c: nat, parse: Bytes -> Reading)
    requires Capped(parse) && end <= |file| && !Stuck(file, end, parse) && p < c <= end
    requires PageOf(file, WindowStart(end), end, parse).nextBefore == Some(c)
    requires Starts(file, 0, p) && LineEnd(file, p, c) == c && (end < p + 4_194_304 || end <= 4_194_304)
    ensures var page := PageOf(file, WindowStart(end), end, parse);
            && HoldsFrom(file, c, end, parse, page) && parse(file[p..c]).Visible?
            && (|page.messages| == 50
                || TotalSize(page.messages) + |parse(file[p..c]).message.text| > 262_144)
  {
    var start := WindowStart(end);
    var first := FirstLine(file, start, end);
    PageStops(file, end, parse);
    if start > 0 { LineEndBefore(file, start, p, end); }
    LineStartIs(file, first, p, c - 1);
    TakenUntilFull(file, first, c, end, parse, 0, 0);
    BytesAreTotal(file, c, end, parse);
    PageIsBounded(file, start, end, parse);
  }

  /** A line that fills the window exactly is read where it starts the file, and passed over anywhere else. */
  lemma WindowSizedLine(file: Bytes, p: nat, parse: Bytes -> Reading)
    requires Capped(parse) && p + WINDOW_BYTES <= |file| && Starts(file, 0, p)
    requires LineEnd(file, p, p + WINDOW_BYTES) == p + WINDOW_BYTES
    ensures Stuck(file, p + WINDOW_BYTES, parse) <==> p > 0
    ensures p > 0 ==> PageOf(file, p, p + WINDOW_BYTES, parse) == Page([], Some(p), true)
  {
    assert WindowStart(p + WINDOW_BYTES) == p;
  }

  lemma WalkUnfolds(file: Bytes, end: nat, parse: Bytes -> Reading)
    requires Capped(parse) && end <= |file|
    ensures Stuck(file, end, parse) ==> Walk(file, end, parse).1
    ensures !Stuck(file, end, parse) ==>
              var next := StopOf(file, end, parse);
              var held := Forward(file, next, end, parse);
              Walk(file, end, parse)
              == if next == 0 then (held.messages, held.malformed)
                 else (Walk(file, next, parse).0 + held.messages, Walk(file, next, parse).1 || held.malformed)
  {
    PageIsBounded(file, WindowStart(end), end, parse);
  }

  predicate Agree(walk: (seq<Message>, bool), whole: Summary) {
    (walk.1 <==> whole.malformed || whole.oversized) && (!whole.oversized ==> walk.0 == whole.messages)
  }

  lemma AgreeJoins(walk: (seq<Message>, bool), before: Summary, held: Summary)
    requires Agree(walk, before) && !held.oversized
    ensures Agree((walk.0 + held.messages, walk.1 || held.malformed), Join(before, held))
  {
  }

  /**
  Following all pages agrees with one forward parse. They say they are incomplete
  exactly when a line is malformed or does not fit the window; unless one does
  not fit, together they hold every visible message once, in order.
   */
  lemma {:induction false} PagesAgree(file: Bytes, end: nat, parse: Bytes -> Reading)
    requires Capped(parse) && end <= |file|
    ensures Agree(Walk(file, end, parse), Forward(file, 0, end, parse))
    decreases end, 1
  {
    WalkUnfolds(file, end, parse);
    if Stuck(file, end, parse) {
      StuckMeansOversized(file, end, parse);
    } else {
      var next := StopOf(file, end, parse);
      StopsBetweenLines(file, end, parse);
      ShortStretch(file, next, end, parse);
      if next > 0 { PagesAgreeFrom(file, next, end, parse); }
    }
  }

  lemma {:induction false} PagesAgreeFrom(file: Bytes, next: nat, end: nat, parse: Bytes -> Reading)
    requires Capped(parse) && next < end <= |file| && Starts(file, 0, next)
    requires !Forward(file, next, end, parse).oversized
    ensures Agree((Walk(file, next, parse).0 + Forward(file, next, end, parse).messages,
                   Walk(file, next, parse).1 || Forward(file, next, end, parse).malformed),
                  Forward(file, 0, end, parse))
    decreases end, 0
  {
    PagesAgree(file, next, parse);
    ForwardSplits(file, 0, next, end, parse);
    AgreeJoins(Walk(file, next, parse), Forward(file, 0, next, parse), Forward(file, next, end, parse));
  }

  lemma {:induction false} ShortLinesFit(file: Bytes, lo: nat, hi: nat, parse: Bytes -> Reading)
    requires lo <= hi <= |file|
    requires forall p :: lo <= p < hi ==> LineEnd(file, p, hi) < p + WINDOW_BYTES
    ensures !Forward(file, lo, hi, parse).oversized
    decreases hi - lo
  {
    if lo < hi { ShortLinesFit(file, LineEnd(file, lo, hi), hi, parse); }
  }

  /** In particular, pages from the end of a file whose lines are all shorter than the window give its messages. */
  lemma PagesGiveAllMessages(file: Bytes, parse: Bytes -> Reading)
    requires Capped(parse) && forall p :: 0 <= p < |file| ==> LineEnd(file, p, |file|) < p + WINDOW_BYTES
    ensures Walk(file, |file|, parse).0 == Forward(file, 0, |file|, parse).messages
  {
    ShortLinesFit(file, 0, |file|, parse);
    PagesAgree(file, |file|, parse);
  }
}
