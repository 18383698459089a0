/** The server-sent event stream: the text the API writes, the lines the A2A client reads (sections 9.2.5 and 9.2.6
    of the WHATWG HTML Living Standard), and the cursor that decides which events are written. */
module Sse {
  import opened Wrappers
  import opened TextLines

  /** Data is the JSON text of the payload. */
  datatype Event = Event(id: string, kind: string, data: string)

  datatype Block = Comment(text: string) | Message(event: Event) | Closed(data: string)

  // ---- The writer --------------------------------------------------------------------------------------------

  /** Every line with its newline. */
  function TextOf(lines: seq<string>): string {
    if lines == [] then "" else lines[0] + "\n" + TextOf(lines[1..])
  }

  function BlockLines(b: Block): seq<string> {
    match b
    case Comment(text) => [":" + text, ""]
    case Message(e) => ["id: " + e.id, "event: " + e.kind, "data: " + e.data, ""]
    case Closed(data) => ["event: stream_closed", "data: " + data, ""]
  }

  function FormatBlock(b: Block): string {
    TextOf(BlockLines(b))
  }

  function Format(e: Event): string {
    FormatBlock(Message(e))
  }

  function Stream(blocks: seq<Block>): string {
    if blocks == [] then "" else FormatBlock(blocks[0]) + Stream(blocks[1..])
  }

  // ---- The reader ----------------------------------------------------------------------------------------------

  /** The event under construction and the events already handed out. */
  datatype Reader = Reader(id: string, kind: string, data: seq<string>, events: seq<Event>)

  const START := Reader("", "message", [], [])

  function JoinData(data: seq<string>): string
    requires data != []
  {
    Join(data)
  }

  /** The position of the first colon; the length of the line without one. */
  function ColonAt(line: string): (n: nat)
    ensures n <= |line|
  {
    if line == "" || line[0] == ':' then 0 else 1 + ColonAt(line[1..])
  }

  function FieldOf(line: string): string {
    line[..ColonAt(line)]
  }

  function ValueOf(line: string): string {
    if ColonAt(line) == |line| then "" else TrimLeft(line[ColonAt(line) + 1..])
  }

  function Step(r: Reader, line: string): Reader {
    if line == "" then
      Reader("", "message", [], if r.data == [] then r.events else r.events + [Event(r.id, r.kind, JoinData(r.data))])
    else if line[0] == ':' then r
    else if FieldOf(line) == "id" then r.(id := ValueOf(line))
    else if FieldOf(line) == "event" then r.(kind := ValueOf(line))
    else if FieldOf(line) == "data" then r.(data := r.data + [ValueOf(line)])
    else r
  }

  function Read(r: Reader, lines: seq<string>): Reader
    decreases |lines|
  {
    if lines == [] then r else Read(Step(r, lines[0]), lines[1..])
  }

  /** Carriage returns at the end of a line are dropped. */
  function Bare(raw: string): string {
    if raw != "" && raw[|raw| - 1] == '\r' then Bare(raw[..|raw| - 1]) else raw
  }

  function AllBare(raws: seq<string>): (lines: seq<string>)
    ensures |lines| == |raws| && forall i :: 0 <= i < |raws| ==> lines[i] == Bare(raws[i])
  {
    if raws == [] then [] else [Bare(raws[0])] + AllBare(raws[1..])
  }

  /** The lines of a text have none to drop. */
  lemma LinesAreBare(text: string)
    ensures AllBare(Lines(text)) == Lines(text)
  {
    forall i | 0 <= i < |Lines(text)| ensures Bare(Lines(text)[i]) == Lines(text)[i] {
    }
  }

  /** The client's loop over the lines of a response. */
  method StreamEvents(raws: seq<string>) returns (events: seq<Event>)
    ensures events == Read(START, AllBare(raws)).events
    ensures forall text :: raws == Lines(text) ==> events == Read(START, Lines(text)).events
  {
    ghost var lines := AllBare(raws);
    var id, kind, data: seq<string> := "", "message", [];
    events := [];
    for i := 0 to |raws|
      invariant Read(START, lines) == Read(Reader(id, kind, data, events), lines[i..])
    {
      var line := Bare(raws[i]);
      assert lines[i..][0] == line && lines[i..][1..] == lines[i + 1..];
      if line == "" {
        if data != [] {
          events := events + [Event(id, kind, JoinData(data))];
        }
        id, kind, data := "", "message", [];
        continue;
      }
      if line[0] == ':' {
        continue;
      }
      var field, value := FieldOf(line), ValueOf(line);
      if field == "id" {
        id := value;
      } else if field == "event" {
        kind := value;
      } else if field == "data" {
        data := data + [value];
      }
    }
    forall text | raws == Lines(text) ensures lines == Lines(text) {
      LinesAreBare(text);
    }
  }

  // ---- The round trip --------------------------------------------------------------------------------------------

  predicate OneLiner(b: Block) {
    match b
    case Comment(text) => BreakFree(text)
    case Message(e) => BreakFree(e.id) && BreakFree(e.kind) && BreakFree(e.data)
    case Closed(data) => BreakFree(data)
  }

  /** What a client makes of an event: leading white space of each field is gone. */
  function Seen(e: Event): Event {
    Event(TrimLeft(e.id), TrimLeft(e.kind), TrimLeft(e.data))
  }

  function SeenIn(b: Block): seq<Event> {
    match b
    case Comment(_) => []
    case Message(e) => [Seen(e)]
    case Closed(data) => [Seen(Event("", "stream_closed", data))]
  }

  function SeenAll(blocks: seq<Block>): seq<Event> {
    if blocks == [] then [] else SeenIn(blocks[0]) + SeenAll(blocks[1..])
  }

  lemma TextFirst(lines: seq<string>, rest: string)
    requires lines != []
    ensures TextOf(lines) + rest == lines[0] + "\n" + (TextOf(lines[1..]) + rest)
  {
  }

  lemma FirstThenRest<T>(first: T, middle: seq<T>, rest: seq<T>)
    ensures [first] + (middle + rest) == ([first] + middle) + rest
  {
  }

  lemma {:induction false} LinesOfText(lines: seq<string>, rest: string)
    requires forall i :: 0 <= i < |lines| ==> BreakFree(lines[i])
    ensures Lines(TextOf(lines) + rest) == lines + Lines(rest)
  {
    if lines == [] {
      assert TextOf(lines) + rest == rest;
    } else {
      var first, more := lines[0], lines[1..];
      TextFirst(lines, rest);
      LinesOfFirst(first, TextOf(more) + rest);
      LinesOfText(more, rest);
      FirstThenRest(first, more, Lines(rest));
      assert [first] + more == lines;
    }
  }

  lemma PrefixedLine(prefix: string, value: string)
    requires BreakFree(prefix) && BreakFree(value)
    ensures BreakFree(prefix + value)
  {
  }

  /** The lines of a block, whatever text follows it. */
  lemma LinesOfBlock(b: Block, rest: string)
    requires OneLiner(b)
    ensures Lines(FormatBlock(b) + rest) == BlockLines(b) + Lines(rest)
  {
    match b {
      case Comment(text) => PrefixedLine(":", text);
      case Message(e) =>
        PrefixedLine("id: ", e.id);
        PrefixedLine("event: ", e.kind);
        PrefixedLine("data: ", e.data);
      case Closed(data) => PrefixedLine("data: ", data);
    }
    LinesOfText(BlockLines(b), rest);
  }

  lemma {:induction false} ReadSplits(r: Reader, first: seq<string>, second: seq<string>)
    ensures Read(r, first + second) == Read(Read(r, first), second)
    decreases |first|
  {
    if first == [] {
      assert first + second == second;
    } else {
      assert (first + second)[0] == first[0] && (first + second)[1..] == first[1..] + second;
      ReadSplits(Step(r, first[0]), first[1..], second);
    }
  }

  lemma ReadOne(r: Reader, line: string, rest: seq<string>)
    ensures Read(r, [line] + rest) == Read(Step(r, line), rest)
  {
    assert ([line] + rest)[1..] == rest;
  }

  /** A field line written with one space gives its value without leading white space. */
  lemma FieldReadsBack(field: string, value: string)
    requires field != "" && ':' !in field
    ensures var line := field + ": " + value;
            line != "" && line[0] != ':' && FieldOf(line) == field && ValueOf(line) == TrimLeft(value)
  {
    var line := field + ": " + value;
    ColonAfter(field, " " + value);
    assert line == field + ":" + (" " + value);
    assert line[..|field|] == field && line[|field| + 1..] == " " + value;
    assert (" " + value)[1..] == value;
  }

  lemma {:induction false} ColonAfter(field: string, rest: string)
    requires ':' !in field
    ensures ColonAt(field + ":" + rest) == |field|
  {
    if field != "" {
      assert (field + ":" + rest)[1..] == field[1..] + ":" + rest;
      ColonAfter(field[1..], rest);
    }
  }

  lemma StepsOfFields(r: Reader, value: string)
    ensures Step(r, "id: " + value) == r.(id := TrimLeft(value))
    ensures Step(r, "event: " + value) == r.(kind := TrimLeft(value))
    ensures Step(r, "data: " + value) == r.(data := r.data + [TrimLeft(value)])
  {
    FieldReadsBack("id", value);
    FieldReadsBack("event", value);
    FieldReadsBack("data", value);
    assert "id" + ": " == "id: " && "event" + ": " == "event: " && "data" + ": " == "data: ";
  }

  function Fresh(events: seq<Event>): Reader {
    Reader("", "message", [], events)
  }

  lemma MessageReadsBack(events: seq<Event>, e: Event, rest: seq<string>)
    ensures Read(Fresh(events), BlockLines(Message(e)) + rest) == Read(Fresh(events + [Seen(e)]), rest)
  {
    var a, b, c := "id: " + e.id, "event: " + e.kind, "data: " + e.data;
    assert BlockLines(Message(e)) + rest == [a] + ([b] + ([c] + ([""] + rest)));
    var r1 := Fresh(events).(id := TrimLeft(e.id));
    var r2 := r1.(kind := TrimLeft(e.kind));
    var r3 := r2.(data := [TrimLeft(e.data)]);
    StepsOfFields(Fresh(events), e.id);
    StepsOfFields(r1, e.kind);
    StepsOfFields(r2, e.data);
    ReadOne(Fresh(events), a, [b] + ([c] + ([""] + rest)));
    ReadOne(r1, b, [c] + ([""] + rest));
    ReadOne(r2, c, [""] + rest);
    ReadOne(r3, "", rest);
  }

  lemma ClosedReadsBack(events: seq<Event>, data: string, rest: seq<string>)
    ensures Read(Fresh(events), BlockLines(Closed(data)) + rest)
            == Read(Fresh(events + [Seen(Event("", "stream_closed", data))]), rest)
  {
    var b, c := "event: stream_closed", "data: " + data;
    assert BlockLines(Closed(data)) + rest == [b] + ([c] + ([""] + rest));
    assert b == "event: " + "stream_closed";
    var r2 := Fresh(events).(kind := TrimLeft("stream_closed"));
    var r3 := r2.(data := [TrimLeft(data)]);
    StepsOfFields(Fresh(events), "stream_closed");
    StepsOfFields(r2, data);
    ReadOne(Fresh(events), b, [c] + ([""] + rest));
    ReadOne(r2, c, [""] + rest);
    ReadOne(r3, "", rest);
    assert TrimLeft("") == "";
  }

  lemma CommentReadsBack(events: seq<Event>, text: string, rest: seq<string>)
    ensures Read(Fresh(events), BlockLines(Comment(text)) + rest) == Read(Fresh(events), rest)
  {
    var line := ":" + text;
    assert BlockLines(Comment(text)) + rest == [line] + ([""] + rest);
    assert line[0] == ':';
    ReadOne(Fresh(events), line, [""] + rest);
    ReadOne(Fresh(events), "", rest);
  }

  lemma BlockReadsBack(events: seq<Event>, b: Block, rest: seq<string>)
    ensures Read(Fresh(events), BlockLines(b) + rest) == Read(Fresh(events + SeenIn(b)), rest)
  {
    match b
    case Comment(text) =>
      CommentReadsBack(events, text, rest);
      assert events + SeenIn(b) == events;
    case Message(e) => MessageReadsBack(events, e, rest);
    case Closed(data) => ClosedReadsBack(events, data, rest);
  }

  lemma StreamStep(events: seq<Event>, blocks: seq<Block>)
    requires blocks != [] && OneLiner(blocks[0])
    ensures Read(Fresh(events), Lines(Stream(blocks))) == Read(Fresh(events + SeenIn(blocks[0])), Lines(Stream(blocks[1..])))
  {
    LinesOfBlock(blocks[0], Stream(blocks[1..]));
    BlockReadsBack(events, blocks[0], Lines(Stream(blocks[1..])));
  }

  lemma Associates<T>(a: seq<T>, b: seq<T>, c: seq<T>)
    ensures (a + b) + c == a + (b + c)
  {
  }

  /** Main result of the stream: for any blocks without line breaks in their fields, the client hands out exactly the
      messages, in order, each with its fields as written but for leading white space. */
  lemma {:induction false} StreamReadsBack(events: seq<Event>, blocks: seq<Block>)
    requires forall i :: 0 <= i < |blocks| ==> OneLiner(blocks[i])
    ensures Read(Fresh(events), Lines(Stream(blocks))) == Fresh(events + SeenAll(blocks))
    decreases |blocks|
  {
    if blocks == [] {
      assert events + SeenAll(blocks) == events;
    } else {
      StreamStep(events, blocks);
      StreamReadsBack(events + SeenIn(blocks[0]), blocks[1..]);
      Associates(events, SeenIn(blocks[0]), SeenAll(blocks[1..]));
    }
  }

  predicate NoLeadingSpace(s: string) {
    s == "" || !IsSpace(s[0])
  }

  lemma {:induction false} TrimLeftKeepsIff(s: string)
    ensures |TrimLeft(s)| <= |s| && (TrimLeft(s) == s <==> NoLeadingSpace(s))
  {
    if s != "" && IsSpace(s[0]) {
      TrimLeftKeepsIff(s[1..]);
    }
  }

  /** An event arrives as it was written exactly when none of its fields starts with white space. */
  lemma EventArrivesIff(e: Event)
    requires OneLiner(Message(e))
    ensures Read(START, Lines(Format(e))).events == [e]
            <==> NoLeadingSpace(e.id) && NoLeadingSpace(e.kind) && NoLeadingSpace(e.data)
  {
    var blocks := [Message(e)];
    assert |blocks[1..]| == 0;
    assert Stream(blocks) == Format(e) + "" == Format(e);
    assert SeenAll(blocks) == [Seen(e)] + [];
    StreamReadsBack([], blocks);
    assert [] + SeenAll(blocks) == [Seen(e)];
    TrimLeftKeepsIff(e.id);
    TrimLeftKeepsIff(e.kind);
    TrimLeftKeepsIff(e.data);
  }

  // ---- Interruptions and comments --------------------------------------------------------------------------------------

  lemma {:induction false} EventsOnlyGrow(r: Reader, lines: seq<string>)
    ensures r.events <= Read(r, lines).events
    decreases |lines|
  {
    if lines != [] {
      EventsOnlyGrow(Step(r, lines[0]), lines[1..]);
    }
  }

  /** A comment line is invisible, between events and inside them. */
  lemma CommentLinesAreInvisible(before: seq<string>, text: string, after: seq<string>)
    ensures Read(START, before + [":" + text] + after) == Read(START, before + after)
  {
    var line := ":" + text;
    assert line[0] == ':';
    assert before + [line] + after == before + ([line] + after);
    ReadSplits(START, before, [line] + after);
    ReadOne(Read(START, before), line, after);
    ReadSplits(START, before, after);
  }

  lemma {:induction false} LinesFromBreak(s: string)
    requires FirstBreak(s) < |s|
    ensures var n := FirstBreak(s);
            n + BreakWidth(s, n) <= |s| && Lines(s) == [s[..n]] + Lines(s[n + BreakWidth(s, n)..])
  {
  }

  lemma PrefixWithinLine(s: string, k: nat)
    requires k <= FirstBreak(s)
    ensures Lines(s[..k]) == if k == 0 then [] else [s[..k]]
  {
    assert s[..k] == s[..FirstBreak(s)][..k];
    if k > 0 {
      LinesOfLast(s[..k]);
    }
  }

  lemma WidthInPrefix(s: string, k: nat, n: nat)
    requires n < |s| && n + BreakWidth(s, n) <= k <= |s|
    ensures BreakWidth(s[..k], n) == BreakWidth(s, n) && s[..k][..n] == s[..n]
  {
  }

  lemma PrefixAcrossBreak(s: string, k: nat, t: string, line: string, rest: string)
    requires FirstBreak(s) < |s| && FirstBreak(s) + BreakWidth(s, FirstBreak(s)) <= k <= |s| && t == s[..k]
    requires line == s[..FirstBreak(s)]
    requires var next := FirstBreak(s) + BreakWidth(s, FirstBreak(s)); rest == s[next..][..k - next]
    ensures Lines(t) == [line] + Lines(rest)
  {
    FirstBreakOfPrefix(s, k);
    WidthInPrefix(s, k, FirstBreak(s));
    SliceOfPrefix(s, k, FirstBreak(s) + BreakWidth(s, FirstBreak(s)));
    AcrossBreak(t, FirstBreak(s), BreakWidth(s, FirstBreak(s)), line, rest);
  }

  lemma {:induction false} AcrossBreak(t: string, n: nat, width: nat, line: string, rest: string)
    requires n < |t| && FirstBreak(t) == n && BreakWidth(t, n) == width && n + width <= |t|
    requires t[..n] == line && t[n + width..] == rest
    ensures Lines(t) == [line] + Lines(rest)
  {
    LinesFromBreak(t);
  }

  lemma SliceOfPrefix(s: string, k: nat, n: nat)
    requires n <= k <= |s|
    ensures s[..k][n..] == s[n..][..k - n]
  {
  }

  lemma PrefixInsideBreak(s: string, k: nat)
    requires FirstBreak(s) < k <= |s| && k < FirstBreak(s) + BreakWidth(s, FirstBreak(s))
    ensures Lines(s[..k]) == [s[..FirstBreak(s)]]
  {
    var n, t := FirstBreak(s), s[..k];
    FirstBreakOfPrefix(s, k);
    LinesFromBreak(t);
    assert t[..n] == s[..n] && |t[n + 1..]| == 0;
  }

  /** The lines of a cut text: some of the whole text's lines, and perhaps the start of the next one. */
  predicate CutLines(cut: seq<string>, whole: seq<string>, m: nat, partial: seq<string>) {
    && m <= |whole| && cut == whole[..m] + partial
    && (partial == [] || (|partial| == 1 && partial[0] != ""))
  }

  lemma CutBehind(first: string, cut: seq<string>, whole: seq<string>, m: nat, partial: seq<string>)
    requires CutLines(cut, whole, m, partial)
    ensures CutLines([first] + cut, [first] + whole, m + 1, partial)
  {
  }

  lemma CutAfterFirst(first: string, whole: seq<string>)
    ensures CutLines([first], [first] + whole, 1, [])
  {
  }

  /** The first k characters of a text have its first lines, and perhaps the start of the next one. */
  lemma {:induction false} LinesOfPrefix(s: string, k: nat) returns (m: nat, partial: seq<string>)
    requires k <= |s|
    ensures CutLines(Lines(s[..k]), Lines(s), m, partial)
    decreases |s|
  {
    var n := FirstBreak(s);
    if k <= n {
      m, partial := 0, if k == 0 then [] else [s[..k]];
      PrefixWithinLine(s, k);
    } else {
      LinesFromBreak(s);
      var line, rest := s[..n], s[n + BreakWidth(s, n)..];
      if k < n + BreakWidth(s, n) {
        PrefixInsideBreak(s, k);
        m, partial := 1, [];
        CutAfterFirst(line, Lines(rest));
      } else {
        var j := k - n - BreakWidth(s, n);
        PrefixAcrossBreak(s, k, s[..k], line, rest[..j]);
        m, partial := LinesOfPrefix(rest, j);
        CutBehind(line, Lines(rest[..j]), Lines(rest), m, partial);
        m := m + 1;
      }
    }
  }

  lemma {:induction false} FirstBreakOfPrefix(s: string, k: nat)
    requires FirstBreak(s) < k <= |s|
    ensures FirstBreak(s[..k]) == FirstBreak(s)
  {
    if FirstBreak(s) > 0 {
      FirstBreakOfPrefix(s[1..], k - 1);
      assert s[..k][1..] == s[1..][..k - 1];
    }
  }

  lemma PartialLineGivesNothing(r: Reader, partial: seq<string>)
    requires partial == [] || (|partial| == 1 && partial[0] != "")
    ensures Read(r, partial).events == r.events
  {
    if partial != [] {
      assert |partial[1..]| == 0;
    }
  }

  lemma MoreLinesGiveMore(lines: seq<string>, m: nat)
    requires m <= |lines|
    ensures Read(START, lines[..m]).events <= Read(START, lines).events
  {
    assert lines == lines[..m] + lines[m..];
    ReadSplits(START, lines[..m], lines[m..]);
    EventsOnlyGrow(Read(START, lines[..m]), lines[m..]);
  }

  /** A stream that breaks off at any character has delivered a prefix of its events, each of them whole. */
  lemma CutGivesPrefix(text: string, k: nat)
    requires k <= |text|
    ensures Read(START, Lines(text[..k])).events <= Read(START, Lines(text)).events
  {
    var m, partial := LinesOfPrefix(text, k);
    var lines := Lines(text);
    ReadSplits(START, lines[..m], partial);
    PartialLineGivesNothing(Read(START, lines[..m]), partial);
    MoreLinesGiveMore(lines, m);
  }

  // ---- The cursor -----------------------------------------------------------------------------------------------------------

  /** The first rows of the query: audit events of the task in order, cut at the limit. */
  function Queried(all: seq<Event>, limit: nat): seq<Event> {
    if |all| <= limit then all else all[..limit]
  }

  /** What follows the event with the cursor's id; None if it is not there. */
  function After(events: seq<Event>, id: string): Option<seq<Event>> {
    if events == [] then None else if events[0].id == id then Some(events[1..]) else After(events[1..], id)
  }

  /** Without a cursor, and with one that is not among the rows, everything. */
  function DrainOf(all: seq<Event>, cursor: Option<string>, limit: nat): seq<Event> {
    var events := Queried(all, limit);
    if cursor.None? || After(events, cursor.value).None? then events else After(events, cursor.value).value
  }

  method Drain(all: seq<Event>, cursor: Option<string>, limit: nat) returns (out: seq<Event>)
    ensures out == DrainOf(all, cursor, limit)
  {
    var events := Queried(all, limit);
    if cursor.None? {
      return events;
    }
    var seen := false;
    out := [];
    for i := 0 to |events|
      invariant !seen ==> out == [] && After(events, cursor.value) == After(events[i..], cursor.value)
      invariant seen ==> After(events, cursor.value) == Some(out + events[i..])
    {
      assert events[i..] == [events[i]] + events[i + 1..] && events[i..][1..] == events[i + 1..];
      if seen {
        assert out + events[i..] == (out + [events[i]]) + events[i + 1..];
        out := out + [events[i]];
        continue;
      }
      if events[i].id == cursor.value {
        assert out + events[i + 1..] == events[i + 1..];
        seen := true;
      }
    }
    if !seen {
      out := events;
    }
  }

  function NewCursor(cursor: Option<string>, out: seq<Event>): Option<string> {
    if out == [] then cursor else Some(out[|out| - 1].id)
  }

  /** What a connection writes over a series of polls of the growing table. */
  function Polls(tables: seq<seq<Event>>, cursor: Option<string>, limit: nat): seq<Event>
    decreases |tables|
  {
    if tables == [] then []
    else
      var out := DrainOf(tables[0], cursor, limit);
      out + Polls(tables[1..], NewCursor(cursor, out), limit)
  }

  predicate DistinctIds(all: seq<Event>) {
    forall i, j :: 0 <= i < j < |all| ==> all[i].id != all[j].id
  }

  /** The table is only ever appended to. */
  predicate Growing(tables: seq<seq<Event>>) {
    forall i :: 0 <= i < |tables| - 1 ==> tables[i] <= tables[i + 1]
  }

  /** The cursor after the first n events have been written. */
  predicate CursorAt(all: seq<Event>, cursor: Option<string>, n: nat) {
    n <= |all| && cursor == if n == 0 then None else Some(all[n - 1].id)
  }

  lemma {:induction false} AfterPosition(events: seq<Event>, n: nat)
    requires DistinctIds(events) && 0 < n <= |events|
    ensures After(events, events[n - 1].id) == Some(events[n..])
    decreases n
  {
    if n > 1 {
      AfterPosition(events[1..], n - 1);
      assert events[1..][n - 2] == events[n - 1] && events[1..][n - 1..] == events[n..];
    }
  }

  lemma DrainFrom(all: seq<Event>, cursor: Option<string>, limit: nat, n: nat)
    requires DistinctIds(all) && CursorAt(all, cursor, n) && n <= limit
    ensures DrainOf(all, cursor, limit) == Queried(all, limit)[n..]
    ensures CursorAt(all, NewCursor(cursor, DrainOf(all, cursor, limit)), |Queried(all, limit)|)
  {
    var events := Queried(all, limit);
    if n > 0 {
      assert events[n - 1] == all[n - 1];
      AfterPosition(events, n);
    }
    var out := events[n..];
    if out != [] {
      assert out[|out| - 1] == events[|events| - 1];
    }
  }

  /** Main result of the cursor: over any number of polls of a growing table a connection that starts after the first
      n events writes every later event once, in order, up to the limit; nothing beyond the limit is ever written. */
  lemma {:induction false} PollsDeliverOnce(tables: seq<seq<Event>>, cursor: Option<string>, limit: nat, n: nat)
    requires tables != [] && Growing(tables) && DistinctIds(tables[|tables| - 1])
    requires CursorAt(tables[0], cursor, n) && n <= limit
    ensures tables[0] <= tables[|tables| - 1] && n <= |Queried(tables[|tables| - 1], limit)|
    ensures Polls(tables, cursor, limit) == Queried(tables[|tables| - 1], limit)[n..]
    decreases |tables|
  {
    var all, out := tables[0], DrainOf(tables[0], cursor, limit);
    if |tables| == 1 {
      DrainFrom(all, cursor, limit, n);
      assert |tables[1..]| == 0;
    } else {
      var rest, next, last := tables[1..], tables[1], tables[|tables| - 1];
      assert tables[0] <= tables[1];
      var m := |Queried(all, limit)|;
      GrowingTail(tables);
      GrowthIsPrefix(rest);
      DistinctPrefix(all, last);
      DrainFrom(all, cursor, limit, n);
      assert CursorAt(next, NewCursor(cursor, out), m);
      PollsDeliverOnce(rest, NewCursor(cursor, out), limit, m);
      QueriedSplits(all, last, limit, n);
    }
  }

  lemma GrowingTail(tables: seq<seq<Event>>)
    requires Growing(tables) && |tables| > 1
    ensures Growing(tables[1..])
  {
    assert forall i :: 0 <= i < |tables[1..]| ==> tables[1..][i] == tables[i + 1];
  }

  lemma {:induction false} GrowthIsPrefix(tables: seq<seq<Event>>)
    requires tables != [] && Growing(tables)
    ensures tables[0] <= tables[|tables| - 1]
    decreases |tables|
  {
    if |tables| > 1 {
      assert tables[0] <= tables[1];
      GrowingTail(tables);
      GrowthIsPrefix(tables[1..]);
    }
  }

  lemma DistinctPrefix(all: seq<Event>, later: seq<Event>)
    requires all <= later && DistinctIds(later)
    ensures DistinctIds(all)
  {
    assert forall i :: 0 <= i < |all| ==> all[i] == later[i];
  }

  lemma QueriedSplits(all: seq<Event>, later: seq<Event>, limit: nat, n: nat)
    requires all <= later && n <= |Queried(all, limit)|
    ensures |Queried(all, limit)| <= |Queried(later, limit)|
    ensures Queried(all, limit)[n..] + Queried(later, limit)[|Queried(all, limit)|..] == Queried(later, limit)[n..]
  {
    var q, p := Queried(all, limit), Queried(later, limit);
    assert q == p[..|q|];
  }
}
