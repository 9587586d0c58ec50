/** The event-stream format as the WHATWG HTML Living Standard gives it: how a text falls into
    lines (section 9.2.5) and what each line does (section 9.2.6).  Nothing here is incremental:
    it is what the chunked parser of module SseParsing is measured against. */
module EventStream {

  datatype Event = Event(event: string, data: string, lastEventId: string)

  /** The lines of a finished stream: CRLF, LF or CR ends a line, a CR at the very end included.
      Text after the last line ending is no line. `cur` is the part of the line already read. */
  function Lines(text: string, cur: string): seq<string>
    decreases |text|
  {
    if text == "" then []
    else if text[0] == '\n' then [cur] + Lines(text[1..], "")
    else if text[0] == '\r' then
      [cur] + Lines(if |text| > 1 && text[1] == '\n' then text[2..] else text[1..], "")
    else Lines(text[1..], cur + [text[0]])
  }

  /** A line free of line endings. */
  predicate Clean(line: string) {
    forall k :: 0 <= k < |line| ==> line[k] != '\n' && line[k] != '\r'
  }

  datatype Ending = LF | CR | CRLF {
    function Text(): (s: string)
      ensures s == "\n" || s == "\r" || s == "\r\n"
    {
      match this
      case LF => "\n"
      case CR => "\r"
      case CRLF => "\r\n"
    }
  }

  datatype EndedLine = EndedLine(line: string, ending: Ending)

  /** The text that writes out the given lines followed by an unfinished one. */
  function Render(lines: seq<EndedLine>, tail: string): string {
    if lines == [] then tail
    else lines[0].line + lines[0].ending.Text() + Render(lines[1..], tail)
  }

  /** A rendering can be read only one way unless a lone CR is directly followed by an LF. */
  predicate Unambiguous(lines: seq<EndedLine>, tail: string) {
    && Clean(tail)
    && (forall i :: 0 <= i < |lines| ==> Clean(lines[i].line))
    && (forall i :: 0 <= i < |lines| - 1 ==>
         !(lines[i].ending.CR? && lines[i + 1].line == "" && lines[i + 1].ending.LF?))
  }

  function Texts(lines: seq<EndedLine>): seq<string> {
    if lines == [] then [] else [lines[0].line] + Texts(lines[1..])
  }

  lemma {:induction false} LinesOfClean(line: string, rest: string, cur: string)
    requires Clean(line)
    ensures Lines(line + rest, cur) == Lines(rest, cur + line)
    decreases |line|
  {
    if line == "" {
      assert line + rest == rest;
      assert cur + line == cur;
    } else {
      assert (line + rest)[0] == line[0];
      assert (line + rest)[1..] == line[1..] + rest;
      LinesOfClean(line[1..], rest, cur + [line[0]]);
      assert cur + [line[0]] + line[1..] == cur + line;
    }
  }

  /** Reading undoes writing: whatever mix of line endings was used, the lines come back. */
  lemma {:induction false} LinesOfRendering(lines: seq<EndedLine>, tail: string)
    requires Unambiguous(lines, tail)
    ensures Lines(Render(lines, tail), "") == Texts(lines)
  {
    if lines == [] {
      LinesOfClean(tail, "", "");
      assert tail + "" == tail;
    } else {
      var h, rest := lines[0], Render(lines[1..], tail);
      var after := h.ending.Text() + rest;
      assert Render(lines, tail) == h.line + after;
      LinesOfClean(h.line, after, "");
      assert "" + h.line == h.line;
      LinesOfRendering(lines[1..], tail);
      if h.ending.CR? {
        FirstCharOfRendering(lines[1..], tail);
        assert after[1..] == rest;
        assert |after| > 1 ==> after[1] == rest[0];
      } else if h.ending.LF? {
        assert after[1..] == rest;
      } else {
        assert after[2..] == rest;
      }
    }
  }

  lemma FirstCharOfRendering(lines: seq<EndedLine>, tail: string)
    requires Unambiguous(lines, tail)
    requires lines != [] ==> !(lines[0].line == "" && lines[0].ending.LF?)
    ensures Render(lines, tail) != "" ==> Render(lines, tail)[0] != '\n'
  {
  }

  // ---------------------------------------------------------------- field syntax

  /** The first index of `c`, or the length when there is none. */
  function IndexOf(s: string, c: char): (i: nat)
    ensures i <= |s|
    ensures i < |s| ==> s[i] == c
  {
    if s == "" || s[0] == c then 0 else 1 + IndexOf(s[1..], c)
  }

  lemma {:induction false} AbsentBeforeIndex(s: string, c: char)
    ensures c !in s[..IndexOf(s, c)]
    decreases s
  {
    if s != "" && s[0] != c {
      AbsentBeforeIndex(s[1..], c);
      assert s[..IndexOf(s, c)] == [s[0]] + s[1..][..IndexOf(s[1..], c)];
    }
  }

  lemma {:induction false} IndexAfter(name: string, c: char, rest: string)
    requires c !in name
    ensures IndexOf(name + [c] + rest, c) == |name|
    decreases name
  {
    var s := name + [c] + rest;
    if name == "" {
      assert s[0] == c;
    } else {
      assert s[0] == name[0] && s[1..] == name[1..] + [c] + rest;
      IndexAfter(name[1..], c, rest);
    }
  }

  /** Field name and value of a line. */
  function SplitField(line: string): (string, string) {
    var colon := IndexOf(line, ':');
    if colon == |line| then (line, "")
    else
      var value := line[colon + 1..];
      (line[..colon], if value != "" && value[0] == ' ' then value[1..] else value)
  }

  /** The name ends at the first colon and one space after the colon is dropped; without a colon the
      whole line is the name. */
  lemma SplitFieldMeaning(line: string, name: string, value: string)
    requires (name, value) == SplitField(line)
    ensures ':' !in name
    ensures ':' !in line ==> name == line && value == ""
    ensures ':' in line ==> line == name + ": " + value
                            || (line == name + ":" + value && (value == "" || value[0] != ' '))
  {
    var colon := IndexOf(line, ':');
    AbsentBeforeIndex(line, ':');
    if colon == |line| {
      assert line[..|line|] == line;
    } else {
      var raw := line[colon + 1..];
      assert line == name + ":" + raw;
      if raw != "" && raw[0] == ' ' { assert raw == " " + value && line == name + ": " + value; }
    }
  }

  predicate IsDigits(s: string) {
    s != "" && forall i :: 0 <= i < |s| ==> '0' <= s[i] <= '9'
  }

  function Decimal(s: string): nat
    requires forall i :: 0 <= i < |s| ==> '0' <= s[i] <= '9'
  {
    if s == "" then 0
    else Decimal(s[..|s| - 1]) * 10 + DigitValue(s[|s| - 1])
  }

  function DigitValue(c: char): nat
    requires '0' <= c <= '9'
  {
    c as int - '0' as int
  }

  // ---------------------------------------------------------------- interpretation

  /** The standard's buffers. `lastId` is the last event ID string, which only a blank line
      updates from `idBuffer`; `time` is the reconnection time. */
  datatype Buffers = Buffers(data: string, eventType: string, idBuffer: string, lastId: string, time: int)

  function OnField(b: Buffers, name: string, value: string): Buffers {
    if name == "event" then b.(eventType := value)
    else if name == "data" then b.(data := b.data + value + "\n")
    else if name == "id" then if '\0' in value then b else b.(idBuffer := value)
    else if name == "retry" then if IsDigits(value) then b.(time := Decimal(value)) else b
    else b
  }

  function Dispatch(b: Buffers): (Buffers, seq<Event>) {
    var b1 := b.(lastId := b.idBuffer, data := "", eventType := "");
    if b.data == "" then (b1, [])
    else
      var data := if b.data[|b.data| - 1] == '\n' then b.data[..|b.data| - 1] else b.data;
      (b1, [Event(if b.eventType == "" then "message" else b.eventType, data, b.idBuffer)])
  }

  function OnLine(b: Buffers, line: string): (Buffers, seq<Event>) {
    if line == "" then Dispatch(b)
    else if line[0] == ':' then (b, [])
    else
      var (name, value) := SplitField(line);
      (OnField(b, name, value), [])
  }

  function OnLines(b: Buffers, lines: seq<string>): (Buffers, seq<Event>)
    decreases lines
  {
    if lines == [] then (b, [])
    else
      var (b1, e1) := OnLine(b, lines[0]);
      var (b2, e2) := OnLines(b1, lines[1..]);
      (b2, e1 + e2)
  }

  /** The value the last `retry` line made of digits gives, if there is one. */
  function LastRetry(lines: seq<string>, before: int): int {
    if lines == [] then before
    else
      var l := lines[0];
      var (name, value) := SplitField(l);
      LastRetry(lines[1..],
                if l != "" && l[0] != ':' && name == "retry" && IsDigits(value) then Decimal(value) else before)
  }

  /** The id in force after the lines, starting from `before`. */
  function LastId(lines: seq<string>, before: string): string {
    if lines == [] then before
    else
      var l := lines[0];
      var (name, value) := SplitField(l);
      LastId(lines[1..],
             if l != "" && l[0] != ':' && name == "id" && '\0' !in value then value else before)
  }

  /** The lines of the block a blank line has not closed yet. */
  function OpenBlock(lines: seq<string>): seq<string> {
    if lines == [] then []
    else if "" in lines[1..] then OpenBlock(lines[1..])
    else if lines[0] == "" then lines[1..]
    else lines
  }

  /** The lines up to and including the last blank one. */
  function ClosedBlocks(lines: seq<string>): seq<string> {
    if lines == [] then []
    else if "" in lines[1..] then [lines[0]] + ClosedBlocks(lines[1..])
    else if lines[0] == "" then [lines[0]]
    else []
  }

  lemma {:induction false} BlocksMakeLines(lines: seq<string>)
    ensures ClosedBlocks(lines) + OpenBlock(lines) == lines
    ensures "" !in OpenBlock(lines)
    ensures ClosedBlocks(lines) != [] ==> ClosedBlocks(lines)[|ClosedBlocks(lines)| - 1] == ""
    decreases lines
  {
    if lines != [] {
      assert lines == [lines[0]] + lines[1..];
      if "" in lines[1..] {
        BlocksMakeLines(lines[1..]);
        assert ClosedBlocks(lines[1..]) != [];
      }
    }
  }
}

/** frontend/src/api/sseParser.ts: the parser that is fed arbitrary chunks. */
module SseParsing {
  import opened EventStream

  const MAX_SAFE_INTEGER: int := 9007199254740991
  const DEFAULT_RECONNECT_MS: int := 3000

  /** Everything the parser remembers between lines. */
  datatype Fields = Fields(dataLines: seq<string>, eventName: string, lastEventId: string, reconnectDelayMs: int)

  function Join(lines: seq<string>): string {
    if lines == [] then ""
    else if |lines| == 1 then lines[0]
    else lines[0] + "\n" + Join(lines[1..])
  }

  /** The effect of one complete line. */
  function Line(f: Fields, line: string): (Fields, seq<Event>) {
    if line == "" then
      (f.(dataLines := [], eventName := ""),
       if |f.dataLines| > 0 then
         [Event(if f.eventName != "" then f.eventName else "message", Join(f.dataLines), f.lastEventId)]
       else [])
    else if line[0] == ':' then (f, [])
    else
      var (field, value) := SplitField(line);
      (if field == "data" then f.(dataLines := f.dataLines + [value])
       else if field == "event" then f.(eventName := value)
       else if field == "id" && '\0' !in value then f.(lastEventId := value)
       else if field == "retry" && IsDigits(value) && Decimal(value) <= MAX_SAFE_INTEGER then
         f.(reconnectDelayMs := Decimal(value))
       else f,
       [])
  }

  function Interpret(f: Fields, lines: seq<string>): (Fields, seq<Event>)
    decreases lines
  {
    if lines == [] then (f, [])
    else
      var (f1, e1) := Line(f, lines[0]);
      var (f2, e2) := Interpret(f1, lines[1..]);
      (f2, e1 + e2)
  }

  lemma InterpretCons(f: Fields, line: string, rest: seq<string>)
    ensures Interpret(f, [line] + rest)
         == (Interpret(Line(f, line).0, rest).0, Line(f, line).1 + Interpret(Line(f, line).0, rest).1)
  {
  }

  lemma {:induction false} InterpretConcat(f: Fields, a: seq<string>, b: seq<string>)
    ensures Interpret(f, a + b).0 == Interpret(Interpret(f, a).0, b).0
    ensures Interpret(f, a + b).1 == Interpret(f, a).1 + Interpret(Interpret(f, a).0, b).1
    decreases a
  {
    if a == [] {
      assert a + b == b;
    } else {
      var x, a' := a[0], a[1..];
      var f1 := Line(f, x).0;
      assert a == [x] + a' && a + b == [x] + (a' + b);
      InterpretCons(f, x, a' + b);
      InterpretConcat(f1, a', b);
      Assoc(Line(f, x).1, Interpret(f1, a').1, Interpret(Interpret(f1, a').0, b).1);
    }
  }

  lemma Assoc(a: seq<Event>, b: seq<Event>, c: seq<Event>)
    ensures a + (b + c) == (a + b) + c
  {
  }

  // ---------------------------------------------------------------- line boundaries

  predicate IsBreak(c: char) { c == '\n' || c == '\r' }

  /** Index of the first CR or LF, or the length. */
  function FirstBreak(s: string): (i: nat)
    ensures i <= |s|
    ensures i < |s| ==> IsBreak(s[i])
  {
    if s == "" || IsBreak(s[0]) then 0 else 1 + FirstBreak(s[1..])
  }

  lemma {:induction false} CleanToBreak(s: string)
    ensures Clean(s[..FirstBreak(s)])
    decreases s
  {
    if s != "" && !IsBreak(s[0]) {
      CleanToBreak(s[1..]);
      assert s[..FirstBreak(s)] == [s[0]] + s[1..][..FirstBreak(s[1..])];
    }
  }

  lemma {:induction false} BreakAfterClean(line: string, rest: string)
    requires Clean(line)
    ensures FirstBreak(line + rest) == |line| + FirstBreak(rest)
    decreases line
  {
    if line == "" {
      assert line + rest == rest;
    } else {
      assert (line + rest)[0] == line[0] && (line + rest)[1..] == line[1..] + rest;
      BreakAfterClean(line[1..], rest);
    }
  }

  lemma {:induction false} BreakStays(p: string, q: string)
    requires FirstBreak(p) < |p|
    ensures FirstBreak(p + q) == FirstBreak(p)
    decreases p
  {
    assert (p + q)[0] == p[0] && (p + q)[1..] == p[1..] + q;
    if !IsBreak(p[0]) { BreakStays(p[1..], q); }
  }

  datatype Boundary = NoBoundary | Boundary(index: nat, width: nat)

  /** The first line ending that no later text can change: an LF, or a CR whose next character is
      known. */
  function FindBoundary(s: string): (b: Boundary)
    ensures b.Boundary? ==> b.width > 0 && b.index + b.width <= |s|
  {
    var i := FirstBreak(s);
    if i == |s| then NoBoundary
    else if s[i] == '\n' then Boundary(i, 1)
    else if i + 1 == |s| then NoBoundary
    else Boundary(i, if s[i + 1] == '\n' then 2 else 1)
  }

  /** The line up to the boundary has no break in it, and the boundary is a whole LF, CRLF or lone CR;
      without one the text has no break but perhaps a CR at its end. */
  lemma BoundaryIsFirst(s: string)
    ensures FindBoundary(s).Boundary? ==>
              var (i, end) := (FindBoundary(s).index, FindBoundary(s).index + FindBoundary(s).width);
              && Clean(s[..i])
              && (s[i..end] == "\n" || s[i..end] == "\r\n" || (s[i..end] == "\r" && end < |s| && s[end] != '\n'))
    ensures FindBoundary(s).NoBoundary? ==> Clean(s) || (s != "" && Clean(s[..|s| - 1]) && s[|s| - 1] == '\r')
  {
    CleanToBreak(s);
    var i := FirstBreak(s);
    if i == |s| { assert s[..i] == s; }
  }

  lemma BoundaryStays(p: string, q: string)
    requires FindBoundary(p).Boundary?
    ensures FindBoundary(p + q) == FindBoundary(p)
  {
    var i := FirstBreak(p);
    BreakStays(p, q);
    assert (p + q)[i] == p[i] && (i + 1 < |p| ==> (p + q)[i + 1] == p[i + 1]);
  }

  /** Complete lines taken off the front of the buffer, and what is left over. */
  datatype Cut = Cut(lines: seq<string>, rest: string)

  function Split(s: string): Cut
    decreases |s|
  {
    match FindBoundary(s)
    case NoBoundary => Cut([], s)
    case Boundary(i, w) =>
      var more := Split(s[i + w..]);
      Cut([s[..i]] + more.lines, more.rest)
  }

  lemma DropThenAppend(p: string, q: string, k: nat)
    requires k <= |p|
    ensures (p + q)[k..] == p[k..] + q && (p + q)[..k] == p[..k]
  {
  }

  lemma Prepend(line: string, a: seq<string>, b: seq<string>)
    ensures [line] + (a + b) == ([line] + a) + b
  {
  }

  lemma SplitMoreAt(p: string, q: string)
    requires FindBoundary(p).Boundary?
    ensures var b := FindBoundary(p);
            var more := Split(p[b.index + b.width..] + q);
            Split(p + q) == Cut([p[..b.index]] + more.lines, more.rest)
  {
    var b := FindBoundary(p);
    BoundaryStays(p, q);
    DropThenAppend(p, q, b.index + b.width);
    DropThenAppend(p, q, b.index);
  }

  /** Draining early loses nothing: lines already taken stay the same whatever text follows. */
  lemma {:induction false} SplitThenMore(p: string, q: string)
    ensures Split(p + q).lines == Split(p).lines + Split(Split(p).rest + q).lines
    ensures Split(p + q).rest == Split(Split(p).rest + q).rest
    decreases |p|
  {
    match FindBoundary(p) {
      case NoBoundary =>
        assert [] + Split(p + q).lines == Split(p + q).lines;
      case Boundary(i, w) =>
        var p1 := p[i + w..];
        var first, more := Split(p1), Split(p1 + q);
        SplitMoreAt(p, q);
        SplitThenMore(p1, q);
        assert Split(p + q) == Cut([p[..i]] + more.lines, more.rest);
        assert Split(p) == Cut([p[..i]] + first.lines, first.rest);
        Prepend(p[..i], first.lines, Split(first.rest + q).lines);
    }
  }

  lemma LinesAtBoundary(s: string)
    requires FindBoundary(s).Boundary?
    ensures var b := FindBoundary(s); Lines(s, "") == [s[..b.index]] + Lines(s[b.index + b.width..], "")
  {
    var b := FindBoundary(s);
    var line, tail := s[..b.index], s[b.index..];
    assert s == line + tail;
    CleanToBreak(s);
    LinesOfClean(line, tail, "");
    assert "" + line == line;
    assert tail[b.width..] == s[b.index + b.width..];
  }

  /** The complete lines are the first lines of the text; the rest is still to be read. */
  lemma {:induction false} LinesOfSplit(s: string)
    ensures Lines(s, "") == Split(s).lines + Lines(Split(s).rest, "")
    decreases |s|
  {
    match FindBoundary(s) {
      case NoBoundary =>
        assert [] + Lines(s, "") == Lines(s, "");
      case Boundary(i, w) =>
        var more := Split(s[i + w..]);
        LinesAtBoundary(s);
        LinesOfSplit(s[i + w..]);
        assert Split(s) == Cut([s[..i]] + more.lines, more.rest);
        Prepend(s[..i], more.lines, Lines(more.rest, ""));
    }
  }

  /** What a drain leaves behind holds no complete line. */
  lemma {:induction false} SplitRest(s: string)
    ensures FindBoundary(Split(s).rest).NoBoundary?
    decreases |s|
  {
    match FindBoundary(s) {
      case NoBoundary =>
      case Boundary(i, w) => SplitRest(s[i + w..]);
    }
  }

  function Closed(rest: string): string {
    if rest != "" && rest[|rest| - 1] == '\r' then rest + "\n" else rest
  }

  lemma LinesOfCleanRest(rest: string)
    requires Clean(rest)
    ensures Split(Closed(rest)).lines == [] && Lines(rest, "") == []
  {
    LinesOfClean(rest, "", "");
    BreakAfterClean(rest, "");
    assert rest + "" == rest;
  }

  lemma LinesOfCr(line: string)
    requires Clean(line)
    ensures Lines(line + "\r", "") == [line]
  {
    LinesOfClean(line, "\r", "");
    assert "" + line == line;
    assert "\r"[1..] == "";
  }

  lemma SplitOfCrLf(line: string)
    requires Clean(line)
    ensures Split(line + "\r\n").lines == [line]
  {
    var s := line + "\r\n";
    BreakAfterClean(line, "\r\n");
    assert s[|line|] == '\r' && s[|line| + 1] == '\n';
    assert s[..|line|] == line && s[|line| + 2..] == "";
    assert [line] + Split("").lines == [line];
  }

  /** At the end of input a left-over CR still ends its line. */
  lemma LinesOfRest(rest: string)
    requires FindBoundary(rest).NoBoundary?
    ensures Split(Closed(rest)).lines == Lines(rest, "")
  {
    var i := FirstBreak(rest);
    var line := rest[..i];
    CleanToBreak(rest);
    if i == |rest| {
      assert line == rest;
      LinesOfCleanRest(rest);
    } else {
      assert rest == line + "\r" && rest + "\n" == line + "\r\n";
      LinesOfCr(line);
      SplitOfCrLf(line);
    }
  }

  // ---------------------------------------------------------------- the parser as a value

  datatype Parser = Parser(buffer: string, fields: Fields)

  function FeedText(p: Parser, chunk: string): (Parser, seq<Event>) {
    var cut := Split(p.buffer + chunk);
    var (f, events) := Interpret(p.fields, cut.lines);
    (Parser(cut.rest, f), events)
  }

  function FinishText(p: Parser): (Parser, seq<Event>) {
    var (f, events) := Interpret(p.fields, Split(Closed(p.buffer)).lines);
    (Parser("", f), events)
  }

  function FeedAll(p: Parser, chunks: seq<string>): (Parser, seq<Event>)
    decreases chunks
  {
    if chunks == [] then (p, [])
    else
      var (p1, e1) := FeedText(p, chunks[0]);
      var (p2, e2) := FeedAll(p1, chunks[1..]);
      (p2, e1 + e2)
  }

  function Flatten(chunks: seq<string>): string {
    if chunks == [] then "" else chunks[0] + Flatten(chunks[1..])
  }

  /** Feeding two pieces is feeding their concatenation. */
  lemma FeedTwice(p: Parser, c: string, more: string)
    ensures var (p1, e1) := FeedText(p, c);
            var (p2, e2) := FeedText(p1, more);
            FeedText(p, c + more) == (p2, e1 + e2)
  {
    var s := p.buffer + c;
    assert s + more == p.buffer + (c + more);
    SplitThenMore(s, more);
    InterpretConcat(p.fields, Split(s).lines, Split(Split(s).rest + more).lines);
  }

  /** Feeding chunk by chunk is feeding once. */
  lemma {:induction false} FeedAllIsFeed(p: Parser, chunks: seq<string>)
    requires FindBoundary(p.buffer).NoBoundary?
    ensures FeedAll(p, chunks) == FeedText(p, Flatten(chunks))
    decreases chunks
  {
    if chunks == [] {
      assert p.buffer + "" == p.buffer;
    } else {
      SplitRest(p.buffer + chunks[0]);
      FeedTwice(p, chunks[0], Flatten(chunks[1..]));
      FeedAllIsFeed(FeedText(p, chunks[0]).0, chunks[1..]);
    }
  }

  function ParseChunks(f: Fields, chunks: seq<string>): (Fields, seq<Event>) {
    var (p1, e1) := FeedAll(Parser("", f), chunks);
    var (p2, e2) := FinishText(p1);
    (p2.fields, e1 + e2)
  }

  /** Chunk independence: however the text is cut, the parser does to its fields and emits exactly
      what processing the lines of the whole text would. */
  lemma ChunkIndependence(f: Fields, chunks: seq<string>)
    ensures ParseChunks(f, chunks) == Interpret(f, Lines(Flatten(chunks), ""))
  {
    var text := Flatten(chunks);
    FeedAllIsFeed(Parser("", f), chunks);
    assert "" + text == text;
    LinesOfSplit(text);
    SplitRest(text);
    LinesOfRest(Split(text).rest);
    InterpretConcat(f, Split(text).lines, Lines(Split(text).rest, ""));
  }

  /** Streaming never takes an event back: what was emitted for a prefix of the text is a prefix of
      what the whole text emits. */
  lemma EventsGrow(f: Fields, before: seq<string>, after: seq<string>)
    ensures FeedAll(Parser("", f), before).1 <= ParseChunks(f, before + after).1
  {
    var (p, e) := FeedAll(Parser("", f), before);
    FeedAllConcat(Parser("", f), before, after);
  }

  lemma FeedAllCons(p: Parser, x: string, rest: seq<string>)
    ensures FeedAll(p, [x] + rest)
         == (FeedAll(FeedText(p, x).0, rest).0, FeedText(p, x).1 + FeedAll(FeedText(p, x).0, rest).1)
  {
  }

  lemma {:induction false} FeedAllConcat(p: Parser, a: seq<string>, b: seq<string>)
    ensures FeedAll(p, a + b).0 == FeedAll(FeedAll(p, a).0, b).0
    ensures FeedAll(p, a + b).1 == FeedAll(p, a).1 + FeedAll(FeedAll(p, a).0, b).1
    decreases a
  {
    if a == [] {
      assert a + b == b;
    } else {
      var x, a' := a[0], a[1..];
      var p1 := FeedText(p, x).0;
      assert a == [x] + a' && a + b == [x] + (a' + b);
      FeedAllCons(p, x, a' + b);
      FeedAllConcat(p1, a', b);
      Assoc(FeedText(p, x).1, FeedAll(p1, a').1, FeedAll(FeedAll(p1, a').0, b).1);
    }
  }

  // ---------------------------------------------------------------- agreement with the standard

  function Terminated(lines: seq<string>): string {
    if lines == [] then "" else Terminated(lines[..|lines| - 1]) + lines[|lines| - 1] + "\n"
  }

  lemma {:induction false} TerminatedFront(lines: seq<string>)
    requires lines != []
    ensures Terminated(lines) == lines[0] + "\n" + Terminated(lines[1..])
  {
    if |lines| == 1 {
      assert lines[..0] == [] && lines[1..] == [];
      assert "" + lines[0] + "\n" == lines[0] + "\n" + "";
    } else {
      var front, last := lines[..|lines| - 1], lines[|lines| - 1];
      TerminatedFront(front);
      assert front[0] == lines[0];
      assert front[1..] == lines[1..][..|lines| - 2];
      var m := Terminated(front[1..]);
      assert lines[1..][|lines| - 2] == last;
      assert (lines[0] + "\n" + m) + last + "\n" == lines[0] + "\n" + (m + last + "\n");
    }
  }

  /** Joining with LF is terminating every line and dropping the final LF. */
  lemma {:induction false} JoinIsTerminated(lines: seq<string>)
    requires lines != []
    ensures Terminated(lines) == Join(lines) + "\n"
  {
    TerminatedFront(lines);
    if |lines| == 1 {
      assert lines[1..] == [];
      assert lines[0] + "\n" + "" == lines[0] + "\n";
    } else {
      JoinIsTerminated(lines[1..]);
      assert lines[0] + "\n" + (Join(lines[1..]) + "\n") == (lines[0] + "\n" + Join(lines[1..])) + "\n";
    }
  }

  predicate Matches(f: Fields, b: Buffers) {
    && b.data == Terminated(f.dataLines)
    && b.eventType == f.eventName
    && b.idBuffer == f.lastEventId
  }

  lemma LineMatches(f: Fields, b: Buffers, line: string)
    requires Matches(f, b)
    ensures Matches(Line(f, line).0, OnLine(b, line).0)
    ensures Line(f, line).1 == OnLine(b, line).1
  {
    if line == "" {
      if f.dataLines != [] {
        JoinIsTerminated(f.dataLines);
        assert b.data[..|b.data| - 1] == Join(f.dataLines);
      }
    } else if line[0] != ':' {
      var (name, value) := SplitField(line);
      if name == "data" {
        var more := f.dataLines + [value];
        assert more[..|more| - 1] == f.dataLines && more[|more| - 1] == value;
      }
    }
  }

  lemma {:induction false} LinesMatch(f: Fields, b: Buffers, lines: seq<string>)
    requires Matches(f, b)
    ensures Matches(Interpret(f, lines).0, OnLines(b, lines).0)
    ensures Interpret(f, lines).1 == OnLines(b, lines).1
    decreases lines
  {
    if lines != [] {
      LineMatches(f, b, lines[0]);
      LinesMatch(Line(f, lines[0]).0, OnLine(b, lines[0]).0, lines[1..]);
    }
  }

  function Fresh(delay: int, id: string): Fields { Fields([], "", id, delay) }

  /** A new connection: empty buffers, and the last event ID string that the source carries along. */
  function FreshBuffers(delay: int, id: string): Buffers { Buffers("", "", "", id, delay) }

  /** The parser and the standard agree on all but, perhaps, the id. */
  predicate Tracks(f: Fields, b: Buffers) {
    b.data == Terminated(f.dataLines) && b.eventType == f.eventName
  }

  predicate IsIdLine(line: string) {
    line != "" && line[0] != ':' && SplitField(line).0 == "id" && '\0' !in SplitField(line).1
  }

  /** Event for event the same but for the ids, which are `p` on the one side and `q` on the other. */
  predicate SameButId(es: seq<Event>, p: string, ds: seq<Event>, q: string) {
    && |es| == |ds|
    && forall k :: 0 <= k < |es| ==> es[k].lastEventId == p && ds[k] == es[k].(lastEventId := q)
  }

  lemma LineTracks(f: Fields, b: Buffers, line: string)
    requires Tracks(f, b)
    ensures Tracks(Line(f, line).0, OnLine(b, line).0)
    ensures SameButId(Line(f, line).1, f.lastEventId, OnLine(b, line).1, b.idBuffer)
    ensures IsIdLine(line) ==> Line(f, line).0.lastEventId == OnLine(b, line).0.idBuffer
    ensures !IsIdLine(line) ==> Line(f, line).0.lastEventId == f.lastEventId && OnLine(b, line).0.idBuffer == b.idBuffer
  {
    if line == "" {
      if f.dataLines != [] {
        JoinIsTerminated(f.dataLines);
        assert b.data[..|b.data| - 1] == Join(f.dataLines);
      }
    } else if line[0] != ':' {
      var (name, value) := SplitField(line);
      if name == "data" {
        var more := f.dataLines + [value];
        assert more[..|more| - 1] == f.dataLines && more[|more| - 1] == value;
      }
    }
  }

  /** The lines before the first one that sets an id. */
  function BeforeId(lines: seq<string>): seq<string> {
    if lines == [] || IsIdLine(lines[0]) then [] else [lines[0]] + BeforeId(lines[1..])
  }

  /** Type and data of every event are the standard's, whatever id was carried along. */
  lemma {:induction false} LinesTrack(f: Fields, b: Buffers, lines: seq<string>)
    requires Tracks(f, b)
    ensures Tracks(Interpret(f, lines).0, OnLines(b, lines).0)
    ensures |Interpret(f, lines).1| == |OnLines(b, lines).1|
    ensures forall k :: 0 <= k < |Interpret(f, lines).1| ==>
              && Interpret(f, lines).1[k].event == OnLines(b, lines).1[k].event
              && Interpret(f, lines).1[k].data == OnLines(b, lines).1[k].data
    decreases lines
  {
    if lines != [] {
      LineTracks(f, b, lines[0]);
      LinesTrack(Line(f, lines[0]).0, OnLine(b, lines[0]).0, lines[1..]);
    }
  }

  lemma SameButIdConcat(e1: seq<Event>, e2: seq<Event>, p: string, d1: seq<Event>, d2: seq<Event>, q: string)
    requires SameButId(e1, p, d1, q) && SameButId(e2, p, d2, q)
    ensures SameButId(e1 + e2, p, d1 + d2, q)
  {
  }

  lemma {:induction false} BeforeIdTracks(f: Fields, b: Buffers, lines: seq<string>)
    requires Tracks(f, b)
    ensures var pre := BeforeId(lines);
            && Tracks(Interpret(f, pre).0, OnLines(b, pre).0)
            && Interpret(f, pre).0.lastEventId == f.lastEventId && OnLines(b, pre).0.idBuffer == b.idBuffer
            && SameButId(Interpret(f, pre).1, f.lastEventId, OnLines(b, pre).1, b.idBuffer)
    decreases lines
  {
    if lines != [] && !IsIdLine(lines[0]) {
      var l, pre := lines[0], BeforeId(lines[1..]);
      assert BeforeId(lines)[1..] == pre;
      LineTracks(f, b, l);
      var f1, b1 := Line(f, l).0, OnLine(b, l).0;
      BeforeIdTracks(f1, b1, lines[1..]);
      SameButIdConcat(Line(f, l).1, Interpret(f1, pre).1, f.lastEventId, OnLine(b, l).1, OnLines(b1, pre).1, b.idBuffer);
    }
  }

  /** From the first id line on there is nothing left to tell them apart. */
  lemma {:induction false} AfterIdMatches(f: Fields, b: Buffers, lines: seq<string>)
    requires Tracks(f, b)
    ensures var pre := BeforeId(lines);
            && pre <= lines
            && Interpret(Interpret(f, pre).0, lines[|pre|..]).1 == OnLines(OnLines(b, pre).0, lines[|pre|..]).1
  {
    BeforeIdTracks(f, b, lines);
    BeforeIdStops(lines);
    var pre := BeforeId(lines);
    var rest := lines[|pre|..];
    if rest != [] {
      var f1, b1 := Interpret(f, pre).0, OnLines(b, pre).0;
      LineTracks(f1, b1, rest[0]);
      LinesMatch(Line(f1, rest[0]).0, OnLine(b1, rest[0]).0, rest[1..]);
    }
  }

  lemma {:induction false} BeforeIdStops(lines: seq<string>)
    ensures BeforeId(lines) <= lines
    ensures |BeforeId(lines)| < |lines| ==> IsIdLine(lines[|BeforeId(lines)|])
    decreases lines
  {
    if lines != [] && !IsIdLine(lines[0]) { BeforeIdStops(lines[1..]); }
  }

  /** Every text, every chunking: types and data of the events are the standard's. */
  lemma EventsAreTheStandardsButForIds(delay: int, id: string, chunks: seq<string>)
    ensures var es := ParseChunks(Fresh(delay, id), chunks).1;
            var ds := OnLines(FreshBuffers(delay, id), Lines(Flatten(chunks), "")).1;
            |es| == |ds| && forall k :: 0 <= k < |es| ==> es[k].event == ds[k].event && es[k].data == ds[k].data
  {
    ChunkIndependence(Fresh(delay, id), chunks);
    LinesTrack(Fresh(delay, id), FreshBuffers(delay, id), Lines(Flatten(chunks), ""));
  }

  lemma EqualIff(es: seq<Event>, p: string, ds: seq<Event>, q: string)
    requires SameButId(es, p, ds, q)
    ensures es == ds <==> p == q || ds == []
  {
    if es == ds && ds != [] { assert es[0] == ds[0]; }
  }

  lemma ConcatEqual(a: seq<Event>, b: seq<Event>, c: seq<Event>)
    requires |a| == |b|
    ensures a + c == b + c <==> a == b
  {
    assert (a + c)[..|a|] == a && (b + c)[..|b|] == b;
  }

  lemma LinesAgreeIff(f: Fields, b: Buffers, lines: seq<string>)
    requires Tracks(f, b)
    ensures Interpret(f, lines).1 == OnLines(b, lines).1
            <==> f.lastEventId == b.idBuffer || OnLines(b, BeforeId(lines)).1 == []
  {
    var pre := BeforeId(lines);
    BeforeIdTracks(f, b, lines);
    AfterIdMatches(f, b, lines);
    var rest := lines[|pre|..];
    assert lines == pre + rest;
    InterpretConcat(f, pre, rest);
    OnLinesConcat(b, pre, rest);
    var e1, d1, tail := Interpret(f, pre).1, OnLines(b, pre).1, OnLines(OnLines(b, pre).0, rest).1;
    ConcatEqual(e1, d1, tail);
    EqualIff(e1, f.lastEventId, d1, b.idBuffer);
  }

  /** Every text, every chunking: the events are the standard's, ids included, exactly when no id was
      carried over from an earlier connection or no event comes before the first id line. The standard
      starts a connection with an empty id buffer, the parser with the id it was given. */
  lemma EventsAreTheStandardsIff(delay: int, id: string, chunks: seq<string>)
    ensures var lines := Lines(Flatten(chunks), "");
            ParseChunks(Fresh(delay, id), chunks).1 == OnLines(FreshBuffers(delay, id), lines).1
            <==> id == "" || OnLines(FreshBuffers(delay, id), BeforeId(lines)).1 == []
  {
    ChunkIndependence(Fresh(delay, id), chunks);
    LinesAgreeIff(Fresh(delay, id), FreshBuffers(delay, id), Lines(Flatten(chunks), ""));
  }

  /** A line as most writers write it. */
  lemma FieldLine(name: string, value: string)
    requires ':' !in name && name != ""
    ensures var l := name + ": " + value;
            SplitField(l) == (name, value) && l != "" && l[0] != ':'
  {
    var l := name + ": " + value;
    assert l == name + ":" + (" " + value);
    IndexAfter(name, ':', " " + value);
    assert l[..|name|] == name && l[|name| + 1..] == " " + value && (" " + value)[1..] == value;
    assert l[0] == name[0];
  }

  /** A stream resumed after some id, whose first event has none of its own: the parser gives it the old
      id, the standard gives it none. */
  lemma ResumedIdDiffers(delay: int, id: string, data: string)
    ensures var lines := ["data: " + data, ""];
            && Interpret(Fresh(delay, id), lines).1 == [Event("message", data, id)]
            && OnLines(FreshBuffers(delay, id), lines).1 == [Event("message", data, "")]
  {
    var l := "data: " + data;
    assert "data: " == "data" + ": ";
    FieldLine("data", data);
    var lines := [l, ""];
    assert lines[1..] == [""] && [""][1..] == [];
    var f, b := Fresh(delay, id), FreshBuffers(delay, id);
    var f1, b1 := Line(f, l).0, OnLine(b, l).0;
    assert f1 == Fields([data], "", id, delay);
    assert b1 == Buffers(data + "\n", "", "", id, delay) by { assert "" + data == data; }
    assert (data + "\n")[..|data|] == data;
    assert Interpret(f1, [""]).1 == Line(f1, "").1 + [];
    assert OnLines(b1, [""]).1 == OnLine(b1, "").1 + [];
  }

  lemma {:induction false} TimeIsLastRetry(b: Buffers, lines: seq<string>)
    ensures OnLines(b, lines).0.time == LastRetry(lines, b.time)
    decreases lines
  {
    if lines != [] { TimeIsLastRetry(OnLine(b, lines[0]).0, lines[1..]); }
  }

  lemma {:induction false} DelayIsLastSafeRetry(f: Fields, lines: seq<string>)
    requires f.reconnectDelayMs <= MAX_SAFE_INTEGER
    ensures Interpret(f, lines).0.reconnectDelayMs <= MAX_SAFE_INTEGER
    ensures forall t: int | t == f.reconnectDelayMs || t > MAX_SAFE_INTEGER ::
              LastRetry(lines, t) <= MAX_SAFE_INTEGER ==> Interpret(f, lines).0.reconnectDelayMs == LastRetry(lines, t)
    decreases lines
  {
    if lines != [] {
      var f1 := Line(f, lines[0]).0;
      DelayIsLastSafeRetry(f1, lines[1..]);
    }
  }

  /** The reconnection delay is the standard's exactly when the last digits-only retry value is a
      safe integer; larger values are ignored by the parser and honoured by the standard. */
  lemma DelayIsTheStandardsIff(delay: int, id: string, chunks: seq<string>)
    requires delay <= MAX_SAFE_INTEGER
    ensures var lines := Lines(Flatten(chunks), "");
            ParseChunks(Fresh(delay, id), chunks).0.reconnectDelayMs
              == OnLines(FreshBuffers(delay, id), lines).0.time
            <==> LastRetry(lines, delay) <= 9007199254740991
  {
    var lines := Lines(Flatten(chunks), "");
    ChunkIndependence(Fresh(delay, id), chunks);
    TimeIsLastRetry(FreshBuffers(delay, id), lines);
    DelayIsLastSafeRetry(Fresh(delay, id), lines);
  }

  lemma DecimalSnoc(s: string, c: char)
    requires (forall i :: 0 <= i < |s| ==> '0' <= s[i] <= '9') && '0' <= c <= '9'
    ensures Decimal(s + [c]) == Decimal(s) * 10 + DigitValue(c)
  {
    assert (s + [c])[..|s|] == s;
  }

  function Digit(d: nat): char
    requires d < 10
  {
    ('0' as int + d) as char
  }

  /** A number as decimal digits. */
  function Digits(v: nat): string {
    if v < 10 then [Digit(v)] else Digits(v / 10) + [Digit(v % 10)]
  }

  lemma {:induction false} DigitsDecimal(v: nat)
    ensures IsDigits(Digits(v)) && Decimal(Digits(v)) == v
  {
    if v < 10 {
      DecimalSnoc("", Digit(v));
      assert "" + [Digit(v)] == [Digit(v)];
    } else {
      var d := v % 10;
      assert v == v / 10 * 10 + d && 0 <= d < 10;
      DigitsDecimal(v / 10);
      OneMoreDigit(Digits(v / 10), d);
    }
  }

  lemma OneMoreDigit(s: string, d: nat)
    requires IsDigits(s) && d < 10
    ensures IsDigits(s + [Digit(d)]) && Decimal(s + [Digit(d)]) == Decimal(s) * 10 + d
  {
    DecimalSnoc(s, Digit(d));
  }

  /** Any retry value above the safe integers: the standard takes it, the parser keeps what it had. */
  lemma LargeRetryDiffers(delay: int, id: string, v: nat)
    requires v > MAX_SAFE_INTEGER
    ensures var lines := ["retry: " + Digits(v)];
            && Interpret(Fresh(delay, id), lines).0.reconnectDelayMs == delay
            && OnLines(FreshBuffers(delay, id), lines).0.time == v
  {
    var l := "retry: " + Digits(v);
    assert "retry: " == "retry" + ": ";
    FieldLine("retry", Digits(v));
    DigitsDecimal(v);
    var lines := [l];
    assert lines[1..] == [];
  }

  lemma {:induction false} IdIsLastId(f: Fields, lines: seq<string>)
    ensures Interpret(f, lines).0.lastEventId == LastId(lines, f.lastEventId)
    decreases lines
  {
    if lines != [] { IdIsLastId(Line(f, lines[0]).0, lines[1..]); }
  }

  lemma {:induction false} OnLinesConcat(b: Buffers, x: seq<string>, y: seq<string>)
    ensures OnLines(b, x + y).0 == OnLines(OnLines(b, x).0, y).0
    ensures OnLines(b, x + y).1 == OnLines(b, x).1 + OnLines(OnLines(b, x).0, y).1
    decreases x
  {
    if x == [] {
      assert x + y == y;
    } else {
      assert (x + y)[0] == x[0] && (x + y)[1..] == x[1..] + y;
      var b1 := OnLine(b, x[0]).0;
      OnLinesConcat(b1, x[1..], y);
      Assoc(OnLine(b, x[0]).1, OnLines(b1, x[1..]).1, OnLines(OnLines(b1, x[1..]).0, y).1);
    }
  }

  lemma {:induction false} OpenBlockKeepsId(b: Buffers, lines: seq<string>)
    requires "" !in lines
    ensures OnLines(b, lines).0.lastId == b.lastId
    decreases lines
  {
    if lines != [] {
      assert lines[0] in lines;
      OpenBlockKeepsId(OnLine(b, lines[0]).0, lines[1..]);
    }
  }

  lemma {:induction false} BufferIsLastId(b: Buffers, lines: seq<string>)
    ensures OnLines(b, lines).0.idBuffer == LastId(lines, b.idBuffer)
    decreases lines
  {
    if lines != [] { BufferIsLastId(OnLine(b, lines[0]).0, lines[1..]); }
  }

  lemma ClosedBlocksSettleId(b: Buffers, lines: seq<string>)
    requires lines != [] && lines[|lines| - 1] == ""
    ensures OnLines(b, lines).0.lastId == OnLines(b, lines).0.idBuffer
  {
    assert lines == lines[..|lines| - 1] + [""];
    OnLinesConcat(b, lines[..|lines| - 1], [""]);
    var m := OnLines(b, lines[..|lines| - 1]).0;
    assert [""][1..] == [];
    assert OnLines(m, [""]).0 == OnLine(m, "").0;
  }

  /** What the standard keeps for reconnecting: the id carried along until a block is closed, and from
      then on the last id set in the closed blocks, or none. */
  function SettledId(lines: seq<string>, id: string): string {
    if ClosedBlocks(lines) == [] then id else LastId(ClosedBlocks(lines), "")
  }

  lemma StandardSettles(delay: int, id: string, lines: seq<string>)
    ensures OnLines(FreshBuffers(delay, id), lines).0.lastId == SettledId(lines, id)
  {
    var closed, open := ClosedBlocks(lines), OpenBlock(lines);
    var b := FreshBuffers(delay, id);
    BlocksMakeLines(lines);
    OnLinesConcat(b, closed, open);
    OpenBlockKeepsId(OnLines(b, closed).0, open);
    BufferIsLastId(b, closed);
    if closed != [] { ClosedBlocksSettleId(b, closed); }
  }

  ghost predicate SetsId(lines: seq<string>) {
    exists i :: 0 <= i < |lines| && IsIdLine(lines[i])
  }

  /** What was carried along counts exactly when no line sets an id. */
  lemma {:induction false} LastIdCarried(lines: seq<string>, before: string, other: string)
    ensures SetsId(lines) ==> LastId(lines, before) == LastId(lines, other)
    ensures !SetsId(lines) ==> LastId(lines, before) == before
    decreases lines
  {
    if lines != [] {
      var l, rest := lines[0], lines[1..];
      var next := if IsIdLine(l) then SplitField(l).1 else before;
      var next' := if IsIdLine(l) then SplitField(l).1 else other;
      assert LastId(lines, before) == LastId(rest, next) && LastId(lines, other) == LastId(rest, next');
      LastIdCarried(rest, next, next');
      if SetsId(rest) {
        var i :| 0 <= i < |rest| && IsIdLine(rest[i]);
        assert IsIdLine(lines[i + 1]);
      } else if !IsIdLine(l) {
        assert forall i :: 0 < i < |lines| ==> lines[i] == rest[i - 1];
      }
    }
  }

  lemma {:induction false} LastIdConcat(a: seq<string>, b: seq<string>, before: string)
    ensures LastId(a + b, before) == LastId(b, LastId(a, before))
    decreases a
  {
    if a == [] {
      assert a + b == b;
    } else {
      assert (a + b)[0] == a[0] && (a + b)[1..] == a[1..] + b;
      var l := a[0];
      LastIdConcat(a[1..], b, if IsIdLine(l) then SplitField(l).1 else before);
    }
  }

  /** The id kept for reconnecting is the standard's last event ID string exactly in these cases. When the
      block left open at the end sets an id: the last one it sets is the one in force before it, which is
      none if blocks were closed without an id. When it sets none: a closed block did, or none was closed,
      or no id was carried along. */
  lemma IdIsTheStandardsIff(delay: int, id: string, chunks: seq<string>)
    ensures var lines := Lines(Flatten(chunks), "");
            ParseChunks(Fresh(delay, id), chunks).0.lastEventId
              == OnLines(FreshBuffers(delay, id), lines).0.lastId
            <==> var (closed, last) := (ClosedBlocks(lines), OpenBlock(lines));
                 if SetsId(last)
                 then LastId(last, "") == if closed == [] then id else if SetsId(closed) then LastId(closed, "") else ""
                 else SetsId(closed) || closed == [] || id == ""
  {
    var lines := Lines(Flatten(chunks), "");
    ChunkIndependence(Fresh(delay, id), chunks);
    IdIsLastId(Fresh(delay, id), lines);
    StandardSettles(delay, id, lines);
    var closed, last := ClosedBlocks(lines), OpenBlock(lines);
    BlocksMakeLines(lines);
    LastIdConcat(closed, last, id);
    LastIdCarried(last, LastId(closed, id), "");
    LastIdCarried(closed, id, "");
    LastIdCarried(closed, "", id);
  }

  /** One such text: an id in a block that is never closed. */
  lemma IdCanDiffer()
    ensures var lines := ["id: 7"];
            Interpret(Fresh(DEFAULT_RECONNECT_MS, ""), lines).0.lastEventId
              != OnLines(FreshBuffers(DEFAULT_RECONNECT_MS, ""), lines).0.lastId
    ensures Lines("id: 7\n", "") == ["id: 7"]
  {
    var line := "id: 7";
    assert line == "id" + ":" + " 7";
    IndexAfter("id", ':', " 7");
    assert line[..2] == "id" && line[3..] == " 7" && " 7"[1..] == "7";
    assert SplitField(line) == ("id", "7");
    LinesOfClean("id: 7", "\n", "");
    assert "id: 7" + "\n" == "id: 7\n";
    assert "" + "id: 7" == "id: 7";
    assert "\n"[1..] == "";
    var lines := [line];
    assert lines[1..] == [];
  }

  // ---------------------------------------------------------------- the parser as an object

  datatype DrainResult = DrainResult(fields: Fields, rest: string, events: seq<Event>)

  /** Where a drain ends that has already emitted `events`. */
  function Drained(f: Fields, buffer: string, events: seq<Event>): DrainResult {
    var (f1, more) := Interpret(f, Split(buffer).lines);
    DrainResult(f1, Split(buffer).rest, events + more)
  }

  /** Taking one line off the buffer does not change where the drain ends. */
  lemma DrainStep(f: Fields, buffer: string, events: seq<Event>)
    requires FindBoundary(buffer).Boundary?
    ensures var b := FindBoundary(buffer);
            var (f1, e1) := Line(f, buffer[..b.index]);
            Drained(f, buffer, events) == Drained(f1, buffer[b.index + b.width..], events + e1)
  {
    var b := FindBoundary(buffer);
    var rest := buffer[b.index + b.width..];
    InterpretCons(f, buffer[..b.index], Split(rest).lines);
    var (f1, e1) := Line(f, buffer[..b.index]);
    var e2 := Interpret(f1, Split(rest).lines).1;
    assert events + (e1 + e2) == (events + e1) + e2;
  }

  lemma DrainDone(f: Fields, buffer: string, events: seq<Event>)
    requires FindBoundary(buffer).NoBoundary?
    ensures Drained(f, buffer, events) == DrainResult(f, buffer, events)
  {
    assert events + [] == events;
  }

  lemma DrainedFromNothing(f: Fields, buffer: string)
    ensures Drained(f, buffer, []) == DrainResult(Interpret(f, Split(buffer).lines).0, Split(buffer).rest,
                                                  Interpret(f, Split(buffer).lines).1)
  {
  }

  class SseParser {
    var buffer: string
    var dataLines: seq<string>
    var eventName: string
    var reconnectDelayMs: int
    var lastEventId: string

    ghost function Memory(): Fields
      reads this
    {
      Fields(dataLines, eventName, lastEventId, reconnectDelayMs)
    }

    ghost function Value(): Parser
      reads this
    {
      Parser(buffer, Memory())
    }

    constructor (delay: int, id: string)
      ensures Value() == Parser("", Fresh(delay, id))
    {
      buffer, dataLines, eventName := "", [], "";
      reconnectDelayMs, lastEventId := delay, id;
    }

    method Feed(chunk: string) returns (events: seq<Event>)
      modifies this
      ensures (Value(), events) == FeedText(old(Value()), chunk)
    {
      buffer := buffer + chunk;
      DrainedFromNothing(Memory(), buffer);
      events := DrainCompleteLines();
    }

    method Finish() returns (events: seq<Event>)
      modifies this
      ensures (Value(), events) == FinishText(old(Value()))
    {
      ghost var p := Value();
      if buffer != "" && buffer[|buffer| - 1] == '\r' {
        buffer := buffer + "\n";
      }
      assert buffer == Closed(p.buffer) && Memory() == p.fields;
      DrainedFromNothing(Memory(), buffer);
      events := DrainCompleteLines();
      buffer := "";
    }

    method DrainCompleteLines() returns (events: seq<Event>)
      modifies this
      ensures DrainResult(Memory(), buffer, events) == Drained(old(Memory()), old(buffer), [])
    {
      events := [];
      var boundary := FindLineBoundary();
      ghost var goal := Drained(Memory(), buffer, events);
      while boundary.Boundary?
        invariant boundary == FindBoundary(buffer)
        invariant goal == Drained(Memory(), buffer, events)
        decreases |buffer|
      {
        events := TakeLine(boundary, events);
        boundary := FindLineBoundary();
      }
      DrainDone(Memory(), buffer, events);
    }

    /** One turn of the drain loop. */
    method TakeLine(boundary: Boundary, events0: seq<Event>) returns (events: seq<Event>)
      requires boundary.Boundary? && boundary == FindBoundary(buffer)
      modifies this
      ensures |buffer| < |old(buffer)|
      ensures Drained(Memory(), buffer, events) == Drained(old(Memory()), old(buffer), events0)
    {
      var line := buffer[..boundary.index];
      DrainStep(Memory(), buffer, events0);
      buffer := buffer[boundary.index + boundary.width..];
      events := ProcessLine(line, events0);
    }

    method FindLineBoundary() returns (b: Boundary)
      ensures b == FindBoundary(buffer)
    {
      var index := 0;
      while index < |buffer|
        invariant 0 <= index <= |buffer| && Clean(buffer[..index])
        invariant FirstBreak(buffer) == index + FirstBreak(buffer[index..])
      {
        var c := buffer[index];
        if c == '\n' {
          return Boundary(index, 1);
        }
        if c == '\r' {
          if index + 1 == |buffer| {
            return NoBoundary;
          }
          return Boundary(index, if buffer[index + 1] == '\n' then 2 else 1);
        }
        assert buffer[index..][1..] == buffer[index + 1..];
        assert buffer[..index + 1] == buffer[..index] + [c];
        index := index + 1;
      }
      return NoBoundary;
    }

    method ProcessLine(line: string, events0: seq<Event>) returns (events: seq<Event>)
      modifies this`dataLines, this`eventName, this`lastEventId, this`reconnectDelayMs
      ensures (Memory(), events) == (Line(old(Memory()), line).0, events0 + Line(old(Memory()), line).1)
    {
      events := events0;
      assert events0 + [] == events0;
      if line == "" {
        if |dataLines| > 0 {
          events := events + [Event(if eventName != "" then eventName else "message", Join(dataLines), lastEventId)];
        }
        dataLines, eventName := [], "";
        return;
      }
      if line[0] == ':' {
        return;
      }
      var (field, value) := SplitField(line);
      if field == "data" {
        dataLines := dataLines + [value];
      } else if field == "event" {
        eventName := value;
      } else if field == "id" && '\0' !in value {
        lastEventId := value;
      } else if field == "retry" && IsDigits(value) {
        var delay := Decimal(value);
        if delay <= MAX_SAFE_INTEGER {
          reconnectDelayMs := delay;
        }
      }
    }
  }

  lemma FeedAllSnoc(p: Parser, a: seq<string>, c: string)
    ensures var (p1, e1) := FeedAll(p, a);
            FeedAll(p, a + [c]) == (FeedText(p1, c).0, e1 + FeedText(p1, c).1)
  {
    FeedAllConcat(p, a, [c]);
    FeedAllCons(FeedAll(p, a).0, c, []);
    assert [c] + [] == [c];
    var e := FeedText(FeedAll(p, a).0, c).1;
    assert e + [] == e;
  }

  /** frontend/src/api/sse.ts: one response body, read chunk by chunk and then closed. The events
      handed on, and the delay and id carried into the next connection, depend only on the text. */
  method ReadBody(chunks: seq<string>, delay: int, id: string)
    returns (events: seq<Event>, delay': int, id': string)
    ensures var (f, e) := Interpret(Fresh(delay, id), Lines(Flatten(chunks), ""));
            events == e && delay' == f.reconnectDelayMs && id' == f.lastEventId
  {
    var parser := new SseParser(delay, id);
    events := [];
    ghost var p0 := parser.Value();
    for k := 0 to |chunks|
      invariant FeedAll(p0, chunks[..k]) == (parser.Value(), events)
    {
      FeedAllSnoc(p0, chunks[..k], chunks[k]);
      assert chunks[..k + 1] == chunks[..k] + [chunks[k]];
      var more := parser.Feed(chunks[k]);
      events := events + more;
    }
    assert chunks[..|chunks|] == chunks;
    var last := parser.Finish();
    events := events + last;
    ChunkIndependence(Fresh(delay, id), chunks);
    delay', id' := parser.reconnectDelayMs, parser.lastEventId;
  }
}

/** src/symba/transport/http_server.py: the frames the engine writes on the event stream. */
module SseFrames {
  import opened EventStream
  import opened SseParsing

  datatype Frame = Keepalive | JobEvent(payload: string)

  function Write(frame: Frame): string {
    match frame
    case Keepalive => ": keepalive\n\n"
    case JobEvent(payload) => "event: job_event\ndata: " + payload + "\n\n"
  }

  function WriteAll(frames: seq<Frame>): string {
    if frames == [] then "" else Write(frames[0]) + WriteAll(frames[1..])
  }

  function Emitted(frame: Frame, id: string): seq<Event> {
    match frame
    case Keepalive => []
    case JobEvent(payload) => [Event("job_event", payload, id)]
  }

  /** The events a reader should see: one per job event, keepalives leave no trace. */
  function Expected(frames: seq<Frame>, id: string): seq<Event> {
    if frames == [] then []
    else Emitted(frames[0], id) + Expected(frames[1..], id)
  }

  function FrameLines(frame: Frame): seq<string> {
    match frame
    case Keepalive => [": keepalive", ""]
    case JobEvent(payload) => ["event: job_event", "data: " + payload, ""]
  }

  /** A newline-free payload is one frame of exactly these lines. */
  lemma LinesOfFrame(frame: Frame, rest: string)
    requires frame.JobEvent? ==> Clean(frame.payload)
    ensures Lines(Write(frame) + rest, "") == FrameLines(frame) + Lines(rest, "")
  {
    match frame {
      case Keepalive =>
        assert Write(frame) + rest == ": keepalive" + "\n" + ("\n" + rest);
        LastLine(": keepalive", rest);
      case JobEvent(payload) =>
        var line2 := "data: " + payload;
        assert Write(frame) + rest == "event: job_event" + "\n" + (line2 + "\n" + ("\n" + rest));
        OneLine("event: job_event", line2 + "\n" + ("\n" + rest));
        LastLine(line2, rest);
    }
  }

  /** The last line of a frame, and the blank one that closes it. */
  lemma LastLine(line: string, rest: string)
    requires Clean(line)
    ensures Lines(line + "\n" + ("\n" + rest), "") == [line, ""] + Lines(rest, "")
  {
    OneLine(line, "\n" + rest);
    OneLine("", rest);
    assert "" + "\n" + rest == "\n" + rest;
  }

  lemma OneLine(line: string, rest: string)
    requires Clean(line)
    ensures Lines(line + "\n" + rest, "") == [line] + Lines(rest, "")
  {
    LinesOfClean(line, "\n" + rest, "");
    assert line + "\n" + rest == line + ("\n" + rest);
    assert "" + line == line;
    assert ("\n" + rest)[1..] == rest;
  }

  lemma InterpretBlock(f: Fields, l1: string, l2: string, name: string, payload: string)
    requires f.dataLines == [] && f.eventName == "" && name != ""
    requires l1 != "" && l1[0] != ':' && SplitField(l1) == ("event", name)
    requires l2 != "" && l2[0] != ':' && SplitField(l2) == ("data", payload)
    ensures Interpret(f, [l1, l2, ""]) == (f, [Event(name, payload, f.lastEventId)])
  {
    var f1 := Line(f, l1).0;
    var f2 := Line(f1, l2).0;
    InterpretCons(f, l1, [l2, ""]);
    InterpretCons(f1, l2, [""]);
    InterpretCons(f2, "", []);
    assert [l1, l2, ""] == [l1] + [l2, ""] && [l2, ""] == [l2] + [""] && [""] == [""] + [];
    var e := Line(f2, "").1;
    assert e == [Event(name, Join([payload]), f.lastEventId)] && Line(f2, "").0 == f;
    assert e + [] == e && [] + e == e;
  }

  lemma EventLine()
    ensures var l := "event: job_event"; l != "" && l[0] != ':' && SplitField(l) == ("event", "job_event")
  {
    assert "event: job_event" == "event" + ": " + "job_event";
    FieldLine("event", "job_event");
  }

  lemma DataLine(payload: string)
    ensures var l := "data: " + payload; l != "" && l[0] != ':' && SplitField(l) == ("data", payload)
  {
    assert "data: " == "data" + ": ";
    FieldLine("data", payload);
  }

  lemma InterpretKeepalive(f: Fields)
    requires f.dataLines == [] && f.eventName == ""
    ensures Interpret(f, FrameLines(Keepalive)) == (f, [])
  {
    var l := ": keepalive";
    InterpretCons(f, l, [""]);
    InterpretCons(f, "", []);
    assert FrameLines(Keepalive) == [l] + [""] && [""] == [""] + [];
  }

  lemma InterpretFrame(f: Fields, frame: Frame)
    requires f.dataLines == [] && f.eventName == ""
    ensures Interpret(f, FrameLines(frame)) == (f, Emitted(frame, f.lastEventId))
  {
    match frame {
      case Keepalive =>
        InterpretKeepalive(f);
      case JobEvent(payload) =>
        EventLine();
        DataLine(payload);
        InterpretBlock(f, "event: job_event", "data: " + payload, "job_event", payload);
    }
  }

  lemma InterpretTwo(f: Fields, a: seq<string>, b: seq<string>, ea: seq<Event>, eb: seq<Event>)
    requires Interpret(f, a) == (f, ea) && Interpret(f, b) == (f, eb)
    ensures Interpret(f, a + b) == (f, ea + eb)
  {
    InterpretConcat(f, a, b);
  }

  lemma {:induction false} InterpretFrames(f: Fields, frames: seq<Frame>)
    requires f.dataLines == [] && f.eventName == ""
    requires forall i :: 0 <= i < |frames| && frames[i].JobEvent? ==> Clean(frames[i].payload)
    ensures Interpret(f, Lines(WriteAll(frames), "")) == (f, Expected(frames, f.lastEventId))
  {
    if frames != [] {
      var head, tail := frames[0], frames[1..];
      InterpretFrames(f, tail);
      InterpretFrame(f, head);
      LinesOfFrame(head, WriteAll(tail));
      InterpretTwo(f, FrameLines(head), Lines(WriteAll(tail), ""),
                   Emitted(head, f.lastEventId), Expected(tail, f.lastEventId));
    }
  }

  /** Writer and parser are inverse through any chunking: the payloads come back in order, each as
      one `job_event`, and the delay and id stay as they were. */
  lemma WriterRoundTrip(frames: seq<Frame>, chunks: seq<string>, delay: int, id: string)
    requires forall i :: 0 <= i < |frames| && frames[i].JobEvent? ==> Clean(frames[i].payload)
    requires Flatten(chunks) == WriteAll(frames)
    ensures ParseChunks(Fresh(delay, id), chunks) == (Fresh(delay, id), Expected(frames, id))
  {
    ChunkIndependence(Fresh(delay, id), chunks);
    InterpretFrames(Fresh(delay, id), frames);
  }
}
