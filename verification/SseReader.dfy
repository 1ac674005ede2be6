/**
 * The client side of one streamed task: an incremental reader of server-sent
 * events that buffers the last, unterminated line between network chunks. It
 * understands the "event" and "data" fields of section 9.2.6 of the WHATWG HTML
 * Living Standard, each written with one space after the colon, and acts on
 * every data line as soon as the line is complete.
 */
module SseReader {
  import opened Prelude

  datatype ToolEvent = ToolEvent(callId: string, toolName: string, arguments: string)

  datatype TaskResult = TaskResult(text: string, usage: Option<(nat, nat, nat)>)

  datatype Outcome = Returned(result: TaskResult) | Threw(message: string)

  /** How the stream stops when no terminal line was seen. */
  datatype StreamEnd = Closed | Broken(message: string)

  /** The JSON payloads, as arbitrary functions of the text of a data line. */
  datatype Payloads = Payloads(
    toolEvent: string -> Option<ToolEvent>,
    completed: string -> Outcome,
    failed: string -> string)

  const DONE_RESULT := Returned(TaskResult("Task completed", None))
  const ENDED_RESULT := Returned(TaskResult("Task completed (stream ended)", None))

  // ----- Lines --------------------------------------------------------------

  predicate IsSpace(c: char) {
    || c == ' ' || '\t' <= c <= '\r' || c == '\U{00a0}' || c == '\U{1680}'
    || '\U{2000}' <= c <= '\U{200a}' || c == '\U{2028}' || c == '\U{2029}'
    || c == '\U{202f}' || c == '\U{205f}' || c == '\U{3000}' || c == '\U{feff}'
  }

  function Trim(s: string): string {
    if s != [] && IsSpace(s[0]) then Trim(s[1..])
    else if s != [] && IsSpace(s[|s| - 1]) then Trim(s[..|s| - 1])
    else s
  }

  /** s.split('\n'): the pieces between line feeds, at least one. */
  function Pieces(s: string): (pieces: seq<string>)
    ensures pieces != []
  {
    if s == [] then [[]]
    else if s[0] == '\n' then [[]] + Pieces(s[1..])
    else
      var rest := Pieces(s[1..]);
      [[s[0]] + rest[0]] + rest[1..]
  }

  function CompleteLines(s: string): seq<string> {
    Pieces(s)[..|Pieces(s)| - 1]
  }

  function Tail(s: string): string {
    Pieces(s)[|Pieces(s)| - 1]
  }

  function Joined(pieces: seq<string>): string
    requires pieces != []
  {
    if |pieces| == 1 then pieces[0] else pieces[0] + ['\n'] + Joined(pieces[1..])
  }

  /** Pieces is the one way to cut a text at all its line feeds. */
  lemma {:induction false} PiecesUnique(s: string, pieces: seq<string>)
    requires pieces != []
    ensures pieces == Pieces(s) <==> Joined(pieces) == s && forall p :: p in pieces ==> '\n' !in p
  {
    PiecesJoin(s);
    if Joined(pieces) == s && forall p :: p in pieces ==> '\n' !in p {
      JoinedHasPieces(pieces);
    }
  }

  lemma PiecesBreak(t: string)
    ensures Pieces(['\n'] + t) == [[]] + Pieces(t)
    ensures CompleteLines(['\n'] + t) == [[]] + CompleteLines(t) && Tail(['\n'] + t) == Tail(t)
  {
    assert (['\n'] + t)[1..] == t;
  }

  lemma PiecesChar(c: char, t: string)
    requires c != '\n'
    ensures Pieces([c] + t) == [[c] + Pieces(t)[0]] + Pieces(t)[1..]
    ensures
      var lines := CompleteLines(t);
      if lines == [] then CompleteLines([c] + t) == [] && Tail([c] + t) == [c] + Tail(t)
      else CompleteLines([c] + t) == [[c] + lines[0]] + lines[1..] && Tail([c] + t) == Tail(t)
  {
    assert ([c] + t)[1..] == t;
  }

  lemma PiecesOfNothing()
    ensures Pieces([]) == [[]] && CompleteLines([]) == [] && Tail([]) == []
  {
  }

  lemma {:induction false} PiecesJoin(s: string)
    ensures Joined(Pieces(s)) == s
    ensures forall i :: 0 <= i < |Pieces(s)| ==> '\n' !in Pieces(s)[i]
  {
    hide Pieces;
    if s == [] {
      PiecesOfNothing();
    } else {
      PiecesJoin(s[1..]);
      var rest := Pieces(s[1..]);
      assert s == [s[0]] + s[1..];
      if s[0] == '\n' {
        PiecesBreak(s[1..]);
        assert Pieces(s)[1..] == rest;
      } else {
        PiecesChar(s[0], s[1..]);
        assert Pieces(s)[1..] == rest[1..];
      }
    }
  }

  lemma {:induction false} JoinedHasPieces(pieces: seq<string>)
    requires pieces != []
    requires forall p :: p in pieces ==> '\n' !in p
    ensures Pieces(Joined(pieces)) == pieces
    decreases |Joined(pieces)|
  {
    var s := Joined(pieces);
    if pieces[0] == [] {
      if |pieces| > 1 {
        assert s == ['\n'] + Joined(pieces[1..]);
        assert s[1..] == Joined(pieces[1..]);
        JoinedHasPieces(pieces[1..]);
      }
    } else {
      var shorter := [pieces[0][1..]] + pieces[1..];
      assert shorter[1..] == pieces[1..];
      assert s[1..] == Joined(shorter);
      assert s[0] == pieces[0][0];
      forall p | p in shorter
        ensures '\n' !in p
      {
        if p == shorter[0] { assert pieces[0] in pieces; } else { assert p in pieces; }
      }
      JoinedHasPieces(shorter);
      assert pieces[0] in pieces;
      assert pieces[0][0] != '\n';
      assert [s[0]] + shorter[0] == pieces[0];
    }
  }

  /** Cutting a text in two and carrying the tail over gives the same pieces. */
  lemma {:induction false} PiecesOfConcat(a: string, b: string)
    ensures Pieces(a + b) == CompleteLines(a) + Pieces(Tail(a) + b)
  {
    hide Pieces, CompleteLines, Tail;
    if a == [] {
      PiecesOfNothing();
      assert a + b == b && [] + b == b;
    } else {
      var rest := a[1..];
      PiecesOfConcat(rest, b);
      assert a == [a[0]] + rest && a + b == [a[0]] + (rest + b);
      if a[0] == '\n' {
        PiecesBreak(rest);
        PiecesBreak(rest + b);
      } else {
        PiecesChar(a[0], rest);
        PiecesChar(a[0], rest + b);
        if CompleteLines(rest) == [] {
          assert Tail(a) + b == [a[0]] + (Tail(rest) + b);
          PiecesChar(a[0], Tail(rest) + b);
        }
      }
    }
  }

  /** The step of the reader: new complete lines, new buffer. */
  lemma ChunkStep(text: string, chunk: string)
    ensures CompleteLines(text + chunk) == CompleteLines(text) + CompleteLines(Tail(text) + chunk)
    ensures Tail(text + chunk) == Tail(Tail(text) + chunk)
  {
    PiecesOfConcat(text, chunk);
  }

  // ----- Scanning lines -----------------------------------------------------

  datatype Scan = Scan(eventType: string, events: seq<ToolEvent>, outcome: Option<Outcome>)

  const START := Scan("", [], None)

  predicate Prefixed(line: string, prefix: string) {
    prefix <= line
  }

  /** What one data line does under the event type in force. */
  function ScanData(p: Payloads, st: Scan, data: string): Scan {
    if data == "[DONE]" then st.(outcome := Some(DONE_RESULT))
    else if st.eventType == "response.output_item.done" then
      match p.toolEvent(data)
      case None => st
      case Some(e) => st.(events := st.events + [e])
    else if st.eventType == "response.completed" then st.(outcome := Some(p.completed(data)))
    else if st.eventType == "response.failed" then st.(outcome := Some(Threw(p.failed(data))))
    else st
  }

  function ScanLine(p: Payloads, st: Scan, line: string): Scan {
    if Prefixed(line, "event: ") then st.(eventType := Trim(line[7..]))
    else if Prefixed(line, "data: ") then ScanData(p, st, Trim(line[6..]))
    else if line == "" then st.(eventType := "")
    else st
  }

  /** All lines in order, stopping at the first one that settles the outcome. */
  function ScanLines(p: Payloads, st: Scan, lines: seq<string>): Scan
    decreases |lines|
  {
    if lines == [] || st.outcome.Some? then st
    else ScanLines(p, ScanLine(p, st, lines[0]), lines[1..])
  }

  /** The reference reading: the complete lines of the whole text, once. */
  function ScanText(p: Payloads, text: string): Scan {
    ScanLines(p, START, CompleteLines(text))
  }

  function OutcomeOf(st: Scan, end: StreamEnd): Outcome {
    match st.outcome
    case Some(outcome) => outcome
    case None =>
      match end
      case Closed => ENDED_RESULT
      case Broken(message) => Threw(message)
  }

  lemma {:induction false} ScanLinesConcat(p: Payloads, st: Scan, a: seq<string>, b: seq<string>)
    ensures ScanLines(p, st, a + b) == ScanLines(p, ScanLines(p, st, a), b)
    decreases |a|
  {
    if a == [] {
      assert a + b == b;
    } else if st.outcome.None? {
      assert (a + b)[1..] == a[1..] + b;
      ScanLinesConcat(p, ScanLine(p, st, a[0]), a[1..], b);
    }
  }

  lemma ScanNothing(p: Payloads, st: Scan)
    ensures ScanLines(p, st, []) == st
  {
  }

  lemma ScanLinesSnoc(p: Payloads, st: Scan, lines: seq<string>, i: nat)
    requires i < |lines|
    ensures ScanLines(p, st, lines[..i + 1]) ==
            var before := ScanLines(p, st, lines[..i]);
            if before.outcome.Some? then before else ScanLine(p, before, lines[i])
  {
    assert lines[..i + 1] == lines[..i] + [lines[i]];
    ScanLinesConcat(p, st, lines[..i], [lines[i]]);
  }

  /** Once a terminal line is complete, whatever follows it is never looked at. */
  lemma TerminalLineIsFinal(p: Payloads, text: string, more: string)
    requires ScanText(p, text).outcome.Some?
    ensures ScanText(p, text + more) == ScanText(p, text)
  {
    ChunkStep(text, more);
    ScanLinesConcat(p, START, CompleteLines(text), CompleteLines(Tail(text) + more));
  }

  /** A tail without its line feed has no effect, even when it is a terminal line. */
  lemma {:induction false} UnterminatedTailIsDropped(p: Payloads, text: string, tail: string)
    requires '\n' !in tail
    ensures ScanText(p, text + tail) == ScanText(p, text)
  {
    ChunkStep(text, tail);
    PiecesJoin(text);
    assert Tail(text) in Pieces(text);
    PiecesUnique(Tail(text) + tail, [Tail(text) + tail]);
    assert CompleteLines(Tail(text) + tail) == [];
    assert CompleteLines(text + tail) == CompleteLines(text);
  }

  // ----- Frames -------------------------------------------------------------

  /** One event as a server writes it. */
  function Frame(eventType: string, data: string): string {
    "event: " + eventType + "\n" + "data: " + data + "\n" + "\n"
  }

  function FrameLines(eventType: string, data: string): seq<string> {
    ["event: " + eventType, "data: " + data, ""]
  }

  /** A run of tool frames. */
  function ToolFrames(datas: seq<string>): string {
    if datas == [] then ""
    else ToolFrames(datas[..|datas| - 1]) + Frame("response.output_item.done", datas[|datas| - 1])
  }

  /** The tool events announced by their payloads, in order. */
  function ToolEvents(p: Payloads, datas: seq<string>): seq<ToolEvent> {
    if datas == [] then []
    else
      ToolEvents(p, datas[..|datas| - 1])
      + (match p.toolEvent(Trim(datas[|datas| - 1])) case None => [] case Some(e) => [e])
  }

  /** Fits on one line and is not the end marker. */
  predicate PlainData(data: string) {
    '\n' !in data && Trim(data) != "[DONE]"
  }

  lemma LinesOfFrame(eventType: string, data: string)
    requires '\n' !in eventType && '\n' !in data
    ensures CompleteLines(Frame(eventType, data)) == FrameLines(eventType, data)
    ensures Tail(Frame(eventType, data)) == ""
  {
    hide Pieces;
    var pieces := FrameLines(eventType, data) + [""];
    var end := "data: " + data;
    assert ["", ""][1..] == [""] && [end, "", ""][1..] == ["", ""] && pieces[1..] == [end, "", ""];
    assert Joined(["", ""]) == "\n";
    assert Joined([end, "", ""]) == end + "\n" + "\n";
    assert Joined(pieces) == ("event: " + eventType) + "\n" + (end + "\n" + "\n");
    assert Joined(pieces) == Frame(eventType, data);
    PiecesUnique(Frame(eventType, data), pieces);
  }

  lemma ScanFrame(p: Payloads, st: Scan, eventType: string, data: string)
    requires st.outcome.None? && Trim(eventType) == eventType
    ensures
      ScanLines(p, st, FrameLines(eventType, data)) ==
      var next := ScanData(p, st.(eventType := eventType), Trim(data));
      if next.outcome.Some? then next else next.(eventType := "")
  {
    hide Trim, ScanData;
    var lines := FrameLines(eventType, data);
    assert lines[0][7..] == eventType && lines[1][6..] == data;
    assert lines[1][0] != "event: "[0];
    var named := st.(eventType := eventType);
    assert ScanLine(p, st, lines[0]) == named;
    assert ScanLine(p, named, lines[1]) == ScanData(p, named, Trim(data));
    ScanLinesSnoc(p, st, lines, 0);
    ScanLinesSnoc(p, st, lines, 1);
    ScanLinesSnoc(p, st, lines, 2);
    assert lines[..3] == lines && lines[..0] == [];
    ScanNothing(p, st);
  }

  /** A text that ends between two frames is extended by one frame. */
  lemma ScanNextFrame(p: Payloads, text: string, eventType: string, data: string)
    requires ScanText(p, text).outcome.None? && Tail(text) == ""
    requires '\n' !in eventType && '\n' !in data && Trim(eventType) == eventType
    ensures Tail(text + Frame(eventType, data)) == ""
    ensures
      ScanText(p, text + Frame(eventType, data)) ==
      var next := ScanData(p, ScanText(p, text).(eventType := eventType), Trim(data));
      if next.outcome.Some? then next else next.(eventType := "")
  {
    hide Pieces, Trim, ScanData, Frame;
    ChunkStep(text, Frame(eventType, data));
    assert Tail(text) + Frame(eventType, data) == Frame(eventType, data);
    LinesOfFrame(eventType, data);
    ScanLinesConcat(p, START, CompleteLines(text), FrameLines(eventType, data));
    ScanFrame(p, ScanText(p, text), eventType, data);
  }

  lemma {:induction false} ScanToolFrames(p: Payloads, datas: seq<string>)
    requires forall d :: d in datas ==> PlainData(d)
    ensures ScanText(p, ToolFrames(datas)) == Scan("", ToolEvents(p, datas), None)
    ensures Tail(ToolFrames(datas)) == ""
  {
    hide Trim, Frame;
    if datas == [] {
      assert CompleteLines("") == [];
      ScanNothing(p, START);
    } else {
      var data := datas[|datas| - 1];
      assert data in datas;
      ScanToolFrames(p, datas[..|datas| - 1]);
      NameIsTrimmed("response.output_item.done");
      ScanNextFrame(p, ToolFrames(datas[..|datas| - 1]), "response.output_item.done", data);
    }
  }

  lemma NameIsTrimmed(name: string)
    requires name != [] && !IsSpace(name[0]) && !IsSpace(name[|name| - 1])
    ensures Trim(name) == name
  {
  }

  /**
   * Reading back what a server writes: any number of tool frames and then a
   * completion give exactly the announced tool events, in order, and its result.
   * By ReadChunksIsScan this holds for every way the network cuts the stream.
   */
  lemma FramesRoundTrip(p: Payloads, datas: seq<string>, last: string)
    requires PlainData(last) && forall d :: d in datas ==> PlainData(d)
    ensures
      var st := ScanText(p, ToolFrames(datas) + Frame("response.completed", last));
      st.events == ToolEvents(p, datas) && st.outcome == Some(p.completed(Trim(last)))
  {
    hide Trim, Frame;
    ScanToolFrames(p, datas);
    NameIsTrimmed("response.completed");
    ScanNextFrame(p, ToolFrames(datas), "response.completed", last);
  }

  /** The same with a failure at the end: the task throws what the failure says. */
  lemma FailureRoundTrip(p: Payloads, datas: seq<string>, last: string)
    requires PlainData(last) && forall d :: d in datas ==> PlainData(d)
    ensures
      var st := ScanText(p, ToolFrames(datas) + Frame("response.failed", last));
      st.events == ToolEvents(p, datas) && st.outcome == Some(Threw(p.failed(Trim(last))))
  {
    hide Trim, Frame;
    ScanToolFrames(p, datas);
    NameIsTrimmed("response.failed");
    ScanNextFrame(p, ToolFrames(datas), "response.failed", last);
  }

  // ----- Chunks -------------------------------------------------------------

  function Text(chunks: seq<string>): string {
    if chunks == [] then [] else Text(chunks[..|chunks| - 1]) + chunks[|chunks| - 1]
  }

  /** The reader as a fold over chunks, with its buffer. */
  datatype Reader = Reader(buffer: string, scan: Scan)

  function ReadChunk(p: Payloads, r: Reader, chunk: string): Reader {
    if r.scan.outcome.Some? then r
    else Reader(Tail(r.buffer + chunk), ScanLines(p, r.scan, CompleteLines(r.buffer + chunk)))
  }

  function ReadChunks(p: Payloads, chunks: seq<string>): Reader {
    if chunks == [] then Reader("", START)
    else ReadChunk(p, ReadChunks(p, chunks[..|chunks| - 1]), chunks[|chunks| - 1])
  }

  lemma {:induction false} ReadChunksIsScan(p: Payloads, chunks: seq<string>)
    ensures ReadChunks(p, chunks).scan == ScanText(p, Text(chunks))
    ensures ReadChunks(p, chunks).scan.outcome.None? ==> ReadChunks(p, chunks).buffer == Tail(Text(chunks))
  {
    if chunks != [] {
      var init, chunk := chunks[..|chunks| - 1], chunks[|chunks| - 1];
      ReadChunksIsScan(p, init);
      ChunkStep(Text(init), chunk);
      ScanLinesConcat(p, START, CompleteLines(Text(init)), CompleteLines(Tail(Text(init)) + chunk));
    }
  }

  /** However the network cuts a text, the outcome and the tool events are the same. */
  lemma ChunkInvariance(p: Payloads, chunks: seq<string>, others: seq<string>)
    requires Text(chunks) == Text(others)
    ensures ReadChunks(p, chunks).scan == ReadChunks(p, others).scan
  {
    ReadChunksIsScan(p, chunks);
    ReadChunksIsScan(p, others);
  }

  // ----- Lines that end in CR LF -----------------------------------------------

  /** The text with a carriage return before every line feed. */
  function CrLf(s: string): string {
    if s == [] then []
    else (if s[0] == '\n' then ['\r', '\n'] else [s[0]]) + CrLf(s[1..])
  }

  function WithCr(lines: seq<string>): (r: seq<string>)
    ensures |r| == |lines| && forall i :: 0 <= i < |lines| ==> r[i] == lines[i] + ['\r']
  {
    seq(|lines|, i requires 0 <= i < |lines| => lines[i] + ['\r'])
  }

  lemma FirstBlankWithCr(lines: seq<string>)
    ensures WithCr([[]] + lines) == [['\r']] + WithCr(lines)
  {
    assert [] + ['\r'] == ['\r'];
  }

  lemma FirstCharWithCr(c: char, lines: seq<string>)
    requires lines != []
    ensures WithCr([[c] + lines[0]] + lines[1..]) == [[c] + WithCr(lines)[0]] + WithCr(lines)[1..]
  {
    assert ([c] + lines[0]) + ['\r'] == [c] + (lines[0] + ['\r']);
  }

  lemma {:induction false} LinesOfCrLf(s: string)
    ensures CompleteLines(CrLf(s)) == WithCr(CompleteLines(s))
    ensures Tail(CrLf(s)) == Tail(s)
  {
    hide Pieces, CompleteLines, Tail;
    if s == [] {
      PiecesOfNothing();
    } else {
      var rest, t := s[1..], CrLf(s[1..]);
      LinesOfCrLf(rest);
      assert s == [s[0]] + rest;
      if s[0] == '\n' {
        assert CrLf(s) == ['\r'] + (['\n'] + t);
        PiecesBreak(rest);
        PiecesBreak(t);
        PiecesChar('\r', ['\n'] + t);
        var lines := [[]] + CompleteLines(t);
        assert lines[1..] == CompleteLines(t) && ['\r'] + lines[0] == ['\r'];
        FirstBlankWithCr(CompleteLines(rest));
      } else {
        PiecesChar(s[0], rest);
        PiecesChar(s[0], t);
        assert CrLf(s) == [s[0]] + t;
        if CompleteLines(rest) != [] { FirstCharWithCr(s[0], CompleteLines(rest)); }
      }
    }
  }

  /** The event type that applies after some lines: blank lines clear it. */
  function TypeInForce(lines: seq<string>): string {
    if lines == [] then ""
    else
      var line := lines[|lines| - 1];
      if Prefixed(line, "event: ") then Trim(line[7..])
      else if line == "" then ""
      else TypeInForce(lines[..|lines| - 1])
  }

  /** The event type named last, whatever came after it. */
  function TypeLastNamed(lines: seq<string>): string {
    if lines == [] then ""
    else
      var line := lines[|lines| - 1];
      if Prefixed(line, "event: ") then Trim(line[7..]) else TypeLastNamed(lines[..|lines| - 1])
  }

  predicate Acts(p: Payloads, eventType: string, data: string) {
    || (eventType == "response.output_item.done" && p.toolEvent(data).Some?)
    || eventType == "response.completed"
    || eventType == "response.failed"
  }

  /**
   * Line i is data that would be acted on under the type named last, although a
   * blank line has come since; and the stream is still being read.
   */
  predicate Stale(p: Payloads, lines: seq<string>, i: nat)
    requires i < |lines|
  {
    && Prefixed(lines[i], "data: ") && Trim(lines[i][6..]) != "[DONE]"
    && ScanLines(p, START, lines[..i]).outcome.None?
    && TypeInForce(lines[..i]) != TypeLastNamed(lines[..i])
    && Acts(p, TypeLastNamed(lines[..i]), Trim(lines[i][6..]))
  }

  predicate SameView(a: Scan, b: Scan) {
    a.events == b.events && a.outcome == b.outcome
  }

  lemma {:induction false} TrimDropsCr(s: string)
    ensures Trim(s + ['\r']) == Trim(s)
  {
    var t := s + ['\r'];
    if s != [] && IsSpace(s[0]) {
      assert t[1..] == s[1..] + ['\r'];
      TrimDropsCr(s[1..]);
    } else if s == [] {
      assert t[1..] == [];
    } else {
      assert t[..|t| - 1] == s;
    }
  }

  lemma FirstOfPrefix(line: string, prefix: string)
    requires prefix != []
    ensures Prefixed(line, prefix) ==> line != [] && line[0] == prefix[0]
  {
  }

  lemma OnePrefix(line: string)
    ensures !(Prefixed(line, "event: ") && Prefixed(line, "data: "))
    ensures Prefixed(line, "event: ") || Prefixed(line, "data: ") ==> line != ""
  {
    FirstOfPrefix(line, "event: ");
    FirstOfPrefix(line, "data: ");
  }

  /** A carriage return at the end matters to blank lines only. */
  lemma ScanLineWithCr(p: Payloads, st: Scan, line: string)
    ensures ScanLine(p, st, line + ['\r']) == if line == "" then st else ScanLine(p, st, line)
  {
    hide Trim, ScanData;
    var longer := line + ['\r'];
    OnePrefix(line);
    OnePrefix(longer);
    if Prefixed(line, "event: ") {
      assert longer[7..] == line[7..] + ['\r'];
      TrimDropsCr(line[7..]);
    } else if Prefixed(line, "data: ") {
      assert longer[6..] == line[6..] + ['\r'];
      TrimDropsCr(line[6..]);
    } else {
      NoNewPrefix(line, "event: ");
      NoNewPrefix(line, "data: ");
    }
  }

  lemma NoNewPrefix(line: string, prefix: string)
    requires prefix != [] && prefix[|prefix| - 1] != '\r' && !Prefixed(line, prefix)
    ensures !Prefixed(line + ['\r'], prefix)
  {
  }

  lemma InForceOrNothing(lines: seq<string>)
    ensures TypeInForce(lines) == "" || TypeInForce(lines) == TypeLastNamed(lines)
  {
  }

  predicate Follows(p: Payloads, lines: seq<string>) {
    var lf, crlf := ScanLines(p, START, lines), ScanLines(p, START, WithCr(lines));
    && SameView(lf, crlf)
    && (lf.outcome.None? ==> lf.eventType == TypeInForce(lines) && crlf.eventType == TypeLastNamed(lines))
  }

  lemma FollowsNothing(p: Payloads)
    ensures Follows(p, [])
  {
  }

  /** One more line: the two readings part exactly at a stale one. */
  lemma FollowsStep(p: Payloads, lines: seq<string>, i: nat)
    requires i < |lines| && Follows(p, lines[..i])
    ensures if Stale(p, lines, i)
            then !SameView(ScanLines(p, START, lines[..i + 1]), ScanLines(p, START, WithCr(lines[..i + 1])))
            else Follows(p, lines[..i + 1])
  {
    hide Trim, IsSpace, Prefixed;
    var line, crs := lines[i], WithCr(lines[..i + 1]);
    assert lines[..i + 1][..i] == lines[..i];
    assert crs[..i] == WithCr(lines[..i]) && crs[i] == line + ['\r'];
    ScanLinesSnoc(p, START, lines[..i + 1], i);
    ScanLinesSnoc(p, START, crs, i);
    assert crs[..i + 1] == crs && lines[..i + 1][..i + 1] == lines[..i + 1];
    ScanLineWithCr(p, ScanLines(p, START, crs[..i]), line);
    InForceOrNothing(lines[..i]);
    OnePrefix(line);
  }

  lemma {:induction false} FollowsUnlessStale(p: Payloads, lines: seq<string>, n: nat)
    requires n <= |lines| && forall i :: 0 <= i < n ==> !Stale(p, lines, i)
    ensures Follows(p, lines[..n])
  {
    hide Follows, Stale;
    if n == 0 {
      FollowsNothing(p);
      assert lines[..0] == [];
    } else {
      FollowsUnlessStale(p, lines, n - 1);
      FollowsStep(p, lines, n - 1);
    }
  }

  /** After each line, the text and its CR LF form have given the same events and the same outcome. */
  ghost predicate AgreeThroughout(p: Payloads, text: string) {
    var lf, crlf := CompleteLines(text), CompleteLines(CrLf(text));
    && |lf| == |crlf|
    && forall i :: 0 <= i <= |lf| ==> SameView(ScanLines(p, START, lf[..i]), ScanLines(p, START, crlf[..i]))
  }

  /** The first stale line, if there is one. */
  lemma {:induction false} FirstStale(p: Payloads, lines: seq<string>, n: nat) returns (i: nat)
    requires n <= |lines|
    ensures i <= n && (forall j :: 0 <= j < i ==> !Stale(p, lines, j)) && (i < n ==> Stale(p, lines, i))
  {
    hide Stale;
    if n == 0 {
      i := 0;
    } else {
      i := FirstStale(p, lines, n - 1);
      if i == n - 1 && !Stale(p, lines, i) { i := n; }
    }
  }

  /**
   * The standard also ends lines at CR LF. This reader takes the
   * carriage return for part of the line, which only blank lines feel: they no
   * longer clear the event type. A text and its CR LF form are read alike at
   * every moment if and only if no data line is stale.
   */
  lemma CrLfReadAlikeIffNothingStale(p: Payloads, text: string)
    ensures
      var lines := CompleteLines(text);
      AgreeThroughout(p, text) <==> forall i :: 0 <= i < |lines| ==> !Stale(p, lines, i)
  {
    hide Pieces, Stale, ScanLines, SameView, CompleteLines;
    var lines := CompleteLines(text);
    LinesOfCrLf(text);
    forall i | 0 <= i <= |lines|
      ensures WithCr(lines)[..i] == WithCr(lines[..i])
    {
    }
    var i := FirstStale(p, lines, |lines|);
    if i < |lines| {
      FollowsUnlessStale(p, lines, i);
      FollowsStep(p, lines, i);
      assert !SameView(ScanLines(p, START, lines[..i + 1]), ScanLines(p, START, WithCr(lines)[..i + 1]));
    } else {
      forall n | 0 <= n <= |lines|
        ensures SameView(ScanLines(p, START, lines[..n]), ScanLines(p, START, WithCr(lines)[..n]))
      {
        FollowsUnlessStale(p, lines, n);
      }
    }
  }

  /** Each data line has an event line of its own since the last blank line. */
  predicate OwnEventLines(lines: seq<string>) {
    forall i :: 0 <= i < |lines| && Prefixed(lines[i], "data: ") ==>
      TypeInForce(lines[..i]) == TypeLastNamed(lines[..i])
  }

  /** Then the CR LF form gives the same events and outcome, whatever the payloads. */
  lemma OwnEventLinesSuffice(p: Payloads, text: string)
    requires OwnEventLines(CompleteLines(text))
    ensures SameView(ScanText(p, text), ScanText(p, CrLf(text)))
  {
    hide Pieces, ScanLines, CompleteLines;
    CrLfReadAlikeIffNothingStale(p, text);
    LinesOfCrLf(text);
    var lf, crlf := CompleteLines(text), CompleteLines(CrLf(text));
    assert lf[..|lf|] == lf && crlf[..|lf|] == crlf;
  }

  lemma FrameOwnsItsLine(lines: seq<string>, eventType: string, data: string)
    requires OwnEventLines(lines)
    ensures OwnEventLines(lines + FrameLines(eventType, data))
  {
    hide Trim;
    var longer, n := lines + FrameLines(eventType, data), |lines|;
    assert longer[..n] == lines;
    assert longer[..n + 1][..n] == lines && longer[..n + 1][n] == "event: " + eventType;
    OnePrefix("event: " + eventType);
    OnePrefix("");
    forall i | 0 <= i < |longer| && Prefixed(longer[i], "data: ")
      ensures TypeInForce(longer[..i]) == TypeLastNamed(longer[..i])
    {
      if i < n {
        assert longer[..i] == lines[..i] && longer[i] == lines[i];
      } else {
        assert i == n + 1;
      }
    }
  }

  lemma NextFrameOwnsItsLine(text: string, eventType: string, data: string)
    requires OwnEventLines(CompleteLines(text)) && Tail(text) == ""
    requires '\n' !in eventType && '\n' !in data
    ensures OwnEventLines(CompleteLines(text + Frame(eventType, data))) && Tail(text + Frame(eventType, data)) == ""
  {
    hide Pieces, Trim, Frame, OwnEventLines;
    ChunkStep(text, Frame(eventType, data));
    assert Tail(text) + Frame(eventType, data) == Frame(eventType, data);
    LinesOfFrame(eventType, data);
    FrameOwnsItsLine(CompleteLines(text), eventType, data);
  }

  lemma {:induction false} ToolFramesOwnTheirLines(datas: seq<string>)
    requires forall d :: d in datas ==> PlainData(d)
    ensures OwnEventLines(CompleteLines(ToolFrames(datas))) && Tail(ToolFrames(datas)) == ""
  {
    hide Trim, Frame;
    if datas == [] {
      PiecesOfNothing();
    } else {
      assert datas[|datas| - 1] in datas;
      ToolFramesOwnTheirLines(datas[..|datas| - 1]);
      NextFrameOwnsItsLine(
        ToolFrames(datas[..|datas| - 1]), "response.output_item.done", datas[|datas| - 1]);
    }
  }

  /** So the frames of FramesRoundTrip are read back in CR LF form too. */
  lemma CrLfFramesRoundTrip(p: Payloads, datas: seq<string>, last: string)
    requires PlainData(last) && forall d :: d in datas ==> PlainData(d)
    ensures
      var st := ScanText(p, CrLf(ToolFrames(datas) + Frame("response.completed", last)));
      st.events == ToolEvents(p, datas) && st.outcome == Some(p.completed(Trim(last)))
  {
    hide Trim, Frame, CrLf, ToolFrames, ScanText, OwnEventLines;
    FramesRoundTrip(p, datas, last);
    ToolFramesOwnTheirLines(datas);
    NextFrameOwnsItsLine(ToolFrames(datas), "response.completed", last);
    OwnEventLinesSuffice(p, ToolFrames(datas) + Frame("response.completed", last));
  }

  lemma CrLfFailureRoundTrip(p: Payloads, datas: seq<string>, last: string)
    requires PlainData(last) && forall d :: d in datas ==> PlainData(d)
    ensures
      var st := ScanText(p, CrLf(ToolFrames(datas) + Frame("response.failed", last)));
      st.events == ToolEvents(p, datas) && st.outcome == Some(Threw(p.failed(Trim(last))))
  {
    hide Trim, Frame, CrLf, ToolFrames, ScanText, OwnEventLines;
    FailureRoundTrip(p, datas, last);
    ToolFramesOwnTheirLines(datas);
    NextFrameOwnsItsLine(ToolFrames(datas), "response.failed", last);
    OwnEventLinesSuffice(p, ToolFrames(datas) + Frame("response.failed", last));
  }

  function NameBlankData(data: string): seq<string> {
    ["event: response.completed", "", "data: " + data]
  }

  lemma LinesOfNameBlankData(data: string)
    requires '\n' !in data
    ensures
      CompleteLines("event: response.completed" + "\n" + "\n" + "data: " + data + "\n") == NameBlankData(data)
  {
    hide Pieces;
    var name, end := "event: response.completed", "data: " + data;
    var text := name + "\n" + "\n" + "data: " + data + "\n";
    var pieces := NameBlankData(data) + [""];
    assert pieces[1..] == ["", end, ""] && ["", end, ""][1..] == [end, ""] && [end, ""][1..] == [""];
    assert Joined([end, ""]) == end + "\n";
    assert Joined(["", end, ""]) == "\n" + (end + "\n");
    assert Joined(pieces) == name + "\n" + ("\n" + (end + "\n"));
    assert Joined(pieces) == text;
    PiecesUnique(text, pieces);
  }

  lemma ThreeLines(p: Payloads, lines: seq<string>)
    requires |lines| == 3
    requires ScanLine(p, START, lines[0]).outcome.None?
    requires ScanLine(p, ScanLine(p, START, lines[0]), lines[1]).outcome.None?
    ensures ScanLines(p, START, lines) == ScanLine(p, ScanLine(p, ScanLine(p, START, lines[0]), lines[1]), lines[2])
  {
    hide ScanLine, ScanLines;
    assert lines[..0] == [] && lines[..3] == lines;
    ScanNothing(p, START);
    ScanLinesSnoc(p, START, lines, 0);
    ScanLinesSnoc(p, START, lines, 1);
    ScanLinesSnoc(p, START, lines, 2);
  }

  /** Data that is not the end marker is looked at under the type in force. */
  lemma ScanPlainData(p: Payloads, st: Scan, data: string)
    requires PlainData(data)
    ensures st.eventType == "" ==> ScanLine(p, st, "data: " + data) == st
    ensures st.eventType == "response.completed" ==>
              ScanLine(p, st, "data: " + data).outcome == Some(p.completed(Trim(data)))
  {
    hide Trim;
    OnePrefix("data: " + data);
    assert ("data: " + data)[6..] == data;
  }

  /**
   * A text where they part: a named event, a blank line, then data without a
   * name. The reader is done with the CR LF form and still waiting on the other.
   */
  lemma CrLfCompletesEarly(p: Payloads, data: string)
    requires PlainData(data)
    ensures
      var text := "event: response.completed" + "\n" + "\n" + "data: " + data + "\n";
      && ScanText(p, text).outcome == None
      && ScanText(p, CrLf(text)).outcome == Some(p.completed(Trim(data)))
  {
    var text := "event: response.completed" + "\n" + "\n" + "data: " + data + "\n";
    var lines := NameBlankData(data);
    var named := START.(eventType := "response.completed");
    LinesOfNameBlankData(data);
    LinesOfCrLf(text);
    ScanNamed(p);
    hide Trim, Pieces, ScanLines, ScanLine;
    ScanPlainData(p, START, data);
    ScanPlainData(p, named, data);
    ScanLineWithCr(p, START, lines[0]);
    ScanLineWithCr(p, named, lines[1]);
    ScanLineWithCr(p, named, lines[2]);
    ThreeLines(p, lines);
    ThreeLines(p, WithCr(lines));
  }

  lemma ScanNamed(p: Payloads)
    ensures ScanLine(p, START, "event: response.completed") == START.(eventType := "response.completed")
    ensures ScanLine(p, START.(eventType := "response.completed"), "") == START
  {
    assert "event: response.completed"[7..] == "response.completed";
    NameIsTrimmed("response.completed");
    OnePrefix("");
  }

  // ----- The outcome, read off the lines ----------------------------------------

  /** The data of a line, if it is a data line. */
  function DataOf(line: string): Option<string> {
    if Prefixed(line, "data: ") then Some(Trim(line[6..])) else None
  }

  /** How line i settles the stream, if it does. */
  function Verdict(p: Payloads, lines: seq<string>, i: nat): Option<Outcome>
    requires i < |lines|
  {
    match DataOf(lines[i])
    case None => None
    case Some(data) =>
      if data == "[DONE]" then Some(Returned(TaskResult("Task completed", None)))
      else if TypeInForce(lines[..i]) == "response.completed" then Some(p.completed(data))
      else if TypeInForce(lines[..i]) == "response.failed" then Some(Threw(p.failed(data)))
      else None
  }

  /** The tool event that line i announces, if it does. */
  function Announced(p: Payloads, lines: seq<string>, i: nat): seq<ToolEvent>
    requires i < |lines|
  {
    match DataOf(lines[i])
    case None => []
    case Some(data) =>
      if data == "[DONE]" || TypeInForce(lines[..i]) != "response.output_item.done" then []
      else match p.toolEvent(data) case None => [] case Some(e) => [e]
  }

  function AnnouncedBefore(p: Payloads, lines: seq<string>, n: nat): seq<ToolEvent>
    requires n <= |lines|
  {
    if n == 0 then [] else AnnouncedBefore(p, lines, n - 1) + Announced(p, lines, n - 1)
  }

  /** Line n is the first that settles the stream, or there is none and n is the end. */
  predicate IsFirstVerdict(p: Payloads, lines: seq<string>, n: nat) {
    && n <= |lines|
    && (forall i :: 0 <= i < n ==> Verdict(p, lines, i).None?)
    && (n < |lines| ==> Verdict(p, lines, n).Some?)
  }

  lemma OneLine(p: Payloads, lines: seq<string>, i: nat, st: Scan)
    requires i < |lines| && st.outcome.None? && st.eventType == TypeInForce(lines[..i])
    ensures
      var next := ScanLine(p, st, lines[i]);
      && next.outcome == Verdict(p, lines, i)
      && next.events == st.events + Announced(p, lines, i)
      && next.eventType == TypeInForce(lines[..i + 1])
  {
    hide Trim;
    OnePrefix(lines[i]);
    assert lines[..i + 1][..i] == lines[..i];
  }

  lemma {:induction false} ReadUpTo(p: Payloads, lines: seq<string>, n: nat)
    requires n <= |lines| && forall i :: 0 <= i < n ==> Verdict(p, lines, i).None?
    ensures ScanLines(p, START, lines[..n]) == Scan(TypeInForce(lines[..n]), AnnouncedBefore(p, lines, n), None)
  {
    hide ScanLine, Verdict, Announced;
    if n == 0 {
      assert lines[..0] == [];
      ScanNothing(p, START);
    } else {
      ReadUpTo(p, lines, n - 1);
      ScanLinesSnoc(p, START, lines, n - 1);
      OneLine(p, lines, n - 1, ScanLines(p, START, lines[..n - 1]));
    }
  }

  /**
   * Every text: the outcome is that of its first complete line that settles the
   * stream, and the tool events are those announced before it.
   */
  lemma OutcomeIsFirstVerdict(p: Payloads, text: string, n: nat)
    requires IsFirstVerdict(p, CompleteLines(text), n)
    ensures
      var lines, st := CompleteLines(text), ScanText(p, text);
      && st.events == AnnouncedBefore(p, lines, n)
      && st.outcome == if n < |lines| then Verdict(p, lines, n) else None
  {
    hide Pieces, Verdict, Announced, ScanLine, CompleteLines;
    var lines := CompleteLines(text);
    ReadUpTo(p, lines, n);
    if n == |lines| {
      assert lines[..n] == lines;
    } else {
      var st := ScanLines(p, START, lines[..n]);
      ScanLinesSnoc(p, START, lines, n);
      OneLine(p, lines, n, st);
      NoToolEventAtVerdict(p, lines, n);
      assert lines == lines[..n + 1] + lines[n + 1..];
      ScanLinesConcat(p, START, lines[..n + 1], lines[n + 1..]);
      SettledStays(p, ScanLines(p, START, lines[..n + 1]), lines[n + 1..]);
    }
  }

  lemma NoToolEventAtVerdict(p: Payloads, lines: seq<string>, n: nat)
    requires n < |lines| && Verdict(p, lines, n).Some?
    ensures Announced(p, lines, n) == []
  {
  }

  lemma SettledStays(p: Payloads, st: Scan, lines: seq<string>)
    requires st.outcome.Some?
    ensures ScanLines(p, st, lines) == st
  {
  }

  /** Some n is the first verdict of every text. */
  lemma {:induction false} FirstVerdictExists(p: Payloads, lines: seq<string>, m: nat) returns (n: nat)
    requires m <= |lines| && forall i :: 0 <= i < m ==> Verdict(p, lines, i).None?
    ensures IsFirstVerdict(p, lines, n)
    decreases |lines| - m
  {
    hide Verdict;
    if m == |lines| || Verdict(p, lines, m).Some? {
      n := m;
    } else {
      n := FirstVerdictExists(p, lines, m + 1);
    }
  }

  /** A stream that nothing settles ends well when it is closed and fails when it breaks. */
  lemma UnsettledStream(p: Payloads, chunks: seq<string>, end: StreamEnd)
    requires IsFirstVerdict(p, CompleteLines(Text(chunks)), |CompleteLines(Text(chunks))|)
    ensures
      TaskOutcome(p, Body(chunks, end)) ==
      match end
      case Closed => Returned(TaskResult("Task completed (stream ended)", None))
      case Broken(message) => Threw(message)
  {
    hide Verdict, CompleteLines;
    OutcomeIsFirstVerdict(p, Text(chunks), |CompleteLines(Text(chunks))|);
  }

  // ----- The client ---------------------------------------------------------

  type Callback = nat

  /** Every event handed to every callback, event by event. */
  function Fanout<E>(events: seq<E>, callbacks: seq<Callback>): seq<(Callback, E)> {
    if events == [] then []
    else Fanout(events[..|events| - 1], callbacks) + Each(callbacks, events[|events| - 1])
  }

  function Each<E>(callbacks: seq<Callback>, e: E): (calls: seq<(Callback, E)>) {
    seq(|callbacks|, i requires 0 <= i < |callbacks| => (callbacks[i], e))
  }

  /** Which callbacks throw, and what. */
  type Throws = Callback -> Option<string>

  /** What the first callback that throws throws. */
  function FirstThrow(callbacks: seq<Callback>, throws: Throws): Option<string> {
    if callbacks == [] then None
    else
      var before := FirstThrow(callbacks[..|callbacks| - 1], throws);
      if before.Some? then before else throws(callbacks[|callbacks| - 1])
  }

  /** The callbacks up to and including that one. */
  function Reached(callbacks: seq<Callback>, throws: Throws): seq<Callback> {
    if callbacks == [] then []
    else
      var init := callbacks[..|callbacks| - 1];
      if FirstThrow(init, throws).Some? then Reached(init, throws) else callbacks
  }

  lemma NobodyReached<E>(throws: Throws, e: E)
    ensures FirstThrow([], throws) == None && Each(Reached([], throws), e) == []
  {
  }

  lemma ReachedStep<E>(callbacks: seq<Callback>, throws: Throws, i: nat, e: E)
    requires i < |callbacks| && FirstThrow(callbacks[..i], throws).None?
    ensures FirstThrow(callbacks[..i + 1], throws) == throws(callbacks[i])
    ensures Reached(callbacks[..i], throws) == callbacks[..i]
    ensures Each(Reached(callbacks[..i + 1], throws), e)
            == Each(Reached(callbacks[..i], throws), e) + [(callbacks[i], e)]
  {
    assert callbacks[..i + 1][..i] == callbacks[..i];
    if i > 0 {
      var init := callbacks[..i][..i - 1];
      assert FirstThrow(init, throws).None?;
    }
  }

  lemma {:induction false} NothingAfterThrow(callbacks: seq<Callback>, throws: Throws, i: nat)
    requires i <= |callbacks| && FirstThrow(callbacks[..i], throws).Some?
    ensures FirstThrow(callbacks, throws) == FirstThrow(callbacks[..i], throws)
    ensures Reached(callbacks, throws) == Reached(callbacks[..i], throws)
  {
    if i == |callbacks| {
      assert callbacks[..i] == callbacks;
    } else {
      var init := callbacks[..|callbacks| - 1];
      assert init[..i] == callbacks[..i];
      NothingAfterThrow(init, throws, i);
    }
  }

  /** With no thrower all are reached; otherwise those up to the first one. */
  lemma {:induction false} ReachedUpToThrower(callbacks: seq<Callback>, throws: Throws, n: nat)
    requires n <= |callbacks| && forall i :: 0 <= i < n ==> throws(callbacks[i]).None?
    requires n < |callbacks| ==> throws(callbacks[n]).Some?
    ensures Reached(callbacks, throws) == if n < |callbacks| then callbacks[..n + 1] else callbacks
    ensures FirstThrow(callbacks, throws) == if n < |callbacks| then throws(callbacks[n]) else None
  {
    if callbacks != [] {
      var init := callbacks[..|callbacks| - 1];
      if n < |init| {
        ReachedUpToThrower(init, throws, n);
        assert init[..n + 1] == callbacks[..n + 1];
      } else {
        ReachedUpToThrower(init, throws, |init|);
        assert n == |init| ==> callbacks[..n + 1] == callbacks;
      }
    }
  }

  /** Every call: callback j gets event i after all calls for the events before it. */
  lemma {:induction false} FanoutAt<E>(events: seq<E>, callbacks: seq<Callback>, i: nat, j: nat)
    requires i < |events| && j < |callbacks|
    ensures
      var k := |Fanout(events[..i], callbacks)| + j;
      k < |Fanout(events, callbacks)| && Fanout(events, callbacks)[k] == (callbacks[j], events[i])
  {
    var n := |events| - 1;
    if i < n {
      FanoutAt(events[..n], callbacks, i, j);
      assert events[..n][..i] == events[..i];
    }
  }

  lemma {:induction false} FanoutLength<E>(events: seq<E>, callbacks: seq<Callback>)
    ensures |Fanout(events, callbacks)| == |events| * |callbacks|
  {
    if events != [] {
      var n := |events| - 1;
      FanoutLength(events[..n], callbacks);
      assert |Each(callbacks, events[n])| == |callbacks|;
      OneMoreTime(n, |callbacks|);
    }
  }

  lemma OneMoreTime(n: nat, m: nat)
    ensures (n + 1) * m == n * m + m
  {
  }

  datatype Response = HttpError(message: string) | Body(chunks: seq<string>, end: StreamEnd)

  function TaskOutcome(p: Payloads, response: Response): Outcome {
    match response
    case HttpError(message) => Threw(message)
    case Body(chunks, end) => OutcomeOf(ScanText(p, Text(chunks)), end)
  }

  lemma FanoutSnoc<E>(events: seq<E>, e: E, callbacks: seq<Callback>)
    ensures Fanout(events + [e], callbacks) == Fanout(events, callbacks) + Each(callbacks, e)
  {
    assert (events + [e])[..|events|] == events;
  }

  lemma NoFanout<E>(callbacks: seq<Callback>)
    ensures Fanout<E>([], callbacks) == []
  {
  }

  lemma TextSnoc(chunks: seq<string>, c: nat)
    requires c < |chunks|
    ensures Text(chunks[..c + 1]) == Text(chunks[..c]) + chunks[c]
  {
    assert chunks[..c + 1][..c] == chunks[..c];
  }

  lemma NothingRead(p: Payloads)
    ensures Text([]) == "" && Tail("") == "" && ScanText(p, "") == START
  {
  }

  class Client {
    var completionCallbacks: seq<Callback>
    var failureCallbacks: seq<Callback>
    var toolInvocationCallbacks: seq<Callback>
    var isConnected: bool
    // Calls made to the callbacks, in order.
    var completions: seq<(Callback, TaskResult)>
    var failures: seq<(Callback, string)>
    var toolInvocations: seq<(Callback, ToolEvent)>

    /** Reads until a terminal line, the end of the stream or an error. */
    method ReadSSEStream(p: Payloads, chunks: seq<string>, end: StreamEnd) returns (outcome: Outcome)
      modifies this`toolInvocations
      ensures
        var st := ScanText(p, Text(chunks));
        && outcome == OutcomeOf(st, end)
        && toolInvocations == old(toolInvocations) + Fanout(st.events, toolInvocationCallbacks)
    {
      hide Pieces, Trim, IsSpace, ScanLines, Text, Fanout, Each;
      NothingRead(p);
      var buffer, currentEventType := "", "";
      ghost var events: seq<ToolEvent> := [];
      NoFanout<ToolEvent>(toolInvocationCallbacks);
      var c := 0;
      while c < |chunks|
        invariant 0 <= c <= |chunks|
        invariant buffer == Tail(Text(chunks[..c]))
        invariant ScanText(p, Text(chunks[..c])) == Scan(currentEventType, events, None)
        invariant toolInvocations == old(toolInvocations) + Fanout(events, toolInvocationCallbacks)
      {
        ghost var text := Text(chunks[..c]);
        TextSnoc(chunks, c);
        ChunkStep(text, chunks[c]);
        var pieces := Pieces(buffer + chunks[c]);
        var lines := pieces[..|pieces| - 1];
        buffer := pieces[|pieces| - 1];
        ScanLinesConcat(p, START, CompleteLines(text), lines);
        ghost var before := Scan(currentEventType, events, None);
        ScanNothing(p, before);

        var i := 0;
        while i < |lines|
          invariant 0 <= i <= |lines|
          invariant ScanLines(p, before, lines[..i]) == Scan(currentEventType, events, None)
          invariant toolInvocations == old(toolInvocations) + Fanout(events, toolInvocationCallbacks)
        {
          var line := lines[i];
          ScanLinesSnoc(p, before, lines, i);
          if Prefixed(line, "event: ") {
            currentEventType := Trim(line[7..]);
          } else if Prefixed(line, "data: ") {
            var data := Trim(line[6..]);
            if data == "[DONE]" {
              EarlyReturn(p, chunks, c, lines, i, before);
              return DONE_RESULT;
            }
            if currentEventType == "response.output_item.done" {
              var event := p.toolEvent(data);
              if event.Some? {
                FanoutSnoc(events, event.value, toolInvocationCallbacks);
                events := events + [event.value];
                toolInvocations := toolInvocations + Each(toolInvocationCallbacks, event.value);
              }
            }
            if currentEventType == "response.completed" {
              EarlyReturn(p, chunks, c, lines, i, before);
              return p.completed(data);
            }
            if currentEventType == "response.failed" {
              EarlyReturn(p, chunks, c, lines, i, before);
              return Threw(p.failed(data));
            }
          } else if line == "" {
            currentEventType := "";
          }
          i := i + 1;
        }
        assert lines[..i] == lines;
        c := c + 1;
      }
      assert chunks[..c] == chunks;
      outcome := if end.Closed? then ENDED_RESULT else Threw(end.message);
    }

    /** Calls the callbacks of one list in order until one of them throws. */
    method Notify<E>(callbacks: seq<Callback>, e: E, throws: Throws)
      returns (calls: seq<(Callback, E)>, thrown: Option<string>)
      ensures calls == Each(Reached(callbacks, throws), e) && thrown == FirstThrow(callbacks, throws)
    {
      hide Each;
      calls, thrown := [], None;
      NobodyReached(throws, e);
      for i := 0 to |callbacks|
        invariant FirstThrow(callbacks[..i], throws).None?
        invariant thrown == None && calls == Each(Reached(callbacks[..i], throws), e)
      {
        ReachedStep(callbacks, throws, i, e);
        calls := calls + [(callbacks[i], e)];
        thrown := throws(callbacks[i]);
        if thrown.Some? {
          NothingAfterThrow(callbacks, throws, i + 1);
          return;
        }
      }
      assert callbacks[..|callbacks|] == callbacks;
    }

    /**
     * Runs one task. A result goes to the completion callbacks, an error to the
     * failure callbacks, and a list that was called to its end is emptied. When a
     * completion callback throws, the ones after it are not called, its list is
     * kept, and the failure callbacks are called as well.
     */
    method ExecuteTask(p: Payloads, response: Response, throws: Throws)
      modifies this
      ensures
        var outcome := TaskOutcome(p, response);
        var error :=
          match outcome case Threw(message) => Some(message)
                        case Returned(_) => FirstThrow(old(completionCallbacks), throws);
        && (match outcome
            case Returned(result) =>
              && completions == old(completions) + Each(Reached(old(completionCallbacks), throws), result)
              && completionCallbacks == (if error.None? then [] else old(completionCallbacks))
            case Threw(_) => completions == old(completions) && completionCallbacks == old(completionCallbacks))
        && (match error
            case Some(message) =>
              && failures == old(failures) + Each(Reached(old(failureCallbacks), throws), message)
              && failureCallbacks ==
                 (if FirstThrow(old(failureCallbacks), throws).None? then [] else old(failureCallbacks))
            case None => failures == old(failures) && failureCallbacks == old(failureCallbacks))
      ensures
        toolInvocations == old(toolInvocations)
                           + (if response.HttpError? then []
                              else Fanout(ScanText(p, Text(response.chunks)).events, old(toolInvocationCallbacks)))
      ensures isConnected == old(isConnected) && toolInvocationCallbacks == old(toolInvocationCallbacks)
    {
      var outcome;
      match response {
        case HttpError(message) => outcome := Threw(message);
        case Body(chunks, end) => outcome := ReadSSEStream(p, chunks, end);
      }
      var error: Option<string>;
      match outcome {
        case Returned(result) =>
          var calls;
          calls, error := Notify(completionCallbacks, result, throws);
          completions := completions + calls;
          if error.None? {
            completionCallbacks := [];
          }
        case Threw(message) => error := Some(message);
      }
      if error.Some? {
        var calls, thrown := Notify(failureCallbacks, error.value, throws);
        failures := failures + calls;
        if thrown.None? {
          failureCallbacks := [];
        }
      }
    }
  }

  /** Returning at line i of chunk c loses nothing of the whole text. */
  lemma EarlyReturn(p: Payloads, chunks: seq<string>, c: nat, lines: seq<string>, i: nat, before: Scan)
    requires c < |chunks| && i < |lines|
    requires lines == CompleteLines(Tail(Text(chunks[..c])) + chunks[c])
    requires before == ScanText(p, Text(chunks[..c]))
    requires ScanLines(p, before, lines[..i + 1]).outcome.Some?
    ensures ScanText(p, Text(chunks)) == ScanLines(p, before, lines[..i + 1])
  {
    hide Pieces, Trim, ScanLine;
    var text := Text(chunks[..c]);
    assert chunks[..c + 1][..c] == chunks[..c];
    ChunkStep(text, chunks[c]);
    ScanLinesConcat(p, START, CompleteLines(text), lines);
    assert lines == lines[..i + 1] + lines[i + 1..];
    ScanLinesConcat(p, before, lines[..i + 1], lines[i + 1..]);
    TextPrefix(chunks, c + 1);
    TerminalLineIsFinal(p, Text(chunks[..c + 1]), Text(chunks[c + 1..]));
  }

  lemma {:induction false} TextPrefix(chunks: seq<string>, c: nat)
    requires c <= |chunks|
    ensures Text(chunks) == Text(chunks[..c]) + Text(chunks[c..])
  {
    if c == |chunks| {
      assert chunks[..c] == chunks;
    } else {
      var init := chunks[..|chunks| - 1];
      TextPrefix(init, c);
      assert init[..c] == chunks[..c];
      assert chunks[c..][..|chunks| - c - 1] == init[c..];
    }
  }
}
