/**
 Server-sent events: the framing done by broadcast, and the event stream parser
 of sections 9.2.5 and 9.2.6 of the WHATWG HTML Standard, over decoded characters.
 */
module SseFraming {
  import opened Sequences
  import opened Searching

  const LF: char := '\n'
  const CR: char := '\r'

  // ------------------------------------------------------------------
  // The parser of the HTML Standard
  // ------------------------------------------------------------------

  datatype Event = Event(kind: string, data: string)

  /** The event type buffer and the data buffer. */
  datatype Buffers = Buffers(kind: string, data: string)

  const Empty := Buffers("", "")

  predicate Ends(c: char) {
    c == LF || c == CR
  }

  predicate IsLf(c: char) {
    c == LF
  }

  predicate IsColon(c: char) {
    c == ':'
  }

  /** The lines of a stream; CR LF ends one line, and a tail without an end is discarded. */
  function Lines(s: string): seq<string>
    decreases |s|
  {
    var k := FindWhere(s, Ends, 0);
    if k == |s| then []
    else if s[k] == CR && k + 1 < |s| && s[k + 1] == LF then [s[..k]] + Lines(s[k + 2..])
    else [s[..k]] + Lines(s[k + 1..])
  }

  /** Fields other than event and data change neither buffer. */
  function Field(b: Buffers, name: string, value: string): Buffers {
    if name == "event" then b.(kind := value)
    else if name == "data" then b.(data := b.data + value + [LF])
    else b
  }

  function ProcessLine(b: Buffers, line: string): Buffers
    requires line != []
  {
    var k := FindWhere(line, IsColon, 0);
    if k == 0 then b
    else if k == |line| then Field(b, line, "")
    else
      var value := line[k + 1..];
      Field(b, line[..k], if value != [] && value[0] == ' ' then value[1..] else value)
  }

  function Dispatch(b: Buffers): seq<Event> {
    if b.data == "" then []
    else [Event(if b.kind == "" then "message" else b.kind,
                if b.data[|b.data| - 1] == LF then b.data[..|b.data| - 1] else b.data)]
  }

  function Interpret(lines: seq<string>, b: Buffers): seq<Event> {
    if lines == [] then []
    else if lines[0] == "" then Dispatch(b) + Interpret(lines[1..], Empty)
    else Interpret(lines[1..], ProcessLine(b, lines[0]))
  }

  function Parse(s: string): seq<Event> {
    Interpret(Lines(s), Empty)
  }

  // ------------------------------------------------------------------
  // Framing
  // ------------------------------------------------------------------

  /** What std::getline yields until the stream is at its end. */
  function GetLines(data: string): seq<string> {
    if data == "" then []
    else
      var k := FindWhere(data, IsLf, 0);
      if k == |data| then [data] else [data[..k]] + GetLines(data[k + 1..])
  }

  function DataLines(lines: seq<string>): string {
    if lines == [] then "" else DataLine(lines[0]) + DataLines(lines[1..])
  }

  function Frame(event: string, data: string): string {
    "event: " + event + [LF]
    + DataLines(if data == "" then [""] else GetLines(data))
    + [LF]
  }

  lemma {:induction false} DataLinesAppend(lines: seq<string>, more: seq<string>)
    ensures DataLines(lines + more) == DataLines(lines) + DataLines(more)
  {
    if lines == [] {
      assert lines + more == more;
    } else {
      assert (lines + more)[1..] == lines[1..] + more;
      DataLinesAppend(lines[1..], more);
    }
  }

  lemma NextLine(data: string, pos: nat, end: nat)
    requires pos < |data| && pos <= end <= |data|
    requires forall j :: pos <= j < end ==> data[j] != LF
    requires end < |data| ==> data[end] == LF
    ensures GetLines(data[pos..]) ==
            [data[pos..end]] + GetLines(data[if end < |data| then end + 1 else end..])
  {
    var rest := data[pos..];
    FindWhereIs(rest, IsLf, 0, end - pos);
    assert rest[..end - pos] == data[pos..end];
    if end < |data| {
      assert rest[end - pos + 1..] == data[end + 1..];
    } else {
      assert data[end..] == "" && rest == data[pos..end];
    }
  }

  function DataLine(line: string): string {
    "data: " + line + [LF]
  }

  lemma PushDataLine(head: string, done: seq<string>, line: string)
    ensures head + DataLines(done) + DataLine(line) == head + DataLines(done + [line])
  {
    DataLinesAppend(done, [line]);
    assert DataLines([line]) == DataLine(line) + DataLines([]);
    AppendAssoc(head, DataLines(done), DataLine(line));
  }

  /** std::getline on a string stream that stands at pos and is not at its end. */
  method GetLine(data: string, pos: nat) returns (line: string, next: nat)
    requires pos < |data|
    ensures pos < next <= |data|
    ensures GetLines(data[pos..]) == [line] + GetLines(data[next..])
  {
    var end := pos;
    while end < |data| && data[end] != LF
      invariant pos <= end <= |data|
      invariant forall j :: pos <= j < end ==> data[j] != LF
    {
      end := end + 1;
    }
    NextLine(data, pos, end);
    line := data[pos..end];
    next := if end < |data| then end + 1 else end;
  }

  method FormatMessage(event: string, data: string) returns (msg: string)
    ensures msg == Frame(event, data)
  {
    msg := "event: " + event + [LF];
    ghost var head := msg;
    ghost var done: seq<string> := [];
    var pos := 0;
    assert data[0..] == data;
    while pos < |data|
      invariant 0 <= pos <= |data|
      invariant GetLines(data) == done + GetLines(data[pos..])
      invariant msg == head + DataLines(done)
    {
      var line, next := GetLine(data, pos);
      PushDataLine(head, done, line);
      AppendAssoc(done, [line], GetLines(data[next..]));
      msg := msg + DataLine(line);
      done := done + [line];
      pos := next;
    }
    assert GetLines(data) == done;
    if data == "" {
      PushDataLine(head, [], "");
      assert [] + [""] == [""] && head + DataLines([]) == head;
      msg := msg + DataLine("");
    }
    msg := msg + [LF];
  }

  // ------------------------------------------------------------------
  // Parsing what was framed
  // ------------------------------------------------------------------

  predicate Clean(s: string) {
    forall i :: 0 <= i < |s| ==> !Ends(s[i])
  }

  predicate NoCr(s: string) {
    forall i :: 0 <= i < |s| ==> s[i] != CR
  }

  function Trimmed(data: string): string {
    if data != "" && data[|data| - 1] == LF then data[..|data| - 1] else data
  }

  function Kind(event: string): string {
    if event == "" then "message" else event
  }

  lemma LinesOfLine(line: string, rest: string)
    requires Clean(line)
    ensures Lines(line + [LF] + rest) == [line] + Lines(rest)
  {
    var s := line + [LF] + rest;
    FindWhereIs(s, Ends, 0, |line|);
    assert s[..|line|] == line && s[|line| + 1..] == rest;
  }

  /** The data lines of a message, without their ends. */
  function Prefixed(lines: seq<string>): seq<string> {
    if lines == [] then [] else ["data: " + lines[0]] + Prefixed(lines[1..])
  }

  lemma {:induction false} LinesOfDataLines(lines: seq<string>, rest: string)
    requires forall i :: 0 <= i < |lines| ==> Clean(lines[i])
    ensures Lines(DataLines(lines) + rest) == Prefixed(lines) + Lines(rest)
  {
    if lines == [] {
      assert DataLines(lines) + rest == rest;
      assert Prefixed(lines) + Lines(rest) == Lines(rest);
    } else {
      var first, tail := "data: " + lines[0], DataLines(lines[1..]);
      LinesOfDataLines(lines[1..], rest);
      assert Clean(first);
      LinesOfLine(first, tail + rest);
      AppendAssoc(first + [LF], tail, rest);
      AppendAssoc([first], Prefixed(lines[1..]), Lines(rest));
    }
  }

  lemma ProcessDataLine(b: Buffers, line: string)
    ensures ProcessLine(b, "data: " + line) == b.(data := b.data + line + [LF])
  {
    var s := "data: " + line;
    FindWhereIs(s, IsColon, 0, 4);
    assert s[..4] == "data" && s[5..] == " " + line && (" " + line)[1..] == line;
  }

  lemma ProcessEventLine(b: Buffers, name: string)
    ensures ProcessLine(b, "event: " + name) == b.(kind := name)
  {
    var s := "event: " + name;
    FindWhereIs(s, IsColon, 0, 5);
    assert s[..5] == "event" && s[6..] == " " + name && (" " + name)[1..] == name;
  }

  /** The data buffer after the given data lines. */
  function Joined(lines: seq<string>): string {
    if lines == [] then "" else lines[0] + [LF] + Joined(lines[1..])
  }

  lemma InterpretLine(line: string, rest: seq<string>, b: Buffers)
    requires line != ""
    ensures Interpret([line] + rest, b) == Interpret(rest, ProcessLine(b, line))
  {
    assert ([line] + rest)[1..] == rest;
  }

  lemma {:induction false} InterpretDataLines(lines: seq<string>, rest: seq<string>, b: Buffers)
    ensures Interpret(Prefixed(lines) + rest, b) == Interpret(rest, b.(data := b.data + Joined(lines)))
    decreases lines
  {
    if lines == [] {
      assert Prefixed(lines) + rest == rest && b.data + Joined(lines) == b.data;
    } else {
      var first, tail := "data: " + lines[0], Prefixed(lines[1..]);
      var b' := b.(data := b.data + lines[0] + [LF]);
      ProcessDataLine(b, lines[0]);
      AppendAssoc([first], tail, rest);
      InterpretLine(first, tail + rest, b);
      InterpretDataLines(lines[1..], rest, b');
      AppendAssoc(b.data, lines[0], [LF]);
      AppendAssoc(b.data, lines[0] + [LF], Joined(lines[1..]));
    }
  }

  lemma TrimmedAppend(head: string, rest: string)
    requires rest != ""
    ensures Trimmed(head + rest) == head + Trimmed(rest)
  {}

  lemma JoinedCons(line: string, lines: seq<string>)
    ensures Joined([line] + lines) == line + [LF] + Joined(lines)
  {
    assert ([line] + lines)[1..] == lines;
  }

  /** getline loses at most one final LF: the lines joined again give it back. */
  lemma {:induction false} JoinedGetLines(data: string)
    requires data != ""
    ensures Joined(GetLines(data)) == Trimmed(data) + [LF]
    decreases |data|
  {
    var k := FindWhere(data, IsLf, 0);
    var head := data[..k];
    if k == |data| {
      assert head == data && [head] + [] == [head];
      JoinedCons(head, []);
      assert Trimmed(data) == data;
      assert data + [LF] + "" == data + [LF];
    } else {
      var rest := data[k + 1..];
      JoinedCons(head, GetLines(rest));
      assert data == head + [LF] + rest;
      if rest == "" {
        assert Trimmed(head + [LF]) == head;
        assert data == head + [LF] && head + [LF] + "" == head + [LF];
      } else {
        JoinedGetLines(rest);
        TrimmedAppend(head + [LF], rest);
        AppendAssoc(head + [LF], Trimmed(rest), [LF]);
      }
    }
  }

  lemma {:induction false} GetLinesClean(data: string)
    requires NoCr(data)
    ensures forall i :: 0 <= i < |GetLines(data)| ==> Clean(GetLines(data)[i])
    decreases |data|
  {
    if data != "" {
      var k := FindWhere(data, IsLf, 0);
      assert Clean(data[..k]);
      if k == |data| {
        assert data[..k] == data;
      } else {
        GetLinesClean(data[k + 1..]);
      }
    }
  }

  // ------------------------------------------------------------------
  // Main results
  // ------------------------------------------------------------------

  function Sent(event: string, data: string): Event {
    Event(Kind(event), Trimmed(data))
  }

  function FrameLines(data: string): seq<string> {
    if data == "" then [""] else GetLines(data)
  }

  lemma FrameSplits(event: string, data: string, rest: string)
    ensures Frame(event, data) + rest
         == ("event: " + event) + [LF] + (DataLines(FrameLines(data)) + ([LF] + rest))
  {
    var first, body := "event: " + event, DataLines(FrameLines(data));
    AppendAssoc(first + [LF], body, [LF]);
    AppendAssoc(first + [LF] + body, [LF], rest);
    AppendAssoc(first + [LF], body, [LF] + rest);
  }

  lemma JoinedFrameLines(data: string)
    ensures "" + Joined(FrameLines(data)) == Trimmed(data) + [LF]
  {
    assert "" + Joined(FrameLines(data)) == Joined(FrameLines(data));
    if data == "" {
      assert [""][1..] == [];
    } else {
      JoinedGetLines(data);
    }
  }

  /** The lines of a framed message in front of a stream. */
  lemma LinesOfFrame(event: string, data: string, rest: string)
    requires Clean(event) && NoCr(data)
    ensures Lines(Frame(event, data) + rest)
         == ["event: " + event] + (Prefixed(FrameLines(data)) + ([""] + Lines(rest)))
  {
    var lines, first, tail := FrameLines(data), "event: " + event, [LF] + rest;
    GetLinesClean(data);
    FrameSplits(event, data, rest);
    assert Clean(first);
    LinesOfLine(first, DataLines(lines) + tail);
    LinesOfDataLines(lines, tail);
    LinesOfLine("", rest);
    assert "" + [LF] + rest == tail;
  }

  /** A framed message in front of a stream parses to its event, then the rest. */
  lemma ParseFrame(event: string, data: string, rest: string)
    requires Clean(event) && NoCr(data)
    ensures Parse(Frame(event, data) + rest) == [Sent(event, data)] + Parse(rest)
  {
    var lines, last := FrameLines(data), [""] + Lines(rest);
    GetLinesClean(data);
    LinesOfFrame(event, data, rest);
    InterpretLine("event: " + event, Prefixed(lines) + last, Empty);
    ProcessEventLine(Empty, event);
    InterpretDataLines(lines, last, Empty.(kind := event));
    JoinedFrameLines(data);
    InterpretEnd(event, Trimmed(data), Lines(rest));
  }

  /** The empty line after the data dispatches the event without the last line feed. */
  lemma InterpretEnd(event: string, data: string, rest: seq<string>)
    ensures Interpret([""] + rest, Buffers(event, data + [LF])) == [Event(Kind(event), data)] + Interpret(rest, Empty)
  {
    assert ([""] + rest)[1..] == rest;
    SplitAppend(data, [LF]);
  }

  /** What one connection writes: broadcasts, and the keep-alive comment between them. */
  datatype Chunk = Broadcast(event: string, data: string) | Heartbeat

  function Wire(chunks: seq<Chunk>): string {
    if chunks == [] then ""
    else
      (match chunks[0]
       case Broadcast(event, data) => Frame(event, data)
       case Heartbeat => ":heartbeat" + [LF] + [LF]) + Wire(chunks[1..])
  }

  function Delivered(chunks: seq<Chunk>): seq<Event> {
    if chunks == [] then []
    else
      (match chunks[0]
       case Broadcast(event, data) => [Sent(event, data)]
       case Heartbeat => []) + Delivered(chunks[1..])
  }

  lemma ParseComment(comment: string, rest: string)
    requires comment != "" && comment[0] == ':' && Clean(comment)
    ensures Parse(comment + [LF] + [LF] + rest) == Parse(rest)
  {
    AppendAssoc(comment + [LF], [LF], rest);
    LinesOfLine(comment, [LF] + rest);
    LinesOfLine("", rest);
    assert "" + [LF] + rest == [LF] + rest;
    FindWhereIs(comment, IsColon, 0, 0);
    InterpretLine(comment, [""] + Lines(rest), Empty);
    assert ([""] + Lines(rest))[1..] == Lines(rest);
    assert [] + Interpret(Lines(rest), Empty) == Interpret(Lines(rest), Empty);
  }

  /**
   A receiver gets exactly the broadcast events, in order, whatever heartbeats
   are mixed in. An empty name gives the default type, and each event's data
   loses only one final line feed, if it has one.
   */
  lemma {:induction false} ParseWire(chunks: seq<Chunk>)
    requires forall i :: 0 <= i < |chunks| && chunks[i].Broadcast? ==>
               Clean(chunks[i].event) && NoCr(chunks[i].data)
    ensures Parse(Wire(chunks)) == Delivered(chunks)
  {
    if chunks != [] {
      ParseWire(chunks[1..]);
      match chunks[0] {
        case Broadcast(event, data) => ParseFrame(event, data, Wire(chunks[1..]));
        case Heartbeat =>
          assert Clean(":heartbeat");
          ParseComment(":heartbeat", Wire(chunks[1..]));
      }
    }
  }

  // ------------------------------------------------------------------
  // The condition is exact
  // ------------------------------------------------------------------

  lemma {:induction false} LinesAreClean(s: string)
    ensures forall i :: 0 <= i < |Lines(s)| ==> Clean(Lines(s)[i])
    decreases |s|
  {
    var k := FindWhere(s, Ends, 0);
    if k < |s| {
      var next := if s[k] == CR && k + 1 < |s| && s[k + 1] == LF then k + 2 else k + 1;
      LinesAreClean(s[next..]);
      assert Clean(s[..k]);
      assert Lines(s) == [s[..k]] + Lines(s[next..]);
    }
  }

  lemma ProcessLineIsClean(b: Buffers, line: string)
    requires line != "" && Clean(line) && Clean(b.kind) && NoCr(b.data)
    ensures var b' := ProcessLine(b, line); Clean(b'.kind) && NoCr(b'.data)
  {}

  lemma {:induction false} InterpretIsClean(lines: seq<string>, b: Buffers)
    requires forall i :: 0 <= i < |lines| ==> Clean(lines[i])
    requires Clean(b.kind) && NoCr(b.data)
    ensures forall i :: 0 <= i < |Interpret(lines, b)| ==>
              Clean(Interpret(lines, b)[i].kind) && NoCr(Interpret(lines, b)[i].data)
  {
    if lines == [] {
    } else if lines[0] == "" {
      InterpretIsClean(lines[1..], Empty);
      assert Clean("message");
    } else {
      ProcessLineIsClean(b, lines[0]);
      InterpretIsClean(lines[1..], ProcessLine(b, lines[0]));
    }
  }

  lemma ParsedIsClean(event: string, data: string)
    requires Parse(Frame(event, data)) == [Sent(event, data)]
    ensures Clean(Kind(event)) && NoCr(Trimmed(data))
  {
    LinesAreClean(Frame(event, data));
    InterpretIsClean(Lines(Frame(event, data)), Empty);
    assert Parse(Frame(event, data))[0] == Sent(event, data);
  }

  lemma TrimmedHasNoCr(data: string)
    requires NoCr(Trimmed(data))
    ensures NoCr(data)
  {
    forall i | 0 <= i < |data| ensures data[i] != CR {
      if i < |Trimmed(data)| {
        assert data[i] == Trimmed(data)[i];
      }
    }
  }

  /** A message parses back to its event exactly when the name has no CR or LF and the data no CR. */
  lemma FrameParsesIffClean(event: string, data: string)
    ensures Parse(Frame(event, data)) == [Sent(event, data)] <==> Clean(event) && NoCr(data)
  {
    if Clean(event) && NoCr(data) {
      ParseFrame(event, data, "");
      assert Frame(event, data) + "" == Frame(event, data);
    }
    if Parse(Frame(event, data)) == [Sent(event, data)] {
      ParsedIsClean(event, data);
      TrimmedHasNoCr(data);
    }
  }
}
