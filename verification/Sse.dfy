/**
 * Server-sent events: the writer of the streaming agent (writeSSE) and the incremental reader of the browser client
 * (readSseStream). The format is section 9.2.5 of the WHATWG HTML Living Standard, of which the reader implements a
 * subset: one event per data line.
 */
module Sse {
  import opened LlmTypes
  import opened Options

  /** An event as written or as yielded: its type and its payload text. */
  datatype Frame = Frame(event: string, data: string)

  /** The characters removed by the browser's trim. */
  predicate IsSpace(c: char) {
    var u := c as int;
    0x09 <= u <= 0x0D || u == 0x20 || u == 0xA0 || u == 0x1680 || 0x2000 <= u <= 0x200A
    || u == 0x2028 || u == 0x2029 || u == 0x202F || u == 0x205F || u == 0x3000 || u == 0xFEFF
  }

  function TrimLeft(s: string): string {
    if s != "" && IsSpace(s[0]) then TrimLeft(s[1..]) else s
  }

  function TrimRight(s: string): string {
    if s != "" && IsSpace(s[|s| - 1]) then TrimRight(s[..|s| - 1]) else s
  }

  function Trim(s: string): string {
    TrimLeft(TrimRight(s))
  }

  // ---------- Writer ----------

  function WriteSse(f: Frame): string {
    "event: " + f.event + "\ndata: " + f.data + "\n\n"
  }

  function Print(frames: seq<Frame>): string {
    if frames == [] then "" else WriteSse(frames[0]) + Print(frames[1..])
  }

  // ---------- Reader ----------

  /** The pieces between newlines; always at least one. */
  function Split(s: string): (lines: seq<string>)
    ensures |lines| >= 1
  {
    if s == "" then [""]
    else
      var rest := Split(s[1..]);
      if s[0] == '\n' then [""] + rest else [[s[0]] + rest[0]] + rest[1..]
  }

  /** The reader between lines: the pending event type and the events yielded so far. */
  datatype State = State(current: string, out: seq<Frame>)

  const START := State("", [])

  function Emit(st: State, trimmed: string): State
    requires "data: " <= trimmed
  {
    st.(out := st.out + [Frame(if st.current == "" then "message" else st.current, trimmed[6..])])
  }

  function ReadLine(st: State, line: string): State {
    var trimmed := Trim(line);
    if trimmed == "" then st.(current := "")
    else if "event: " <= trimmed then st.(current := Trim(trimmed[7..]))
    else if "data: " <= trimmed then Emit(st, trimmed)
    else st
  }

  function ReadLines(st: State, lines: seq<string>): State {
    if lines == [] then st else ReadLine(ReadLines(st, lines[..|lines| - 1]), lines[|lines| - 1])
  }

  /** What is left in the buffer at the end counts only as a data line. */
  function ReadTail(st: State, tail: string): State {
    if "data: " <= Trim(tail) then Emit(st, Trim(tail)) else st
  }

  /** The events of a whole text, read in one piece. */
  function Parse(text: string): seq<Frame> {
    var lines := Split(text);
    ReadTail(ReadLines(START, lines[..|lines| - 1]), lines[|lines| - 1]).out
  }

  /**
   * The incremental reader: what it yields depends only on the text read, never on where the network cut it. `abortAt`
   * is the number of chunks read before the signal is first seen as aborted.
   */
  method ReadSseStream(chunks: seq<string>, abortAt: Option<nat>) returns (out: seq<Frame>)
    ensures abortAt == None ==> out == Parse(Concat(chunks))
    ensures abortAt.Some? && abortAt.value < |chunks| ==> out == Parse(Concat(chunks[..abortAt.value]))
    ensures abortAt.Some? && abortAt.value >= |chunks| ==> out == Parse(Concat(chunks))
  {
    hide ReadSoFar, Split, ReadLines, ReadTail, Concat, Parse;
    var buffer, currentEvent := "", "";
    out := [];
    var k := 0;
    StartReading();
    assert chunks[..0] == [] && chunks[..|chunks|] == chunks;
    while true
      invariant 0 <= k <= |chunks| && (abortAt.Some? ==> k <= abortAt.value)
      invariant ReadSoFar(Concat(chunks[..k]), buffer, State(currentEvent, out))
      decreases |chunks| - k
    {
      if abortAt == Some(k) {
        break;
      }
      if k == |chunks| {
        break;
      }
      ReadMore(chunks, k, buffer, State(currentEvent, out));
      var lines := Split(buffer + chunks[k]);
      buffer := lines[|lines| - 1];
      currentEvent, out := ReadWholeLines(lines[..|lines| - 1], currentEvent, out);
      k := k + 1;
    }
    StopReading(Concat(chunks[..k]), buffer, State(currentEvent, out));
    out := ReadRest(buffer, currentEvent, out);
  }

  /** Between chunks: the buffer is the unfinished line, and the lines before it have been read. */
  ghost predicate ReadSoFar(text: string, buffer: string, st: State) {
    var lines := Split(text);
    buffer == lines[|lines| - 1] && st == ReadLines(START, lines[..|lines| - 1])
  }

  lemma StartReading()
    ensures ReadSoFar(Concat([]), "", START)
  {
    ReadNothing();
  }

  lemma ReadMore(chunks: seq<string>, k: nat, buffer: string, st: State)
    requires k < |chunks| && ReadSoFar(Concat(chunks[..k]), buffer, st)
    ensures var lines := Split(buffer + chunks[k]);
            ReadSoFar(Concat(chunks[..k + 1]), lines[|lines| - 1], ReadLines(st, lines[..|lines| - 1]))
  {
    hide Split, ReadLines, Concat;
    assert chunks[..k + 1] == chunks[..k] + [chunks[k]];
    ConcatSnoc(chunks[..k], chunks[k]);
    SplitAppend(Concat(chunks[..k]), chunks[k]);
    var before, lines := Split(Concat(chunks[..k])), Split(buffer + chunks[k]);
    var front := before[..|before| - 1];
    LastOf(front, lines);
    ReadLinesConcat(START, front, lines[..|lines| - 1]);
  }

  lemma LastOf(front: seq<string>, lines: seq<string>)
    requires lines != []
    ensures var all := front + lines;
            all[|all| - 1] == lines[|lines| - 1] && all[..|all| - 1] == front + lines[..|lines| - 1]
  {
  }

  lemma StopReading(text: string, buffer: string, st: State)
    requires ReadSoFar(text, buffer, st)
    ensures Parse(text) == ReadTail(st, buffer).out
  {
    hide Split, ReadLines, ReadTail;
  }

  /** The unfinished line at the end of the text. */
  method ReadRest(buffer: string, currentEvent: string, out: seq<Frame>) returns (out': seq<Frame>)
    ensures out' == ReadTail(State(currentEvent, out), buffer).out
  {
    hide Trim;
    out' := out;
    if Trim(buffer) != "" {
      var trimmed := Trim(buffer);
      if "data: " <= trimmed {
        out' := out' + [Frame(if currentEvent == "" then "message" else currentEvent, trimmed[6..])];
      }
    }
  }

  /** The lines that a chunk completes, one after the other. */
  method ReadWholeLines(lines: seq<string>, currentEvent: string, out: seq<Frame>)
    returns (currentEvent': string, out': seq<Frame>)
    ensures State(currentEvent', out') == ReadLines(State(currentEvent, out), lines)
  {
    hide ReadLine, ReadLines, Trim;
    currentEvent', out' := currentEvent, out;
    ReadNothing();
    for i := 0 to |lines|
      invariant State(currentEvent', out') == ReadLines(State(currentEvent, out), lines[..i])
    {
      ReadNext(State(currentEvent, out), lines, i);
      currentEvent', out' := ReadOneLine(lines[i], currentEvent', out');
    }
    assert lines[..|lines|] == lines;
  }

  method ReadOneLine(line: string, currentEvent: string, out: seq<Frame>)
    returns (currentEvent': string, out': seq<Frame>)
    ensures State(currentEvent', out') == ReadLine(State(currentEvent, out), line)
  {
    currentEvent', out' := currentEvent, out;
    var trimmed := Trim(line);
    if trimmed == "" {
      currentEvent' := "";
      return;
    }
    if "event: " <= trimmed {
      currentEvent' := Trim(trimmed[7..]);
      return;
    }
    if "data: " <= trimmed {
      var eventType := if currentEvent == "" then "message" else currentEvent;
      out' := out + [Frame(eventType, trimmed[6..])];
    }
  }

  lemma ReadNothing()
    ensures Split("") == [""]
    ensures forall st :: ReadLines(st, []) == st
  {
  }

  lemma ReadNext(st: State, lines: seq<string>, i: nat)
    requires i < |lines|
    ensures ReadLines(st, lines[..i + 1]) == ReadLine(ReadLines(st, lines[..i]), lines[i])
  {
    assert lines[..i + 1][..i] == lines[..i];
  }

  // ---------- Splitting is compatible with chunking ----------

  lemma SplitHead(s: string)
    requires s != ""
    ensures Split(s) == InFront(s[0], Split(s[1..]))
  {
  }

  /** A character in front of some lines: it begins the first, or is a line break before it. */
  function InFront(c: char, lines: seq<string>): seq<string>
    requires lines != []
  {
    if c == '\n' then [""] + lines else [[c] + lines[0]] + lines[1..]
  }

  /**
   * In front of lines whose last is continued by others: it is in front of the others only when it joins that last
   * line.
   */
  lemma FrontOfContinued(c: char, rest: seq<string>, more: seq<string>)
    requires rest != [] && more != []
    ensures var lines := InFront(c, rest);
            InFront(c, rest[..|rest| - 1] + more)
            == lines[..|lines| - 1] + if c != '\n' && |rest| == 1 then InFront(c, more) else more
  {
  }

  lemma {:induction false} SplitAppend(a: string, b: string)
    ensures var lines := Split(a);
            Split(a + b) == lines[..|lines| - 1] + Split(lines[|lines| - 1] + b)
    decreases |a|
  {
    hide Split;
    if a == "" {
      ReadNothing();
      assert "" + b == b;
      assert a + b == b;
    } else {
      assert (a + b)[1..] == a[1..] + b && (a + b)[0] == a[0];
      SplitAppend(a[1..], b);
      SplitHead(a);
      SplitHead(a + b);
      var rest := Split(a[1..]);
      var tail := rest[|rest| - 1] + b;
      if a[0] != '\n' && |rest| == 1 {
        var x := [a[0]] + rest[0] + b;
        assert x[1..] == tail;
        SplitHead(x);
      }
      FrontOfContinued(a[0], rest, Split(tail));
    }
  }

  lemma {:induction false} ReadLinesConcat(st: State, a: seq<string>, b: seq<string>)
    ensures ReadLines(st, a + b) == ReadLines(ReadLines(st, a), b)
    decreases |b|
  {
    if b == [] {
      assert a + b == a;
    } else {
      assert (a + b)[..|a + b| - 1] == a + b[..|b| - 1];
      ReadLinesConcat(st, a, b[..|b| - 1]);
    }
  }

  // ---------- Print, then parse ----------

  predicate OneLine(s: string) {
    '\n' !in s
  }

  lemma {:induction false} SplitLine(line: string, rest: string)
    requires OneLine(line)
    ensures Split(line + "\n" + rest) == [line] + Split(rest)
    decreases |line|
  {
    var s := line + "\n" + rest;
    if line == "" {
      assert s[1..] == rest;
    } else {
      assert s[1..] == line[1..] + "\n" + rest;
      assert OneLine(line[1..]) && line[0] in line && [line[0]] + line[1..] == line;
      SplitLine(line[1..], rest);
    }
  }

  lemma {:induction false} LineAlone(line: string)
    requires OneLine(line)
    ensures Split(line) == [line]
    decreases |line|
  {
    if line != "" {
      assert line[0] in line && OneLine(line[1..]);
      LineAlone(line[1..]);
      assert [line[0]] + line[1..] == line;
    }
  }

  lemma {:induction false} TrimRightOfConcat(a: string, b: string)
    ensures TrimRight(a + b) == if TrimRight(b) == "" then TrimRight(a) else a + TrimRight(b)
    decreases |b|
  {
    if b == "" {
      assert a + b == a;
    } else {
      assert (a + b)[..|a + b| - 1] == a + b[..|b| - 1];
      if IsSpace(b[|b| - 1]) {
        TrimRightOfConcat(a, b[..|b| - 1]);
      }
    }
  }

  lemma {:induction false} TrimRightTwice(s: string)
    ensures TrimRight(TrimRight(s)) == TrimRight(s)
    decreases |s|
  {
    if s != "" && IsSpace(s[|s| - 1]) {
      TrimRightTwice(s[..|s| - 1]);
    }
  }

  lemma TrimFields()
    ensures TrimRight("event: ") == "event:" && TrimRight("data: ") == "data:"
    ensures IsSpace(' ')
  {
    assert "event: "[..6] == "event:" && "data: "[..5] == "data:";
  }

  /** What the reader makes of one written event whose fields have no newline. */
  function Received(f: Frame): seq<Frame> {
    if TrimRight(f.data) == "" then []
    else [Frame(if Trim(f.event) == "" then "message" else Trim(f.event), TrimRight(f.data))]
  }

  function AllReceived(frames: seq<Frame>): seq<Frame> {
    if frames == [] then [] else Received(frames[0]) + AllReceived(frames[1..])
  }

  lemma EventLine(st: State, event: string)
    ensures st.current == "" ==> ReadLine(st, "event: " + event) == st.(current := Trim(event))
  {
    TrimFields();
    TrimRightOfConcat("event: ", event);
    TrimRightTwice(event);
    if TrimRight(event) != "" {
      assert ("event: " + TrimRight(event))[7..] == TrimRight(event);
    }
  }

  lemma DataLine(st: State, data: string)
    ensures ReadLine(st, "data: " + data) ==
            if TrimRight(data) == "" then st
            else st.(out := st.out + [Frame(if st.current == "" then "message" else st.current, TrimRight(data))])
  {
    hide Trim, TrimRight;
    DataTrimmed(data);
    var trimmed := Trim("data: " + data);
    assert trimmed[0] == 'd' && "event: "[0] == 'e';
    if TrimRight(data) != "" {
      assert "data: " <= trimmed && trimmed[6..] == TrimRight(data);
    } else {
      assert |trimmed| == 5;
    }
  }

  lemma DataTrimmed(data: string)
    ensures Trim("data: " + data) == if TrimRight(data) == "" then "data:" else "data: " + TrimRight(data)
  {
    TrimFields();
    hide TrimRight;
    TrimRightOfConcat("data: ", data);
    NotTrimmed("data:");
    NotTrimmed("data: " + TrimRight(data));
  }

  lemma NotTrimmed(s: string)
    requires s != "" && s[0] == 'd'
    ensures TrimLeft(s) == s
  {
  }

  lemma FrameLines(f: Frame, rest: string)
    requires OneLine(f.event) && OneLine(f.data)
    ensures Split(WriteSse(f) + rest) == ["event: " + f.event, "data: " + f.data, ""] + Split(rest)
  {
    hide Split;
    var e, d := "event: " + f.event, "data: " + f.data;
    SplitLine("", rest);
    SplitLine(d, "\n" + rest);
    SplitLine(e, d + "\n" + ("\n" + rest));
    assert WriteSse(f) + rest == e + "\n" + (d + "\n" + ("\n" + rest));
    assert "" + "\n" + rest == "\n" + rest;
  }

  lemma ReadFrame(st: State, f: Frame)
    requires st.current == ""
    ensures ReadLines(st, ["event: " + f.event, "data: " + f.data, ""]) == State("", st.out + Received(f))
  {
    hide ReadLine, Trim, TrimRight;
    var e, d := "event: " + f.event, "data: " + f.data;
    EventLine(st, f.event);
    DataLine(st.(current := Trim(f.event)), f.data);
    ReadThree(st, e, d, "");
    BlankLine(ReadLine(ReadLine(st, e), d));
    assert st.out + [] == st.out;
  }

  lemma ReadThree(st: State, a: string, b: string, c: string)
    ensures ReadLines(st, [a, b, c]) == ReadLine(ReadLine(ReadLine(st, a), b), c)
  {
    hide ReadLine;
    assert [a, b, c][..2] == [a, b] && [a, b][..1] == [a] && [a][..0] == [];
    assert ReadLines(st, [a]) == ReadLine(st, a);
    assert ReadLines(st, [a, b]) == ReadLine(ReadLine(st, a), b);
  }

  lemma BlankLine(st: State)
    ensures ReadLine(st, "") == st.(current := "")
  {
  }

  predicate AllOneLine(frames: seq<Frame>) {
    forall i | 0 <= i < |frames| :: OneLine(frames[i].event) && OneLine(frames[i].data)
  }

  lemma {:induction false} ReadPrinted(st: State, frames: seq<Frame>)
    requires st.current == "" && AllOneLine(frames)
    ensures var lines := Split(Print(frames));
            && lines[|lines| - 1] == ""
            && ReadLines(st, lines[..|lines| - 1]) == State("", st.out + AllReceived(frames))
    decreases |frames|
  {
    hide ReadLine, Received, WriteSse, Split;
    if frames == [] {
      ReadNothing();
      assert st.out + [] == st.out;
    } else {
      var f, rest := frames[0], frames[1..];
      FrameLines(f, Print(rest));
      ReadFrame(st, f);
      var head, tail := ["event: " + f.event, "data: " + f.data, ""], Split(Print(rest));
      var front := tail[..|tail| - 1];
      assert (head + tail)[..|head + tail| - 1] == head + front;
      ReadLinesConcat(st, head, front);
      ReadPrinted(State("", st.out + Received(f)), rest);
      assert st.out + Received(f) + AllReceived(rest) == st.out + (Received(f) + AllReceived(rest));
    }
  }

  /** Printing and parsing any events with one-line fields gives each event's received form, in order. */
  lemma PrintThenParse(frames: seq<Frame>)
    requires AllOneLine(frames)
    ensures Parse(Print(frames)) == AllReceived(frames)
  {
    ReadPrinted(START, frames);
    assert Trim("") == "";
  }

  /** The event's type is non-empty and trimmed; its payload is non-empty and does not end in white space. */
  predicate Clean(f: Frame) {
    f.event != "" && Trim(f.event) == f.event && f.data != "" && TrimRight(f.data) == f.data
  }

  lemma {:induction false} ReceivedExactly(frames: seq<Frame>)
    ensures |AllReceived(frames)| <= |frames|
    ensures AllReceived(frames) == frames <==> forall i | 0 <= i < |frames| :: Clean(frames[i])
    decreases |frames|
  {
    hide Trim, TrimRight;
    if frames != [] {
      var f, rest := frames[0], frames[1..];
      ReceivedExactly(rest);
      ReceivedIfClean(f);
      if AllReceived(frames) == frames {
        assert Received(f) == [f] && AllReceived(rest) == rest;
      }
      assert frames == [f] + rest;
    }
  }

  lemma ReceivedIfClean(f: Frame)
    ensures Received(f) == [f] <==> Clean(f)
  {
    assert Trim("message") == "message" && Trim("") == "";
  }

  lemma {:induction false} SplitIsOneLine(s: string)
    ensures forall line | line in Split(s) :: OneLine(line)
    decreases |s|
  {
    if s != "" {
      SplitIsOneLine(s[1..]);
      var rest := Split(s[1..]);
      assert rest[0] in rest;
      forall line | line in Split(s) ensures OneLine(line) {
        assert line == "" || line == [s[0]] + rest[0] || line in rest;
      }
    }
  }

  lemma {:induction false} TrimLeftIsOneLine(s: string)
    requires OneLine(s)
    ensures OneLine(TrimLeft(s))
    decreases |s|
  {
    if s != "" && IsSpace(s[0]) {
      TrimLeftIsOneLine(s[1..]);
    }
  }

  lemma {:induction false} TrimIsOneLine(s: string)
    requires OneLine(s)
    ensures OneLine(Trim(s))
    decreases |s|
  {
    if s != "" && IsSpace(s[|s| - 1]) {
      TrimIsOneLine(s[..|s| - 1]);
    } else {
      TrimLeftIsOneLine(s);
    }
  }

  predicate OneLineState(st: State) {
    OneLine(st.current) && AllOneLine(st.out)
  }

  lemma EmitIsOneLine(st: State, trimmed: string)
    requires OneLineState(st) && OneLine(trimmed) && "data: " <= trimmed
    ensures OneLineState(Emit(st, trimmed))
  {
  }

  lemma ReadLineIsOneLine(st: State, line: string)
    requires OneLineState(st) && OneLine(line)
    ensures OneLineState(ReadLine(st, line)) && OneLineState(ReadTail(st, line))
  {
    hide Trim, Emit;
    var trimmed := Trim(line);
    TrimIsOneLine(line);
    if "event: " <= trimmed {
      TrimIsOneLine(trimmed[7..]);
    }
    if "data: " <= trimmed {
      EmitIsOneLine(st, trimmed);
    }
  }

  lemma {:induction false} ReadLinesIsOneLine(st: State, lines: seq<string>)
    requires OneLineState(st) && forall line | line in lines :: OneLine(line)
    ensures OneLineState(ReadLines(st, lines))
    decreases |lines|
  {
    hide ReadLine, OneLineState, OneLine;
    if lines != [] {
      var n := |lines| - 1;
      ReadLinesIsOneLine(st, lines[..n]);
      ReadLineIsOneLine(ReadLines(st, lines[..n]), lines[n]);
    }
  }

  lemma StartIsOneLine()
    ensures OneLineState(START)
  {
  }

  /** Whatever is read, no field of a yielded event holds a newline. */
  lemma ParsedIsOneLine(text: string)
    ensures AllOneLine(Parse(text))
  {
    hide ReadLines, ReadTail, OneLine, Split, START;
    var lines := Split(text);
    SplitIsOneLine(text);
    StartIsOneLine();
    ReadLinesIsOneLine(START, lines[..|lines| - 1]);
    ReadLineIsOneLine(ReadLines(START, lines[..|lines| - 1]), lines[|lines| - 1]);
  }

  /**
   * Print then parse is the identity exactly on clean one-line events: for every list of events, the reader yields the
   * written events, in order, if and only if every one of them is clean and has no newline in its fields.
   */
  lemma RoundTripExact(frames: seq<Frame>)
    ensures Parse(Print(frames)) == frames <==> AllOneLine(frames) && forall i | 0 <= i < |frames| :: Clean(frames[i])
  {
    hide Parse, Print, Clean, AllOneLine;
    ParsedIsOneLine(Print(frames));
    if AllOneLine(frames) {
      PrintThenParse(frames);
      ReceivedExactly(frames);
    }
  }
}
