/** The reader's rules, line by line (readSseStream). */
module SseRules {
  import opened Sse

  lemma LinesMeet(a: string, b: string)
    ensures Split(a + "\n" + b) == Split(a) + Split(b)
  {
    hide Split;
    var lines := Split(a);
    SplitAppend(a, "\n" + b);
    LastLineAlone(a);
    SplitLine(lines[|lines| - 1], b);
    assert a + ("\n" + b) == a + "\n" + b;
    assert lines[|lines| - 1] + ("\n" + b) == lines[|lines| - 1] + "\n" + b;
    assert lines[..|lines| - 1] + ([lines[|lines| - 1]] + Split(b)) == lines + Split(b);
  }

  lemma LastLineAlone(s: string)
    ensures OneLine(Split(s)[|Split(s)| - 1])
  {
    hide Split, OneLine;
    SplitIsOneLine(s);
    assert Split(s)[|Split(s)| - 1] in Split(s);
  }

  /** What is read of a text whose lines are those of a, one more, and those of b. */
  lemma WithLine(a: string, line: string, b: string)
    requires OneLine(line)
    ensures var lines, st := Split(b), ReadLine(ReadLines(START, Split(a)), line);
            Parse(a + "\n" + line + "\n" + b) == ReadTail(ReadLines(st, lines[..|lines| - 1]), lines[|lines| - 1]).out
  {
    hide Split, ReadLine, ReadLines, ReadTail, OneLine;
    LinesAround(a, line, b);
    LastOf(Split(a) + [line], Split(b));
    ReadLinesConcat(START, Split(a) + [line], Split(b)[..|Split(b)| - 1]);
    ReadOneMore(Split(a), line);
  }

  lemma LinesAround(a: string, line: string, b: string)
    requires OneLine(line)
    ensures Split(a + "\n" + line + "\n" + b) == (Split(a) + [line]) + Split(b)
  {
    hide Split, OneLine;
    LinesMeet(a, line + "\n" + b);
    SplitLine(line, b);
    assert a + "\n" + (line + "\n" + b) == a + "\n" + line + "\n" + b;
    assert Split(a) + ([line] + Split(b)) == (Split(a) + [line]) + Split(b);
  }

  lemma ReadOneMore(lines: seq<string>, line: string)
    ensures ReadLines(START, lines + [line]) == ReadLine(ReadLines(START, lines), line)
  {
    hide ReadLine;
    assert (lines + [line])[..|lines|] == lines;
  }

  lemma WithoutLine(a: string, b: string)
    ensures var lines := Split(b);
            Parse(a + "\n" + b) ==
            ReadTail(ReadLines(ReadLines(START, Split(a)), lines[..|lines| - 1]), lines[|lines| - 1]).out
  {
    hide Split, ReadLines, ReadTail;
    LinesMeet(a, b);
    LastOf(Split(a), Split(b));
    ReadLinesConcat(START, Split(a), Split(b)[..|Split(b)| - 1]);
  }

  /** A line that is neither blank nor an event or data line, such as a comment, changes nothing. */
  lemma OtherLinesIgnored(a: string, line: string, b: string)
    requires OneLine(line) && Trim(line) != "" && !("event: " <= Trim(line)) && !("data: " <= Trim(line))
    ensures Parse(a + "\n" + line + "\n" + b) == Parse(a + "\n" + b)
  {
    hide Parse, Split, ReadLines, ReadTail, Trim;
    WithLine(a, line, b);
    WithoutLine(a, b);
  }

  /** Data without an event line, or after a blank line, makes an event of type "message". */
  lemma UnnamedIsMessage(event: string, data: string)
    requires OneLine(event) && OneLine(data) && data != "" && TrimRight(data) == data
    ensures Parse("data: " + data + "\n") == [Frame("message", data)]
    ensures Parse("event: " + event + "\n" + "" + "\n" + ("data: " + data + "\n")) == [Frame("message", data)]
  {
    hide ReadLine, Split, TrimRight, Trim;
    var line, rest := "data: " + data, Split("data: " + data + "\n");
    assert line + "\n" + "" == line + "\n";
    SplitLine(line, "");
    ReadNothing();
    assert rest == [line, ""] && rest[..1] == [line] && [line][..0] == [];
    DataLine(START, data);
    BlankLine(START);
    NothingLeft(START.(out := [Frame("message", data)]));
    assert [] + [Frame("message", data)] == [Frame("message", data)];
    WithLine("event: " + event, "", line + "\n");
    var st := ReadLines(START, Split("event: " + event));
    TypeOnly(event);
    BlankLine(st);
  }

  lemma NothingLeft(st: State)
    ensures ReadTail(st, "") == st
  {
    assert Trim("") == "";
  }

  lemma TypeOnly(event: string)
    requires OneLine(event)
    ensures ReadLines(START, Split("event: " + event)).out == []
  {
    hide ReadLine, Split, Trim;
    var line := "event: " + event;
    ReadNothing();
    LineAlone(line);
    assert [line][..0] == [];
    EventLine(START, event);
  }
}
