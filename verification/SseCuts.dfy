/** What the reader yields of an event stream that stops early, as after an abort (readSseStream). */
module SseCuts {
  import opened LlmTypes
  import opened Options
  import opened Sse

  /** Reading a whole text from a state between events. */
  function ReadAll(st: State, text: string): State {
    var lines := Split(text);
    ReadTail(ReadLines(st, lines[..|lines| - 1]), lines[|lines| - 1])
  }

  lemma ReadAllFrame(st: State, f: Frame, rest: string)
    requires st.current == "" && OneLine(f.event) && OneLine(f.data)
    ensures ReadAll(st, WriteSse(f) + rest) == ReadAll(State("", st.out + Received(f)), rest)
  {
    hide Split, ReadLine, Received, WriteSse;
    var head, tail := ["event: " + f.event, "data: " + f.data, ""], Split(rest);
    FrameLines(f, rest);
    ReadFrame(st, f);
    assert (head + tail)[..|head + tail| - 1] == head + tail[..|tail| - 1];
    ReadLinesConcat(st, head, tail[..|tail| - 1]);
  }

  ghost predicate AllClean(frames: seq<Frame>) {
    AllOneLine(frames) && forall i | 0 <= i < |frames| :: Clean(frames[i])
  }

  /** Whole events in front are read, whatever follows. */
  lemma {:induction false} ReadAfterFrames(st: State, frames: seq<Frame>, rest: string)
    requires st.current == "" && AllClean(frames)
    ensures ReadAll(st, Print(frames) + rest) == ReadAll(State("", st.out + frames), rest)
    decreases |frames|
  {
    hide ReadAll, WriteSse, Clean, Received;
    if frames == [] {
      assert st.out + [] == st.out && Print(frames) + rest == rest;
    } else {
      var f, more := frames[0], frames[1..];
      assert Print(frames) + rest == WriteSse(f) + (Print(more) + rest);
      ReadAllFrame(st, f, Print(more) + rest);
      ReceivedIfClean(f);
      ReadAfterFrames(State("", st.out + [f]), more, rest);
      assert st.out + [f] + more == st.out + frames;
    }
  }

  // ---------- Stopping inside one event ----------

  function Head(event: string): string {
    "event: " + event + "\n" + "data: "
  }

  /** What is yielded of an event that stops early: the data read so far, unless it is blank. */
  function Stub(f: Frame, part: string): seq<Frame> {
    if |part| <= |Head(f.event)| then []
    else
      var data := TrimRight(part[|Head(f.event)|..]);
      if data == "" then [] else [Frame(f.event, data)]
  }

  lemma {:induction false} TrimRightFirst(s: string)
    requires s != "" && !IsSpace(s[0])
    ensures TrimRight(s) != "" && TrimRight(s)[0] == s[0]
    decreases |s|
  {
    if IsSpace(s[|s| - 1]) {
      TrimRightFirst(s[..|s| - 1]);
    }
  }

  lemma {:induction false} TrimRightShortens(s: string)
    ensures |TrimRight(s)| <= |s|
    decreases |s|
  {
    if s != "" && IsSpace(s[|s| - 1]) {
      TrimRightShortens(s[..|s| - 1]);
    }
  }

  /** A rest that is no whole "data: " line yields nothing. */
  lemma ShortTail(st: State, tail: string)
    requires tail == "" || !IsSpace(tail[0])
    requires !("data: " <= TrimRight(tail))
    ensures ReadTail(st, tail) == st
  {
    if tail != "" {
      TrimRightFirst(tail);
    }
  }

  lemma StopsInEvent(st: State, event: string, part: string)
    requires OneLine(event) && part <= "event: " + event
    ensures ReadAll(st, part) == st
  {
    hide ReadTail, TrimRight, Split;
    assert forall i | 0 <= i < |part| :: part[i] == ("event: " + event)[i];
    LineAlone(part);
    if part != "" {
      TrimRightFirst(part);
      assert TrimRight(part)[0] == 'e';
    } else {
      NothingTrimmed();
    }
    ShortTail(st, part);
  }

  lemma NothingTrimmed()
    ensures TrimRight("") == ""
  {
  }

  lemma StopsInMarker(st: State, tail: string)
    requires tail <= "data: "
    ensures ReadTail(st, tail) == st
  {
    TrimRightShortens(tail);
    TrimFields();
    if |tail| == 6 {
      assert tail == "data: ";
    }
    ShortTail(st, tail);
  }

  lemma StopsInData(st: State, data: string)
    ensures ReadTail(st, "data: " + data) ==
            if TrimRight(data) == "" then st
            else st.(out := st.out + [Frame(if st.current == "" then "message" else st.current, TrimRight(data))])
  {
    TrimFields();
    TrimRightOfConcat("data: ", data);
    if TrimRight(data) != "" {
      assert ("data: " + TrimRight(data))[6..] == TrimRight(data);
    }
  }

  /** The rest after the event line, not yet at the blank line that ends the event. */
  lemma StopsAfterEvent(st: State, f: Frame, rest: string)
    requires OneLine(f.data) && Clean(f) && st.current == f.event && rest <= "data: " + f.data + "\n"
    ensures ReadAll(st, rest).out ==
            st.out + if |rest| <= 6 || TrimRight(rest[6..]) == "" then [] else [Frame(f.event, TrimRight(rest[6..]))]
  {
    hide Split, ReadLine, ReadTail, Trim, TrimRight;
    var line := "data: " + f.data;
    assert st.out + [] == st.out;
    if |rest| <= |line| {
      assert forall i | 0 <= i < |rest| :: rest[i] == (line + "\n")[i] == line[i];
      LineAlone(rest);
      if |rest| <= 6 {
        assert rest == "data: "[..|rest|];
        StopsInMarker(st, rest);
      } else {
        assert rest == "data: " + rest[6..];
        StopsInData(st, rest[6..]);
      }
    } else {
      assert rest == line + "\n" + "";
      SplitLine(line, "");
      LineAlone("");
      DataLine(st, f.data);
      assert rest[6..] == f.data + "\n";
      TrimBreak(f.data);
      assert [line] + [""] == [line, ""] && [line, ""][..1] == [line];
      ReadOne(st, line);
      BlankTail(ReadLine(st, line));
    }
  }

  lemma TrimBreak(s: string)
    ensures TrimRight(s + "\n") == TrimRight(s)
  {
    assert (s + "\n")[..|s|] == s;
  }

  lemma ReadOne(st: State, line: string)
    ensures ReadLines(st, [line]) == ReadLine(st, line)
  {
    assert [line][..0] == [];
  }

  lemma BlankTail(st: State)
    ensures ReadTail(st, "") == st
  {
  }

  lemma StopsInside(st: State, f: Frame, part: string)
    requires st.current == "" && OneLine(f.event) && OneLine(f.data) && Clean(f) && part <= WriteSse(f)
        && part != WriteSse(f)
    ensures ReadAll(st, part).out == st.out + Stub(f, part)
  {
    hide ReadAll, TrimRight, Trim, OneLine, Clean;
    var line := "event: " + f.event;
    if |part| <= |line| {
      assert part <= line by { assert WriteSse(f)[..|line|] == line && part == WriteSse(f)[..|part|]; }
      StopsInEvent(st, f.event, part);
    } else {
      var rest := part[|line| + 1..];
      assert part == line + "\n" + rest by {
        assert part == WriteSse(f)[..|part|] && WriteSse(f)[..|line| + 1] == line + "\n";
      }
      RestOf(f, part, rest);
      ReadEventLine(st, f, rest);
      StopsAfterEvent(State(f.event, st.out), f, rest);
      assert |Head(f.event)| == |line| + 7;
      assert |rest| > 6 ==> rest[6..] == part[|Head(f.event)|..];
    }
  }

  lemma RestOf(f: Frame, part: string, rest: string)
    requires part <= WriteSse(f) && part != WriteSse(f) && part == "event: " + f.event + "\n" + rest
    ensures rest <= "data: " + f.data + "\n"
  {
    var line, more := "event: " + f.event + "\n", "data: " + f.data + "\n";
    assert WriteSse(f) == line + more + "\n";
    assert forall i | 0 <= i < |rest| :: rest[i] == part[|line| + i] == WriteSse(f)[|line| + i];
    assert forall i | 0 <= i < |more| :: more[i] == WriteSse(f)[|line| + i];
  }

  lemma ReadEventLine(st: State, f: Frame, rest: string)
    requires st.current == "" && OneLine(f.event) && Clean(f)
    ensures ReadAll(st, "event: " + f.event + "\n" + rest) == ReadAll(State(f.event, st.out), rest)
  {
    hide Split, ReadLine, ReadTail, Trim;
    var line, lines := "event: " + f.event, Split(rest);
    SplitLine(line, rest);
    assert ([line] + lines)[..|lines|] == [line] + lines[..|lines| - 1];
    ReadLinesConcat(st, [line], lines[..|lines| - 1]);
    ReadOne(st, line);
    EventLine(st, f.event);
  }

  // ---------- Stopping anywhere ----------

  /** The text stops inside the data of some event, after something that is not blank. */
  ghost predicate CutsData(frames: seq<Frame>, part: string) {
    exists i, m ::
      && 0 <= i < |frames| && 0 <= m < |frames[i].data|
      && TrimRight(frames[i].data[..m]) != ""
      && part == Print(frames[..i]) + (Head(frames[i].event) + frames[i].data[..m])
  }

  /** Where a text stops: after n whole events, inside the next. */
  lemma {:induction false} StopsAt(frames: seq<Frame>, part: string) returns (n: nat, tail: string)
    requires part <= Print(frames)
    ensures n <= |frames| && part == Print(frames[..n]) + tail
    ensures if n == |frames| then tail == "" else tail <= WriteSse(frames[n]) && tail != WriteSse(frames[n])
    decreases |frames|
  {
    hide WriteSse;
    if frames == [] {
      n, tail := 0, "";
    } else {
      var first, rest := WriteSse(frames[0]), Print(frames[1..]);
      if |part| < |first| {
        n, tail := 0, part;
        assert part == (first + rest)[..|part|] == first[..|part|];
        assert Print(frames[..0]) + tail == tail;
      } else {
        var more := part[|first|..];
        assert part[..|first|] == (first + rest)[..|part|][..|first|] == first;
        assert more == (first + rest)[..|part|][|first|..] == rest[..|more|];
        n, tail := StopsAt(frames[1..], more);
        assert frames[..n + 1][1..] == frames[1..][..n];
        assert part == first + more;
        assert first + (Print(frames[1..][..n]) + tail) == (first + Print(frames[1..][..n])) + tail;
        n := n + 1;
      }
    }
  }

  lemma ReadAt(frames: seq<Frame>, i: nat, tail: string)
    requires AllClean(frames) && i < |frames| && tail <= WriteSse(frames[i]) && tail != WriteSse(frames[i])
    ensures Parse(Print(frames[..i]) + tail) == frames[..i] + Stub(frames[i], tail)
  {
    hide ReadAll, Print, WriteSse, Stub, Clean;
    ReadAfterFrames(START, frames[..i], tail);
    assert [] + frames[..i] == frames[..i];
    StopsInside(State("", frames[..i]), frames[i], tail);
    ParseIs(Print(frames[..i]) + tail);
  }

  lemma ParseIs(text: string)
    ensures Parse(text) == ReadAll(START, text).out
  {
  }

  lemma CutIsInside(f: Frame, m: nat)
    requires m < |f.data|
    ensures var tail := Head(f.event) + f.data[..m];
            && tail <= WriteSse(f) && tail != WriteSse(f)
            && Stub(f, tail) == if TrimRight(f.data[..m]) == "" then [] else [Frame(f.event, TrimRight(f.data[..m]))]
  {
    var tail := Head(f.event) + f.data[..m];
    assert WriteSse(f) == tail + (f.data[m..] + "\n\n");
    assert tail[|Head(f.event)|..] == f.data[..m];
    if m == 0 {
      NothingTrimmed();
    }
  }

  /** A cut inside the data yields an event that was never written. */
  lemma CutYieldsOther(frames: seq<Frame>, part: string)
    requires AllClean(frames) && CutsData(frames, part)
    ensures !(Parse(part) <= frames)
  {
    hide Parse, Print, WriteSse, Clean, TrimRight, Stub, Head;
    var i, m :| 0 <= i < |frames| && 0 <= m < |frames[i].data| && TrimRight(frames[i].data[..m]) != ""
      && part == Print(frames[..i]) + (Head(frames[i].event) + frames[i].data[..m]);
    CutIsInside(frames[i], m);
    ReadAt(frames, i, Head(frames[i].event) + frames[i].data[..m]);
    TrimRightShortens(frames[i].data[..m]);
    var stub := Frame(frames[i].event, TrimRight(frames[i].data[..m]));
    assert Parse(part) == frames[..i] + [stub] && stub != frames[i];
    assert (frames[..i] + [stub])[i] == stub;
  }

  /** Any other stop inside an event yields nothing of it, or all. */
  lemma OtherStop(f: Frame, tail: string)
    requires Clean(f) && tail <= WriteSse(f) && tail != WriteSse(f)
    requires forall m | 0 <= m < |f.data| && TrimRight(f.data[..m]) != "" :: tail != Head(f.event) + f.data[..m]
    ensures Stub(f, tail) == [] || Stub(f, tail) == [f]
  {
    hide TrimRight, Trim;
    var n := |tail| - |Head(f.event)|;
    if n > 0 {
      assert tail == WriteSse(f)[..|tail|] && WriteSse(f) == Head(f.event) + f.data + "\n\n";
      if n < |f.data| {
        assert tail == Head(f.event) + f.data[..n];
        assert tail[|Head(f.event)|..] == f.data[..n];
      } else if n == |f.data| {
        assert tail[|Head(f.event)|..] == f.data;
      } else {
        assert tail[|Head(f.event)|..] == f.data + "\n";
        TrimBreak(f.data);
      }
    }
  }

  /**
   * Of a stream of clean events that stops early, the reader yields only events that were written, in order,
   * exactly when the text does not stop inside the data of an event after something that is not blank; there it
   * yields a shortened event that nobody wrote.
   */
  lemma StoppedReadExact(frames: seq<Frame>, part: string)
    requires AllClean(frames) && part <= Print(frames)
    ensures Parse(part) <= frames <==> !CutsData(frames, part)
  {
    hide Parse, Print, WriteSse, Clean, TrimRight, Stub, Head;
    if CutsData(frames, part) {
      CutYieldsOther(frames, part);
    } else {
      var n, tail := StopsAt(frames, part);
      if n == |frames| {
        assert frames[..n] == frames && part == Print(frames);
        RoundTripExact(frames);
      } else {
        OtherStop(frames[n], tail);
        ReadAt(frames, n, tail);
        assert frames[..n] + [] == frames[..n] && frames[..n] + [frames[n]] == frames[..n + 1];
      }
    }
  }

  lemma {:induction false} ConcatPrefix(pieces: seq<string>, k: nat)
    requires k <= |pieces|
    ensures Concat(pieces[..k]) <= Concat(pieces)
    decreases |pieces|
  {
    if k == |pieces| {
      assert pieces[..k] == pieces;
    } else {
      assert pieces[..|pieces| - 1][..k] == pieces[..k];
      ConcatPrefix(pieces[..|pieces| - 1], k);
    }
  }

  /** So it is for a reader that is aborted after k chunks, wherever the network has cut the stream. */
  lemma AbortedReadExact(frames: seq<Frame>, chunks: seq<string>, k: nat)
    requires AllClean(frames) && Concat(chunks) == Print(frames) && k <= |chunks|
    ensures Parse(Concat(chunks[..k])) <= frames <==> !CutsData(frames, Concat(chunks[..k]))
  {
    hide Parse, Print, Concat, CutsData, AllClean;
    ConcatPrefix(chunks, k);
    StoppedReadExact(frames, Concat(chunks[..k]));
  }

  /** The reader on what the writer wrote, in any chunks: without an abort it yields exactly the events written. */
  method ReadWritten(frames: seq<Frame>, chunks: seq<string>, abortAt: Option<nat>) returns (out: seq<Frame>)
    requires AllClean(frames) && Concat(chunks) == Print(frames)
    ensures abortAt == None || abortAt.value >= |chunks| ==> out == frames
    ensures abortAt.Some? && abortAt.value < |chunks| ==>
      (out <= frames <==> !CutsData(frames, Concat(chunks[..abortAt.value])))
  {
    hide Parse, Print, Concat, CutsData;
    out := ReadSseStream(chunks, abortAt);
    RoundTripExact(frames);
    if abortAt.Some? && abortAt.value < |chunks| {
      AbortedReadExact(frames, chunks, abortAt.value);
    }
  }

  /** One event, stopped after the first of its two characters. */
  lemma StoppedReadInvents()
    ensures var f := Frame("m", "ab"); var part := "event: m\ndata: a";
            part <= Print([f]) && AllClean([f]) && CutsData([f], part) && !(Parse(part) <= [f])
  {
    var f, part := Frame("m", "ab"), "event: m\ndata: a";
    assert [f][1..] == [] && Print([f]) == WriteSse(f) + "" == WriteSse(f);
    assert WriteSse(f) == part + "b\n\n";
    assert [f][..0] == [] && f.data[..1] == "a" && part == Print([f][..0]) + (Head("m") + "a");
    assert TrimRight("a") == "a" && Trim("m") == "m" && TrimRight("ab") == "ab";
    CutYieldsOther([f], part);
  }
}
