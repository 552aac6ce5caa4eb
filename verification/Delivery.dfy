/** From the agent's run to the browser: what the client reads is what the run said. */
module Delivery {
  import opened LlmTypes
  import opened Options
  import opened StreamAssembly
  import opened AgentLoops
  import Sse

  /** The text a client shows: the "content" events, concatenated. */
  function Shown(writes: seq<Write>): string {
    if writes == [] then ""
    else
      var last := writes[|writes| - 1];
      Shown(writes[..|writes| - 1]) + if last.WroteContent? then last.text else ""
  }

  lemma {:induction false} ShownConcat(a: seq<Write>, b: seq<Write>)
    ensures Shown(a + b) == Shown(a) + Shown(b)
    decreases |b|
  {
    if b == [] {
      assert a + b == a;
    } else {
      assert (a + b)[..|a + b| - 1] == a + b[..|b| - 1];
      ShownConcat(a, b[..|b| - 1]);
    }
  }

  lemma {:induction false} ShownTexts(texts: seq<string>)
    ensures Shown(ContentWrites(texts)) == Concat(texts)
    decreases |texts|
  {
    if texts != [] {
      assert ContentWrites(texts)[..|texts| - 1] == ContentWrites(texts[..|texts| - 1]);
      ShownTexts(texts[..|texts| - 1]);
    }
  }

  lemma {:induction false} NothingShown(writes: seq<Write>)
    requires forall w | w in writes :: !w.WroteContent?
    ensures Shown(writes) == ""
    decreases |writes|
  {
    if writes != [] {
      NothingShown(writes[..|writes| - 1]);
    }
  }

  lemma RoundShown(agent: Agent, p: Provider, start: seq<Message>, k: nat)
    requires p.Streaming? && ReplyAt(agent, p, start, k).Turn?
    ensures Shown(RoundWrites(agent, p, start, k)) == ReplyAt(agent, p, start, k).message.content
  {
    hide Sent, TextsIn, PlacedCalls, LastUsage, ToolMessages;
    var reply := ReplyAt(agent, p, start, k);
    var texts := TextsIn(EventsOf(p.stream(k, Sent(agent, p, start, k)).opening));
    var tail := if reply.wantsTools
                then [WroteToolCalls(reply.message.toolCalls)]
                    + ResultWrites(ToolMessages(agent, reply.message.toolCalls))
                else [];
    ShownConcat(ContentWrites(texts), tail);
    ShownTexts(texts);
    NothingShown(tail);
  }

  /** After k rounds that were all answered, the client has been shown exactly the text of those rounds. */
  lemma {:induction false} ShownIsSaid(agent: Agent, p: Provider, start: seq<Message>, k: nat)
    requires p.Streaming? && forall j | 0 <= j < k :: ReplyAt(agent, p, start, j).Turn?
    ensures Shown(WritesAfter(agent, p, start, k)) == ContentAfter(agent, p, start, k)
  {
    hide ReplyAt, RoundWrites;
    if k > 0 {
      ShownIsSaid(agent, p, start, k - 1);
      RoundShown(agent, p, start, k - 1);
      ShownConcat(WritesAfter(agent, p, start, k - 1), RoundWrites(agent, p, start, k - 1));
    }
  }

  /** Every finished run has shown the client the text of all its rounds, the last of which is the result's content. */
  lemma FinishedIsShown(agent: Agent, p: Provider, start: seq<Message>, r: RunResult, written: seq<Write>)
    requires p.Streaming? && EndsWith(agent, p, start, Finished(r)) && written == WritesAfter(agent, p, start, r.steps)
    ensures Shown(written) == ContentAfter(agent, p, start, r.steps - 1) + r.content
  {
    hide ReplyAt, WritesAfter, AddUsage;
    assert forall j | 0 <= j < r.steps - 1 :: GoesOn(agent, ReplyAt(agent, p, start, j), j + 1);
    ShownIsSaid(agent, p, start, r.steps);
  }

  lemma ShownGrows(a: seq<Write>, b: seq<Write>)
    requires a <= b
    ensures Shown(a) <= Shown(b)
  {
    ShownConcat(a, b[|a|..]);
    assert a + b[|a|..] == b;
  }

  /**
   * A run cut short in round k + 1 has shown all the text of the rounds before it, and of that round only a
   * beginning.
   */
  lemma CutShortShowsPrefix(agent: Agent, p: Provider, start: seq<Message>, k: nat, written: seq<Write>)
    requires p.Streaming? && (forall j | 0 <= j < k :: ReplyAt(agent, p, start, j).Turn?)
    requires WritesWithin(agent, p, start, k, written)
    ensures ContentAfter(agent, p, start, k) <= Shown(written) <= Shown(WritesAfter(agent, p, start, k + 1))
  {
    hide ReplyAt, WritesAfter, ContentAfter, Shown;
    ShownIsSaid(agent, p, start, k);
    ShownGrows(WritesAfter(agent, p, start, k), written);
    ShownGrows(written, WritesAfter(agent, p, start, k + 1));
  }

  // ---------- What the client is told of tools ----------

  /** The writes about tools, in order. */
  function ToolWrites(writes: seq<Write>): seq<Write> {
    if writes == [] then []
    else
      var last := writes[|writes| - 1];
      ToolWrites(writes[..|writes| - 1]) + if last.WroteContent? then [] else [last]
  }

  /** What a transcript says about tools: the calls of each message, and each tool's result. */
  function ToolsIn(messages: seq<Message>): seq<Write> {
    if messages == [] then []
    else
      var last := messages[|messages| - 1];
      ToolsIn(messages[..|messages| - 1])
      + if last.role == RoleTool then [WroteToolResult(last.toolCallId, last.content)]
        else if last.toolCalls != [] then [WroteToolCalls(last.toolCalls)]
        else []
  }

  lemma {:induction false} ToolWritesConcat(a: seq<Write>, b: seq<Write>)
    ensures ToolWrites(a + b) == ToolWrites(a) + ToolWrites(b)
    decreases |b|
  {
    if b == [] {
      assert a + b == a;
    } else {
      assert (a + b)[..|a + b| - 1] == a + b[..|b| - 1];
      ToolWritesConcat(a, b[..|b| - 1]);
    }
  }

  lemma {:induction false} ToolsInConcat(a: seq<Message>, b: seq<Message>)
    ensures ToolsIn(a + b) == ToolsIn(a) + ToolsIn(b)
    decreases |b|
  {
    if b == [] {
      assert a + b == a;
    } else {
      assert (a + b)[..|a + b| - 1] == a + b[..|b| - 1];
      ToolsInConcat(a, b[..|b| - 1]);
    }
  }

  lemma {:induction false} ContentIsNoTool(texts: seq<string>)
    ensures ToolWrites(ContentWrites(texts)) == []
    decreases |texts|
  {
    if texts != [] {
      assert ContentWrites(texts)[..|texts| - 1] == ContentWrites(texts[..|texts| - 1]);
      ContentIsNoTool(texts[..|texts| - 1]);
    }
  }

  lemma {:induction false} ResultsAreTools(results: seq<Message>)
    requires forall m | m in results :: m.role == RoleTool
    ensures ToolWrites(ResultWrites(results)) == ToolsIn(results)
    decreases |results|
  {
    if results != [] {
      var n := |results| - 1;
      assert ResultWrites(results)[..n] == ResultWrites(results[..n]);
      ResultsAreTools(results[..n]);
      assert results[n] in results;
    }
  }

  lemma OneTool(w: Write, m: Message)
    ensures ToolWrites([w]) == if w.WroteContent? then [] else [w]
    ensures ToolsIn([m]) ==
            if m.role == RoleTool then [WroteToolResult(m.toolCallId, m.content)]
            else if m.toolCalls != [] then [WroteToolCalls(m.toolCalls)]
            else []
  {
    assert [w][..0] == [] && [m][..0] == [];
  }

  /** One round's writes about tools are what it adds to the transcript about tools. */
  lemma RoundTools(agent: Agent, p: Provider, start: seq<Message>, k: nat)
    requires p.Streaming? && ReplyAt(agent, p, start, k).Turn?
    ensures var reply := ReplyAt(agent, p, start, k);
            ToolWrites(RoundWrites(agent, p, start, k)) == ToolsIn([reply.message] + FollowUp(agent, reply))
  {
    hide Sent, TextsIn, PlacedCalls, LastUsage, ToolWrites, ToolsIn, ContentIn, ContentWrites, ResultWrites;
    var reply := ReplyAt(agent, p, start, k);
    var texts := ContentWrites(TextsIn(EventsOf(p.stream(k, Sent(agent, p, start, k)).opening)));
    ContentIsNoTool(TextsIn(EventsOf(p.stream(k, Sent(agent, p, start, k)).opening)));
    ToolsInConcat([reply.message], FollowUp(agent, reply));
    if reply.wantsTools {
      var results := ToolMessages(agent, reply.message.toolCalls);
      ToolWritesConcat(texts, [WroteToolCalls(reply.message.toolCalls)] + ResultWrites(results));
      ToolWritesConcat([WroteToolCalls(reply.message.toolCalls)], ResultWrites(results));
      OneTool(WroteToolCalls(reply.message.toolCalls), reply.message);
      ResultsAreTools(results);
    } else {
      OneTool(WroteContent(""), reply.message);
      OneTool(WroteContent(""), Message(RoleUser, NUDGE, [], ""));
      assert texts + [] == texts;
    }
  }

  lemma FollowsOn(agent: Agent, p: Provider, start: seq<Message>, k: nat)
    requires ReplyAt(agent, p, start, k).Turn?
    ensures var reply := ReplyAt(agent, p, start, k);
            Sent(agent, p, start, k + 1) == Sent(agent, p, start, k) + ([reply.message] + FollowUp(agent, reply))
  {
    hide FollowUp, Provider.Answer;
    var reply := ReplyAt(agent, p, start, k);
    assert Sent(agent, p, start, k) + [reply.message] + FollowUp(agent, reply)
        == Sent(agent, p, start, k) + ([reply.message] + FollowUp(agent, reply));
  }

  /**
   * After k answered rounds the client has been told, in order, exactly the tool calls and tool results that these
   * rounds added to the transcript.
   */
  lemma {:induction false} ToolsToldAreTranscript(agent: Agent, p: Provider, start: seq<Message>, k: nat)
    requires p.Streaming? && forall j | 0 <= j < k :: ReplyAt(agent, p, start, j).Turn?
    ensures ToolsIn(start) + ToolWrites(WritesAfter(agent, p, start, k)) == ToolsIn(Sent(agent, p, start, k))
  {
    hide ReplyAt, RoundWrites, FollowUp, ToolWrites, ToolsIn, Sent;
    if k == 0 {
      NoToolWrites(agent, p, start);
    } else {
      ToolsToldAreTranscript(agent, p, start, k - 1);
      RoundTools(agent, p, start, k - 1);
      FollowsOn(agent, p, start, k - 1);
      var reply := ReplyAt(agent, p, start, k - 1);
      ToolWritesConcat(WritesAfter(agent, p, start, k - 1), RoundWrites(agent, p, start, k - 1));
      ToolsInConcat(Sent(agent, p, start, k - 1), [reply.message] + FollowUp(agent, reply));
    }
  }

  lemma NoToolWrites(agent: Agent, p: Provider, start: seq<Message>)
    requires p.Streaming?
    ensures ToolsIn(start) + ToolWrites(WritesAfter(agent, p, start, 0)) == ToolsIn(Sent(agent, p, start, 0))
  {
    assert ToolsIn(start) + [] == ToolsIn(start);
  }

  // ---------- Over the wire ----------

  function EncodeAll(encode: Write -> Sse.Frame, writes: seq<Write>): (frames: seq<Sse.Frame>)
    ensures |frames| == |writes|
  {
    seq(|writes|, i requires 0 <= i < |writes| => encode(writes[i]))
  }

  function DecodeAll(decode: Sse.Frame -> Write, frames: seq<Sse.Frame>): (writes: seq<Write>)
    ensures |writes| == |frames|
  {
    seq(|frames|, i requires 0 <= i < |frames| => decode(frames[i]))
  }

  /** The payload encoding of some writes: one clean line for each field, and it can be read back. */
  ghost predicate Encodes(encode: Write -> Sse.Frame, decode: Sse.Frame -> Write, writes: seq<Write>) {
    forall i | 0 <= i < |writes| ::
      var f := encode(writes[i]);
      Sse.OneLine(f.event) && Sse.OneLine(f.data) && Sse.Clean(f) && decode(f) == writes[i]
  }

  /** However the network cuts the event stream of some writes, the browser's reader recovers them. */
  lemma WritesRecovered(written: seq<Write>, encode: Write -> Sse.Frame, decode: Sse.Frame -> Write,
                        chunks: seq<string>)
    requires Encodes(encode, decode, written) && Concat(chunks) == Sse.Print(EncodeAll(encode, written))
    ensures DecodeAll(decode, Sse.Parse(Concat(chunks))) == written
  {
    hide Concat, Sse.Parse, Sse.Print, Sse.OneLine, Sse.Clean;
    var frames := EncodeAll(encode, written);
    forall i | 0 <= i < |frames|
      ensures Sse.OneLine(frames[i].event) && Sse.OneLine(frames[i].data) && Sse.Clean(frames[i])
    {
      assert frames[i] == encode(written[i]);
    }
    Sse.RoundTripExact(frames);
    assert DecodeAll(decode, frames) == written;
  }

  /** The browser's side: read the chunks, decode the events. */
  method Receive(ghost written: seq<Write>, ghost encode: Write -> Sse.Frame, decode: Sse.Frame -> Write,
                 chunks: seq<string>)
    returns (received: seq<Write>)
    requires Encodes(encode, decode, written) && Concat(chunks) == Sse.Print(EncodeAll(encode, written))
    ensures received == written
  {
    hide Concat, Sse.Parse, Sse.Print, Encodes;
    var frames := Sse.ReadSseStream(chunks, None);
    WritesRecovered(written, encode, decode, chunks);
    received := DecodeAll(decode, frames);
  }

  /** End to end: the browser shows a finished run's text, the text of all its rounds. */
  lemma ClientShowsTheRun(agent: Agent, p: Provider, start: seq<Message>, r: RunResult, written: seq<Write>,
                          encode: Write -> Sse.Frame, decode: Sse.Frame -> Write, chunks: seq<string>)
    requires p.Streaming? && EndsWith(agent, p, start, Finished(r)) && written == WritesAfter(agent, p, start, r.steps)
    requires Encodes(encode, decode, written) && Concat(chunks) == Sse.Print(EncodeAll(encode, written))
    ensures var received := DecodeAll(decode, Sse.Parse(Concat(chunks)));
            received == written && Shown(received) == ContentAfter(agent, p, start, r.steps - 1) + r.content
  {
    hide EndsWith, WritesAfter, ContentAfter, Shown, Concat, Sse.Parse, Sse.Print, Encodes;
    WritesRecovered(written, encode, decode, chunks);
    FinishedIsShown(agent, p, start, r, written);
  }

  /**
   * The same for a run cut short in round k + 1, by a cancellation or an error: the browser shows all the text of the
   * rounds before it, and of that round a beginning.
   */
  lemma ClientShowsTheBeginning(agent: Agent, p: Provider, start: seq<Message>, k: nat, written: seq<Write>,
                                encode: Write -> Sse.Frame, decode: Sse.Frame -> Write, chunks: seq<string>)
    requires p.Streaming? && (forall j | 0 <= j < k :: ReplyAt(agent, p, start, j).Turn?)
    requires WritesWithin(agent, p, start, k, written)
    requires Encodes(encode, decode, written) && Concat(chunks) == Sse.Print(EncodeAll(encode, written))
    ensures var received := DecodeAll(decode, Sse.Parse(Concat(chunks)));
            && received == written
            && ContentAfter(agent, p, start, k) <= Shown(received) <= Shown(WritesAfter(agent, p, start, k + 1))
  {
    hide ReplyAt, WritesAfter, ContentAfter, Shown, Concat, Sse.Parse, Sse.Print, Encodes, WritesWithin;
    WritesRecovered(written, encode, decode, chunks);
    CutShortShowsPrefix(agent, p, start, k, written);
  }
}
