/** Rebuilding an assistant message from streamed deltas (consumeStream). */
module StreamAssembly {
  import opened LlmTypes
  import opened Options

  datatype Delta = Delta(content: string, toolCalls: seq<ToolCall>)

  datatype Chunk = Chunk(usage: Option<Usage>, choices: seq<Delta>)

  datatype StreamEvent = EventChunk(chunk: Chunk) | EventDone | EventError(err: string)

  datatype Consumed =
    | Complete(message: Message, usage: Usage)
    | Interrupted(message: Message, usage: Usage)
    | StreamFailed(usage: Usage, err: string)

  // ---------- What a stream carries ----------

  /** The delta of an event that the consumer looks at: the first choice of a chunk. */
  function DeltaOf(e: StreamEvent): Delta {
    if e.EventChunk? && e.chunk.choices != [] then e.chunk.choices[0] else Delta("", [])
  }

  /** The non-empty text pieces of a stream, in order. */
  function TextsIn(events: seq<StreamEvent>): seq<string> {
    if events == [] then []
    else
      var text := DeltaOf(events[|events| - 1]).content;
      TextsIn(events[..|events| - 1]) + if text == "" then [] else [text]
  }

  function ContentIn(events: seq<StreamEvent>): string {
    Concat(TextsIn(events))
  }

  /** The tool-call fragments of a stream, in order. */
  function FragmentsIn(events: seq<StreamEvent>): seq<ToolCall> {
    if events == [] then []
    else FragmentsIn(events[..|events| - 1]) + DeltaOf(events[|events| - 1]).toolCalls
  }

  function LastUsage(events: seq<StreamEvent>): Usage {
    if events == [] then NO_USAGE
    else
      var e := events[|events| - 1];
      if e.EventChunk? && e.chunk.usage.Some? then e.chunk.usage.value else LastUsage(events[..|events| - 1])
  }

  predicate ErrorFree(events: seq<StreamEvent>) {
    forall i | 0 <= i < |events| :: !events[i].EventError?
  }

  // ---------- Where the consumer puts each fragment ----------

  function OpenCall(calls: seq<ToolCall>, fragment: ToolCall): seq<ToolCall> {
    if fragment.id != "" then calls + [fragment.(arguments := "")] else calls
  }

  function AppendArguments(calls: seq<ToolCall>, at: int, text: string): seq<ToolCall> {
    if 0 <= at < |calls| then calls[at := calls[at].(arguments := calls[at].arguments + text)] else calls
  }

  /** Fragment i of a delta of n fragments, placed by the consumer's index formula. */
  function Place(calls: seq<ToolCall>, fragment: ToolCall, i: nat, n: nat): seq<ToolCall> {
    var begun := OpenCall(calls, fragment);
    AppendArguments(begun, |begun| - 1 + i - n + 1, fragment.arguments)
  }

  /** The first i fragments of a delta, placed in order. */
  function PlaceFirst(calls: seq<ToolCall>, fragments: seq<ToolCall>, i: nat): seq<ToolCall>
    requires i <= |fragments|
  {
    if i == 0 then calls
    else Place(PlaceFirst(calls, fragments, i - 1), fragments[i - 1], i - 1, |fragments|)
  }

  function PlacedCalls(events: seq<StreamEvent>): seq<ToolCall> {
    if events == [] then []
    else
      var fragments := DeltaOf(events[|events| - 1]).toolCalls;
      PlaceFirst(PlacedCalls(events[..|events| - 1]), fragments, |fragments|)
  }

  /** The calls with the argument builders poured in. */
  function Filled(calls: seq<ToolCall>, args: map<int, string>): (filled: seq<ToolCall>)
    ensures |filled| == |calls|
  {
    seq(|calls|, i requires 0 <= i < |calls| =>
      if i in args then calls[i].(arguments := args[i]) else calls[i])
  }

  /** Opened calls whose arguments have not been poured in. */
  function WithoutArguments(calls: seq<ToolCall>): (bare: seq<ToolCall>)
    ensures |bare| == |calls|
  {
    seq(|calls|, i requires 0 <= i < |calls| => calls[i].(arguments := ""))
  }

  lemma FilledBack(calls: seq<ToolCall>, args: map<int, string>)
    requires Builders(calls, args)
    ensures WithoutArguments(Filled(calls, args)) == calls
  {
  }

  ghost predicate Builders(calls: seq<ToolCall>, args: map<int, string>) {
    && (forall i: int :: i in args <==> 0 <= i < |calls|)
    && (forall i | 0 <= i < |calls| :: calls[i].arguments == "")
  }

  /** One fragment of the inner loop: opens a builder for a new id, then writes at the formula's index. */
  method AddFragment(calls: seq<ToolCall>, args: map<int, string>, fragment: ToolCall, i: nat, n: nat)
    returns (calls': seq<ToolCall>, args': map<int, string>)
    requires Builders(calls, args)
    ensures Builders(calls', args')
    ensures Filled(calls', args') == Place(Filled(calls, args), fragment, i, n)
  {
    calls', args' := calls, args;
    if fragment.id != "" {
      calls' := calls' + [ToolCall(fragment.id, fragment.kind, fragment.name, "")];
      args' := args'[|calls'| - 1 := ""];
    }
    assert Filled(calls', args') == OpenCall(Filled(calls, args), fragment);
    var idx := |calls'| - 1 + i - n + 1;
    if 0 <= idx < |calls'| {
      if idx in args' {
        args' := args'[idx := args'[idx] + fragment.arguments];
      }
    }
  }

  method AddDelta(calls: seq<ToolCall>, args: map<int, string>, fragments: seq<ToolCall>)
    returns (calls': seq<ToolCall>, args': map<int, string>)
    requires Builders(calls, args)
    ensures Builders(calls', args')
    ensures Filled(calls', args') == PlaceFirst(Filled(calls, args), fragments, |fragments|)
  {
    calls', args' := calls, args;
    var i := 0;
    while i < |fragments|
      invariant 0 <= i <= |fragments|
      invariant Builders(calls', args')
      invariant Filled(calls', args') == PlaceFirst(Filled(calls, args), fragments, i)
    {
      calls', args' := AddFragment(calls', args', fragments[i], i, |fragments|);
      i := i + 1;
    }
  }

  function Ascending(n: nat): (order: seq<int>)
    ensures forall k | 0 <= k < |order| :: 0 <= order[k] < n
    ensures forall i | 0 <= i < n :: i in order
  {
    if n == 0 then [] else Ascending(n - 1) + [n - 1]
  }

  /** Pours every builder into its call; `order` is the order, left open by the language, in which the map is walked. */
  method PourArguments(calls: seq<ToolCall>, args: map<int, string>, order: seq<int>) returns (filled: seq<ToolCall>)
    requires Builders(calls, args)
    requires (forall k | 0 <= k < |order| :: order[k] in args) && (forall i | 0 <= i < |calls| :: i in order)
    ensures filled == Filled(calls, args)
  {
    filled := calls;
    var k := 0;
    while k < |order|
      invariant 0 <= k <= |order|
      invariant |filled| == |calls|
      invariant forall j | 0 <= j < |calls| :: filled[j] == if j in order[..k] then Filled(calls, args)[j] else calls[j]
    {
      var i := order[k];
      assert order[..k + 1] == order[..k] + [i];
      if i < |filled| {
        filled := filled[i := filled[i].(arguments := args[i])];
      }
      k := k + 1;
    }
    assert order[..k] == order;
  }

  /** What one more event adds to each of the stream's readings. */
  lemma Extend(events: seq<StreamEvent>, k: nat)
    requires k < |events|
    ensures var delta := DeltaOf(events[k]);
            && TextsIn(events[..k + 1]) == TextsIn(events[..k]) + (if delta.content == "" then [] else [delta.content])
            && ContentIn(events[..k + 1]) == ContentIn(events[..k]) + delta.content
            && PlacedCalls(events[..k + 1]) == PlaceFirst(PlacedCalls(events[..k]), delta.toolCalls, |delta.toolCalls|)
    ensures LastUsage(events[..k + 1]) ==
            if events[k].EventChunk? && events[k].chunk.usage.Some?
            then events[k].chunk.usage.value else LastUsage(events[..k])
  {
    assert events[..k + 1][..k] == events[..k];
    var texts, text := TextsIn(events[..k]), DeltaOf(events[k]).content;
    ConcatSnoc(texts, text);
    assert texts + [] == texts && Concat(texts) + "" == Concat(texts);
  }

  /** The consumer's variables after reading `events`. */
  ghost predicate Read(events: seq<StreamEvent>, content: string, written: seq<string>, usage: Usage,
                       calls: seq<ToolCall>, args: map<int, string>)
  {
    && content == ContentIn(events) && written == TextsIn(events) && usage == LastUsage(events)
    && Builders(calls, args) && Filled(calls, args) == PlacedCalls(events)
  }

  method ReadChunk(ghost events: seq<StreamEvent>, ghost k: nat, chunk: Chunk, content: string, written: seq<string>,
                   usage: Usage, calls: seq<ToolCall>, args: map<int, string>)
    returns (content': string, written': seq<string>, usage': Usage, calls': seq<ToolCall>, args': map<int, string>)
    requires k < |events| && events[k] == EventChunk(chunk) && Read(events[..k], content, written, usage, calls, args)
    ensures Read(events[..k + 1], content', written', usage', calls', args')
  {
    Extend(events, k);
    content', written', usage', calls', args' := content, written, usage, calls, args;
    if chunk.usage.Some? {
      usage' := chunk.usage.value;
    }
    if chunk.choices != [] {
      var delta := chunk.choices[0];
      if delta.content != "" {
        content' := content' + delta.content;
        written' := written' + [delta.content];
      }
      calls', args' := AddDelta(calls', args', delta.toolCalls);
    }
  }

  lemma ReadDone(events: seq<StreamEvent>, k: nat, content: string, written: seq<string>, usage: Usage,
                 calls: seq<ToolCall>, args: map<int, string>)
    requires k < |events| && events[k].EventDone? && Read(events[..k], content, written, usage, calls, args)
    ensures Read(events[..k + 1], content, written, usage, calls, args)
  {
    Extend(events, k);
  }

  lemma ReadNothing()
    ensures Read([], "", [], NO_USAGE, [], map[])
  {
  }

  /**
   * The consumer's loop. `cancelAt` is the number of events read before the context is first seen as done;
   * `written` holds the texts sent to the client as "content" events; `read` counts the events taken.
   */
  method ConsumeStream(events: seq<StreamEvent>, cancelAt: Option<nat>)
    returns (result: Consumed, written: seq<string>, read: nat)
    ensures read <= |events| && ErrorFree(events[..read]) && (cancelAt.Some? ==> read <= cancelAt.value)
    ensures written == TextsIn(events[..read]) && result.usage == LastUsage(events[..read])
    ensures result.Complete? ==>
      && read == |events| && cancelAt != Some(read)
      && result.message == Message(RoleAssistant, ContentIn(events), PlacedCalls(events), "")
    ensures result.Interrupted? ==>
      && cancelAt == Some(read)
      && result.message == Message(RoleAssistant, ContentIn(events[..read]),
                                   WithoutArguments(PlacedCalls(events[..read])), "")
    ensures result.StreamFailed? ==> cancelAt != Some(read) && read < |events| && events[read] == EventError(result.err)
  {
    hide TextsIn, LastUsage, PlacedCalls, Filled, PlaceFirst, Place;
    ReadNothing();
    var content := "";
    var toolCalls: seq<ToolCall> := [];
    var usage := NO_USAGE;
    var toolCallArgs: map<int, string> := map[];
    written := [];
    var k := 0;
    while true
      invariant 0 <= k <= |events|
      invariant ErrorFree(events[..k])
      invariant cancelAt.Some? ==> k <= cancelAt.value
      invariant Read(events[..k], content, written, usage, toolCalls, toolCallArgs)
      decreases |events| - k
    {
      read := k;
      if cancelAt == Some(k) {
        FilledBack(toolCalls, toolCallArgs);
        return Interrupted(Message(RoleAssistant, content, toolCalls, ""), usage), written, k;
      }
      if k == |events| {
        break;
      }
      match events[k] {
        case EventChunk(chunk) =>
          content, written, usage, toolCalls, toolCallArgs :=
            ReadChunk(events, k, chunk, content, written, usage, toolCalls, toolCallArgs);
        case EventError(err) =>
          return StreamFailed(usage, err), written, k;
        case EventDone =>
          ReadDone(events, k, content, written, usage, toolCalls, toolCallArgs);
      }
      k := k + 1;
    }
    assert events[..k] == events;
    toolCalls := PourArguments(toolCalls, toolCallArgs, Ascending(|toolCalls|));
    result := Complete(Message(RoleAssistant, content, toolCalls, ""), usage);
  }

  // ---------- Splitting a message, from the sender's side ----------

  function ArgumentsOf(fragments: seq<ToolCall>): seq<string> {
    seq(|fragments|, i requires 0 <= i < |fragments| => fragments[i].arguments)
  }

  /** `fragments` carry one call: the first has the id, kind and name; the rest only more arguments. */
  predicate SplitsOne(fragments: seq<ToolCall>, call: ToolCall) {
    && fragments != [] && call.id != ""
    && fragments[0].(arguments := "") == call.(arguments := "")
    && (forall i | 1 <= i < |fragments| :: fragments[i].id == "")
    && Concat(ArgumentsOf(fragments)) == call.arguments
  }

  /** `fragments` carry `calls`, one after the other, each cut up in any way. */
  ghost predicate Splits(fragments: seq<ToolCall>, calls: seq<ToolCall>)
    decreases |calls|, 1
  {
    if calls == [] then fragments == [] else exists n :: LastStartsAt(fragments, calls, n)
  }

  ghost predicate LastStartsAt(fragments: seq<ToolCall>, calls: seq<ToolCall>, n: int)
    requires calls != []
    decreases |calls|, 0
  {
    && 0 <= n < |fragments|
    && Splits(fragments[..n], calls[..|calls| - 1])
    && SplitsOne(fragments[n..], calls[|calls| - 1])
  }

  /** In every delta, only the last fragment carries argument text. */
  predicate TailOnly(events: seq<StreamEvent>) {
    forall k | 0 <= k < |events| :: TailOnlyDelta(DeltaOf(events[k]).toolCalls)
  }

  predicate TailOnlyDelta(fragments: seq<ToolCall>) {
    forall i | 0 <= i < |fragments| - 1 :: fragments[i].arguments == ""
  }

  // ---------- The intended assembly: every fragment goes to the call opened last ----------

  function Attach(calls: seq<ToolCall>, fragment: ToolCall): seq<ToolCall> {
    var begun := OpenCall(calls, fragment);
    AppendArguments(begun, |begun| - 1, fragment.arguments)
  }

  /** The first i fragments, each attached in order. */
  function AttachFirst(calls: seq<ToolCall>, fragments: seq<ToolCall>, i: nat): seq<ToolCall>
    requires i <= |fragments|
  {
    if i == 0 then calls else Attach(AttachFirst(calls, fragments, i - 1), fragments[i - 1])
  }

  function AttachAll(calls: seq<ToolCall>, fragments: seq<ToolCall>): seq<ToolCall> {
    AttachFirst(calls, fragments, |fragments|)
  }

  lemma {:induction false} AttachPrefix(calls: seq<ToolCall>, f: seq<ToolCall>, g: seq<ToolCall>, i: nat)
    requires i <= |f|
    ensures AttachFirst(calls, f + g, i) == AttachFirst(calls, f, i)
  {
    hide Attach;
    if i > 0 {
      AttachPrefix(calls, f, g, i - 1);
    }
  }

  lemma {:induction false} AttachConcat(calls: seq<ToolCall>, f: seq<ToolCall>, g: seq<ToolCall>, j: nat)
    requires j <= |g|
    ensures AttachFirst(calls, f + g, |f| + j) == AttachFirst(AttachAll(calls, f), g, j)
  {
    hide Attach;
    if j == 0 {
      AttachPrefix(calls, f, g, |f|);
    } else {
      AttachConcat(calls, f, g, j - 1);
    }
  }

  lemma {:induction false} AttachOne(calls: seq<ToolCall>, fragments: seq<ToolCall>, call: ToolCall, i: nat)
    requires SplitsOne(fragments, call) && 1 <= i <= |fragments|
    ensures AttachFirst(calls, fragments, i) == calls + [call.(arguments := Concat(ArgumentsOf(fragments)[..i]))]
  {
    var pieces := ArgumentsOf(fragments);
    assert pieces[..i] == pieces[..i - 1] + [fragments[i - 1].arguments];
    ConcatSnoc(pieces[..i - 1], fragments[i - 1].arguments);
    if i == 1 {
      assert "" + fragments[0].arguments == fragments[0].arguments;
      assert Concat(pieces[..0]) == "";
    } else {
      AttachOne(calls, fragments, call, i - 1);
    }
  }

  lemma AttachWhole(calls: seq<ToolCall>, fragments: seq<ToolCall>, call: ToolCall)
    requires SplitsOne(fragments, call)
    ensures AttachAll(calls, fragments) == calls + [call]
  {
    AttachOne(calls, fragments, call, |fragments|);
    assert ArgumentsOf(fragments)[..|fragments|] == ArgumentsOf(fragments);
  }

  lemma {:induction false} AttachSplit(fragments: seq<ToolCall>, calls: seq<ToolCall>)
    requires Splits(fragments, calls)
    ensures AttachAll([], fragments) == calls
    decreases |calls|
  {
    hide Attach;
    if calls != [] {
      var n :| LastStartsAt(fragments, calls, n);
      var head, last := fragments[..n], fragments[n..];
      AttachSplit(head, calls[..|calls| - 1]);
      AttachWhole(calls[..|calls| - 1], last, calls[|calls| - 1]);
      AttachConcat([], head, last, |last|);
      assert head + last == fragments;
    }
  }

  // ---------- Misplaced text always moves to an earlier call ----------

  /** Each argument character counts with the (one-based) position of its call. */
  function Weight(calls: seq<ToolCall>): nat {
    if calls == [] then 0 else Weight(calls[..|calls| - 1]) + |calls| * |calls[|calls| - 1].arguments|
  }

  lemma {:induction false} WeightOfAppend(calls: seq<ToolCall>, at: nat, text: string)
    requires at < |calls|
    ensures Weight(AppendArguments(calls, at, text)) == Weight(calls) + (at + 1) * |text|
    decreases |calls|
  {
    var n := |calls| - 1;
    var after := AppendArguments(calls, at, text);
    if at == n {
      assert after[..n] == calls[..n];
      assert |calls| * (|calls[n].arguments| + |text|) == |calls| * |calls[n].arguments| + |calls| * |text|;
    } else {
      assert after[..n] == AppendArguments(calls[..n], at, text);
      WeightOfAppend(calls[..n], at, text);
    }
  }

  lemma AppendNothing(calls: seq<ToolCall>, at: int)
    ensures AppendArguments(calls, at, "") == calls
  {
    if 0 <= at < |calls| {
      assert calls[at].arguments + "" == calls[at].arguments;
    }
  }

  lemma WeightOfOpen(calls: seq<ToolCall>, fragment: ToolCall)
    ensures Weight(OpenCall(calls, fragment)) == Weight(calls)
  {
    if fragment.id != "" {
      assert OpenCall(calls, fragment)[..|calls|] == calls;
    }
  }

  /** How the placed calls stand to the intended ones: equal while clean, strictly lighter afterwards. */
  predicate Lags(placed: seq<ToolCall>, intended: seq<ToolCall>, clean: bool) {
    && |placed| == |intended|
    && (clean ==> placed == intended)
    && (!clean ==> Weight(placed) < Weight(intended))
  }

  lemma {:induction false} LessTimes(a: nat, b: nat, c: nat)
    requires a < b && c > 0
    ensures a * c < b * c
  {
    assert b * c == (b - 1) * c + c;
    if a < b - 1 {
      LessTimes(a, b - 1, c);
    }
  }

  lemma LagsStep(placed: seq<ToolCall>, intended: seq<ToolCall>, clean: bool, fragment: ToolCall, i: nat, n: nat)
    requires Lags(placed, intended, clean) && i < n
    requires intended != [] || fragment.id != ""
    ensures Lags(Place(placed, fragment, i, n), Attach(intended, fragment),
                 clean && (i == n - 1 || fragment.arguments == ""))
    ensures Attach(intended, fragment) != []
  {
    var p, q := OpenCall(placed, fragment), OpenCall(intended, fragment);
    WeightOfOpen(placed, fragment);
    WeightOfOpen(intended, fragment);
    LagsWrite(p, q, clean, fragment.arguments, |p| + i - n);
  }

  lemma LagsWrite(p: seq<ToolCall>, q: seq<ToolCall>, clean: bool, text: string, at: int)
    requires Lags(p, q, clean) && q != [] && at < |q|
    ensures Lags(AppendArguments(p, at, text), AppendArguments(q, |q| - 1, text),
                 clean && (at == |q| - 1 || text == ""))
  {
    if text == "" {
      AppendNothing(q, |q| - 1);
      AppendNothing(p, at);
    } else {
      WeightOfAppend(q, |q| - 1, text);
      if 0 <= at {
        WeightOfAppend(p, at, text);
      }
      if at < |q| - 1 {
        LessTimes(if at < 0 then 0 else at + 1, |q|, |text|);
      }
    }
  }

  /** No argument text among the first i fragments, except in the delta's last. */
  predicate CleanFirst(fragments: seq<ToolCall>, i: nat)
    requires i <= |fragments|
  {
    i == 0 || (CleanFirst(fragments, i - 1) && (i == |fragments| || fragments[i - 1].arguments == ""))
  }

  lemma {:induction false} LagsDelta(placed: seq<ToolCall>, intended: seq<ToolCall>, clean: bool,
                                     fragments: seq<ToolCall>, i: nat)
    requires i <= |fragments| && Lags(placed, intended, clean)
    requires intended != [] || (fragments != [] ==> fragments[0].id != "")
    ensures Lags(PlaceFirst(placed, fragments, i), AttachFirst(intended, fragments, i),
                 clean && CleanFirst(fragments, i))
    ensures i > 0 || intended != [] ==> AttachFirst(intended, fragments, i) != []
  {
    hide Place, Attach, Lags;
    if i > 0 {
      LagsDelta(placed, intended, clean, fragments, i - 1);
      LagsStep(PlaceFirst(placed, fragments, i - 1), AttachFirst(intended, fragments, i - 1),
               clean && CleanFirst(fragments, i - 1), fragments[i - 1], i - 1, |fragments|);
    }
  }

  predicate CleanDeltas(events: seq<StreamEvent>) {
    events == []
    || (var fragments := DeltaOf(events[|events| - 1]).toolCalls;
        CleanDeltas(events[..|events| - 1]) && CleanFirst(fragments, |fragments|))
  }

  lemma {:induction false} LagsStream(events: seq<StreamEvent>)
    requires FragmentsIn(events) != [] ==> FragmentsIn(events)[0].id != ""
    ensures Lags(PlacedCalls(events), AttachAll([], FragmentsIn(events)), CleanDeltas(events))
    ensures FragmentsIn(events) != [] ==> AttachAll([], FragmentsIn(events)) != []
    decreases |events|
  {
    hide PlaceFirst, Attach, Weight;
    if events != [] {
      var front, fragments := events[..|events| - 1], DeltaOf(events[|events| - 1]).toolCalls;
      LagsStream(front);
      LagsDelta(PlacedCalls(front), AttachAll([], FragmentsIn(front)), CleanDeltas(front), fragments, |fragments|);
      AttachConcat([], FragmentsIn(front), fragments, |fragments|);
    }
  }

  lemma {:induction false} CleanFirstMeans(fragments: seq<ToolCall>, i: nat)
    requires i <= |fragments|
    ensures CleanFirst(fragments, i) <==> forall j | 0 <= j < i :: j == |fragments| - 1 || fragments[j].arguments == ""
  {
    if i > 0 {
      CleanFirstMeans(fragments, i - 1);
    }
  }

  lemma {:induction false} CleanDeltasMeans(events: seq<StreamEvent>)
    ensures CleanDeltas(events) <==> TailOnly(events)
    decreases |events|
  {
    if events != [] {
      var n := |events| - 1;
      CleanDeltasMeans(events[..n]);
      var fragments := DeltaOf(events[n]).toolCalls;
      CleanFirstMeans(fragments, |fragments|);
      assert TailOnly(events) <==> TailOnly(events[..n]) && TailOnlyDelta(fragments);
    }
  }

  lemma FirstFragmentOpens(fragments: seq<ToolCall>, calls: seq<ToolCall>)
    requires Splits(fragments, calls) && fragments != []
    ensures fragments[0].id != ""
    decreases |calls|
  {
    var n :| LastStartsAt(fragments, calls, n);
    if n > 0 {
      FirstFragmentOpens(fragments[..n], calls[..|calls| - 1]);
    }
  }

  /**
   * Reassembly inverts splitting, exactly when the index formula allows it: for every list of calls, however the
   * calls are cut into fragments and the fragments grouped into deltas and interleaved with text and usage, the
   * consumer recovers the calls if and only if no delta carries argument text before its last fragment.
   */
  lemma ReassemblyExact(events: seq<StreamEvent>, calls: seq<ToolCall>)
    requires Splits(FragmentsIn(events), calls)
    ensures PlacedCalls(events) == calls <==> TailOnly(events)
  {
    if FragmentsIn(events) != [] {
      FirstFragmentOpens(FragmentsIn(events), calls);
    }
    LagsStream(events);
    CleanDeltasMeans(events);
    AttachSplit(FragmentsIn(events), calls);
  }

  /** With at most one fragment per delta, as providers send them, reassembly always succeeds. */
  lemma OneCallDeltasReassemble(events: seq<StreamEvent>, calls: seq<ToolCall>)
    requires Splits(FragmentsIn(events), calls)
    requires forall k | 0 <= k < |events| :: |DeltaOf(events[k]).toolCalls| <= 1
    ensures PlacedCalls(events) == calls
  {
    ReassemblyExact(events, calls);
  }

  /** Two whole calls in one delta: the first call loses its arguments. */
  lemma TwoCallDeltaLosesArguments(a: ToolCall, b: ToolCall)
    requires a.id != "" && b.id != ""
    ensures var events := [EventChunk(Chunk(None, [Delta("", [a, b])]))];
            PlacedCalls(events) == [a.(arguments := ""), b]
  {
    var events := [EventChunk(Chunk(None, [Delta("", [a, b])]))];
    assert PlacedCalls(events[..0]) == [] && DeltaOf(events[0]).toolCalls == [a, b];
    assert Place([], a, 0, 2) == [a.(arguments := "")];
    assert "" + b.arguments == b.arguments;
    assert Place([a.(arguments := "")], b, 1, 2) == [a.(arguments := ""), b];
    assert PlaceFirst([], [a, b], 1) == [a.(arguments := "")];
  }
}
