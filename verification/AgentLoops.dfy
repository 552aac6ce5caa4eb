/** The blocking and the streaming tool-calling loop (RunWithOptions, runStreaming). */
module AgentLoops {
  import opened LlmTypes
  import opened Options
  import opened StreamAssembly

  datatype ToolOutcome = ToolOk(text: string) | ToolErr(text: string)

  /**
   * An agent's fixed parts. `tool` runs a tool by name and arguments, `encodeError` prints an error as the JSON
   * handed back to the model, and `unfinished` is the plan heuristic shared by both loops.
   */
  datatype Agent = Agent(
    maxSteps: int,
    systemPrompt: string,
    tool: (string, string) -> ToolOutcome,
    encodeError: string -> string,
    unfinished: string -> bool)

  const NUDGE := "[system] You described your next action but didn't execute it. Proceed now — call the tool."

  /** NewAgent: a zero bound means 25. */
  function NewAgent(config: Agent): (agent: Agent)
    ensures agent.maxSteps != 0 && agent == config.(maxSteps := agent.maxSteps)
    ensures agent.maxSteps == config.maxSteps || (config.maxSteps == 0 && agent.maxSteps == 25)
  {
    if config.maxSteps == 0 then config.(maxSteps := 25) else config
  }

  // ---------- Providers ----------

  datatype Choice = Choice(message: Message, finishReason: string)

  datatype Completion = CompletionFailed(err: string) | Response(choices: seq<Choice>, usage: Usage)

  datatype Opening =
    | OpenFailed(err: string, cancelled: bool)
    | Opened(events: seq<StreamEvent>, cancelAt: Option<nat>, cancelledOnError: bool)

  /** What one round of the streaming loop meets: its stream, and every place where it looks at the context. */
  datatype Round = Round(cancelledAtTop: bool, opening: Opening, cancelledAfterResults: Option<nat>)

  /** A provider answers call number n (from 0) given the messages sent; it may answer anything. */
  datatype Provider =
    | Blocking(complete: (nat, seq<Message>) -> Completion)
    | Streaming(stream: (nat, seq<Message>) -> Round)
  {
    /** The answer as the loop uses it when nothing is cancelled. */
    function Answer(n: nat, sent: seq<Message>): Reply {
      match this
      case Blocking(complete) =>
        (match complete(n, sent)
         case CompletionFailed(err) => Fault(err)
         case Response(choices, usage) =>
           if choices == [] then Fault("no choices")
           else Turn(choices[0].message, usage,
                     choices[0].finishReason == "tool_calls" && choices[0].message.toolCalls != []))
      case Streaming(stream) => StreamReply(stream(n, sent))
    }
  }

  function StreamReply(round: Round): Reply {
    match round.opening
    case OpenFailed(err, _) => Fault(err)
    case Opened(events, _, _) =>
      if !ErrorFree(events) then Fault(FirstError(events))
      else Turn(Message(RoleAssistant, ContentIn(events), PlacedCalls(events), ""), LastUsage(events),
                PlacedCalls(events) != [])
  }

  datatype Reply = Turn(message: Message, usage: Usage, wantsTools: bool) | Fault(err: string)

  function FirstError(events: seq<StreamEvent>): string
    requires !ErrorFree(events)
  {
    var n := |events| - 1;
    if ErrorFree(events[..n]) then events[n].err else FirstError(events[..n])
  }

  lemma {:induction false} FirstErrorIs(events: seq<StreamEvent>, k: nat)
    requires k < |events| && events[k].EventError? && ErrorFree(events[..k])
    ensures !ErrorFree(events) && FirstError(events) == events[k].err
    decreases |events|
  {
    var n := |events| - 1;
    if k < n {
      assert events[..n][..k] == events[..k];
      FirstErrorIs(events[..n], k);
    }
  }

  // ---------- Running the tools ----------

  function Answered(agent: Agent, call: ToolCall): Message {
    match agent.tool(call.name, call.arguments)
    case ToolErr(text) => Message(RoleTool, agent.encodeError(text), [], call.id)
    case ToolOk(text) => Message(RoleTool, text, [], call.id)
  }

  method ExecuteToolCalls(agent: Agent, calls: seq<ToolCall>) returns (messages: seq<Message>)
    ensures messages == ToolMessages(agent, calls)
  {
    messages := [];
    for i := 0 to |calls|
      invariant messages == ToolMessages(agent, calls[..i])
    {
      var result := agent.tool(calls[i].name, calls[i].arguments);
      if result.ToolErr? {
        messages := messages + [Message(RoleTool, agent.encodeError(result.text), [], calls[i].id)];
        continue;
      }
      messages := messages + [Message(RoleTool, result.text, [], calls[i].id)];
    }
    assert calls[..|calls|] == calls;
  }

  function ToolMessages(agent: Agent, calls: seq<ToolCall>): (messages: seq<Message>)
    ensures |messages| == |calls|
    ensures Answers(messages, calls)
  {
    seq(|calls|, i requires 0 <= i < |calls| => Answered(agent, calls[i]))
  }

  /** Tool messages answering `calls`: one each, with the same ids in the same order. */
  predicate Answers(messages: seq<Message>, calls: seq<ToolCall>) {
    && |messages| == |calls|
    && forall i | 0 <= i < |calls| ::
         messages[i].role == RoleTool && messages[i].toolCallId == calls[i].id && messages[i].toolCalls == []
  }

  method BuildMessages(agent: Agent, input: string, history: seq<Message>) returns (messages: seq<Message>)
    ensures messages == FirstMessages(agent, input, history)
    ensures OpensRight(agent, input, history, messages)
    ensures |messages| == |history| + if agent.systemPrompt == "" then 1 else 2
  {
    messages := [];
    if agent.systemPrompt != "" {
      messages := messages + [Message(RoleSystem, agent.systemPrompt, [], "")];
    }
    messages := messages + history;
    messages := messages + [Message(RoleUser, input, [], "")];
  }

  function FirstMessages(agent: Agent, input: string, history: seq<Message>): seq<Message> {
    (if agent.systemPrompt != "" then [Message(RoleSystem, agent.systemPrompt, [], "")] else [])
    + history + [Message(RoleUser, input, [], "")]
  }

  /** The list opens with the system prompt, if any, then the history in order, then the user's input. */
  predicate OpensRight(agent: Agent, input: string, history: seq<Message>, messages: seq<Message>) {
    var k := if agent.systemPrompt == "" then 0 else 1;
    && |messages| > k + |history|
    && (k == 1 ==> messages[0] == Message(RoleSystem, agent.systemPrompt, [], ""))
    && messages[k..k + |history|] == history
    && messages[k + |history|] == Message(RoleUser, input, [], "")
  }

  predicate AllOpenRight(agent: Agent, input: string, history: seq<Message>, calls: seq<seq<Message>>) {
    forall j | 0 <= j < |calls| :: OpensRight(agent, input, history, calls[j])
  }

  lemma StaysOpen(agent: Agent, input: string, history: seq<Message>, messages: seq<Message>, more: seq<Message>)
    requires OpensRight(agent, input, history, messages)
    ensures OpensRight(agent, input, history, messages + more)
  {
    var k := if agent.systemPrompt == "" then 0 else 1;
    assert (messages + more)[k..k + |history|] == messages[k..k + |history|];
  }

  lemma OneMoreOpen(agent: Agent, input: string, history: seq<Message>, calls: seq<seq<Message>>,
                    messages: seq<Message>)
    requires AllOpenRight(agent, input, history, calls) && OpensRight(agent, input, history, messages)
    ensures AllOpenRight(agent, input, history, calls + [messages])
  {
    hide OpensRight;
  }

  lemma NoneOpen(agent: Agent, input: string, history: seq<Message>)
    ensures AllOpenRight(agent, input, history, [])
  {
  }

  // ---------- What the run has said after k rounds ----------

  function FollowUp(agent: Agent, turn: Reply): seq<Message>
    requires turn.Turn?
  {
    if turn.wantsTools then ToolMessages(agent, turn.message.toolCalls) else [Message(RoleUser, NUDGE, [], "")]
  }

  /** The messages after k rounds that all went on, starting from `start`; also what call k is sent. */
  function Sent(agent: Agent, p: Provider, start: seq<Message>, k: nat): seq<Message> {
    if k == 0 then start
    else
      var before := Sent(agent, p, start, k - 1);
      match p.Answer(k - 1, before)
      case Fault(_) => before
      case Turn(message, _, _) => before + [message] + FollowUp(agent, p.Answer(k - 1, before))
  }

  /** The reply to call k when every round before it went on. */
  function ReplyAt(agent: Agent, p: Provider, start: seq<Message>, k: nat): Reply {
    p.Answer(k, Sent(agent, p, start, k))
  }

  function UsageAfter(agent: Agent, p: Provider, start: seq<Message>, k: nat): Usage {
    if k == 0 then NO_USAGE
    else
      match ReplyAt(agent, p, start, k - 1)
      case Fault(_) => UsageAfter(agent, p, start, k - 1)
      case Turn(_, usage, _) => AddUsage(UsageAfter(agent, p, start, k - 1), usage)
  }

  /** Round `step` (from 1) goes on: it asked for tools, or it is not the last and looks like an unfinished plan. */
  predicate GoesOn(agent: Agent, reply: Reply, step: nat) {
    reply.Turn? && (reply.wantsTools || (step < agent.maxSteps && agent.unfinished(reply.message.content)))
  }

  predicate AllGoOn(agent: Agent, p: Provider, start: seq<Message>, k: nat) {
    forall j | 0 <= j < k :: GoesOn(agent, ReplyAt(agent, p, start, j), j + 1)
  }

  datatype RunResult = RunResult(content: string, messages: seq<Message>, totalUsage: Usage, steps: nat)

  datatype Outcome =
    | Finished(result: RunResult)
    | Cancelled(partial: RunResult)
    | MaxStepsExceeded
    | Failed(step: nat, err: string)

  function StepBound(agent: Agent): nat {
    if agent.maxSteps < 0 then 0 else agent.maxSteps
  }

  /** The calls that a run made: up to the deciding step, or as many as allowed. */
  function CallCount(agent: Agent, outcome: Outcome): nat {
    match outcome
    case Finished(r) => r.steps
    case Cancelled(r) => r.steps
    case Failed(step, _) => step
    case MaxStepsExceeded => StepBound(agent)
  }

  /** How a run that is never cancelled ends. */
  ghost predicate EndsWith(agent: Agent, p: Provider, start: seq<Message>, outcome: Outcome) {
    match outcome
    case Finished(r) =>
      && 1 <= r.steps <= agent.maxSteps
      && AllGoOn(agent, p, start, r.steps - 1)
      && var last := ReplyAt(agent, p, start, r.steps - 1);
      && last.Turn? && !GoesOn(agent, last, r.steps)
      && r.content == last.message.content
      && r.messages == Sent(agent, p, start, r.steps - 1) + [last.message]
      && r.totalUsage == AddUsage(UsageAfter(agent, p, start, r.steps - 1), last.usage)
    case MaxStepsExceeded => AllGoOn(agent, p, start, StepBound(agent))
    case Failed(step, err) =>
      && 1 <= step <= agent.maxSteps
      && AllGoOn(agent, p, start, step - 1)
      && ReplyAt(agent, p, start, step - 1) == Fault(err)
    case Cancelled(_) => false
  }

  /** The lists handed to the provider, call by call; each call but the last belongs to a round that went on. */
  predicate CallsMade(agent: Agent, p: Provider, start: seq<Message>, calls: seq<seq<Message>>) {
    && |calls| <= StepBound(agent)
    && (calls == [] || AllGoOn(agent, p, start, |calls| - 1))
    && forall j | 0 <= j < |calls| :: calls[j] == Sent(agent, p, start, j)
  }

  lemma NothingYet(agent: Agent, p: Provider, start: seq<Message>)
    ensures AllGoOn(agent, p, start, 0) && CallsMade(agent, p, start, [])
    ensures Sent(agent, p, start, 0) == start && UsageAfter(agent, p, start, 0) == NO_USAGE
  {
  }

  lemma CallRecorded(agent: Agent, p: Provider, start: seq<Message>, calls: seq<seq<Message>>)
    requires CallsMade(agent, p, start, calls) && |calls| < StepBound(agent) && AllGoOn(agent, p, start, |calls|)
    ensures CallsMade(agent, p, start, calls + [Sent(agent, p, start, |calls|)])
  {
  }

  lemma RoundAdded(agent: Agent, p: Provider, start: seq<Message>, k: nat)
    requires AllGoOn(agent, p, start, k) && GoesOn(agent, ReplyAt(agent, p, start, k), k + 1)
    ensures AllGoOn(agent, p, start, k + 1)
    ensures var reply := ReplyAt(agent, p, start, k);
            && Sent(agent, p, start, k + 1) == Sent(agent, p, start, k) + [reply.message] + FollowUp(agent, reply)
            && UsageAfter(agent, p, start, k + 1) == AddUsage(UsageAfter(agent, p, start, k), reply.usage)
  {
  }

  /** The blocking loop. `calls` records the message lists the provider was called with. */
  method RunWithOptions(agent: Agent, complete: (nat, seq<Message>) -> Completion, input: string, history: seq<Message>)
    returns (outcome: Outcome, calls: seq<seq<Message>>)
    ensures EndsWith(agent, Blocking(complete), FirstMessages(agent, input, history), outcome)
    ensures CallsMade(agent, Blocking(complete), FirstMessages(agent, input, history), calls)
    ensures |calls| == CallCount(agent, outcome) && AllOpenRight(agent, input, history, calls)
    ensures outcome.Finished? ==> OpensRight(agent, input, history, outcome.result.messages)
  {
    hide OpensRight, AllOpenRight;
    hide AddUsage, Sent, UsageAfter, AllGoOn, CallsMade, FirstMessages, ToolMessages;
    ghost var p, start := Blocking(complete), FirstMessages(agent, input, history);
    NothingYet(agent, p, start);
    var messages := BuildMessages(agent, input, history);
    var totalUsage := NO_USAGE;
    var steps: nat := 0;
    calls := [];
    NoneOpen(agent, input, history);
    while true
      invariant steps <= StepBound(agent) && |calls| == steps
      invariant AllGoOn(agent, p, start, steps) && CallsMade(agent, p, start, calls)
      invariant OpensRight(agent, input, history, messages) && AllOpenRight(agent, input, history, calls)
      invariant messages == Sent(agent, p, start, steps) && totalUsage == UsageAfter(agent, p, start, steps)
      decreases StepBound(agent) - steps
    {
      steps := steps + 1;
      if steps > agent.maxSteps {
        return MaxStepsExceeded, calls;
      }
      CallRecorded(agent, p, start, calls);
      OneMoreOpen(agent, input, history, calls, messages);
      calls := calls + [messages];
      var resp := complete(steps - 1, messages);
      ghost var reply := ReplyAt(agent, p, start, steps - 1);
      if resp.CompletionFailed? {
        return Failed(steps, resp.err), calls;
      }
      totalUsage := AddUsage(totalUsage, resp.usage);
      if resp.choices == [] {
        return Failed(steps, "no choices"), calls;
      }
      var choice := resp.choices[0];
      StaysOpen(agent, input, history, messages, [choice.message]);
      messages := messages + [choice.message];
      if choice.finishReason != "tool_calls" || choice.message.toolCalls == [] {
        if steps < agent.maxSteps && agent.unfinished(choice.message.content) {
          RoundAdded(agent, p, start, steps - 1);
          StaysOpen(agent, input, history, messages, [Message(RoleUser, NUDGE, [], "")]);
          messages := messages + [Message(RoleUser, NUDGE, [], "")];
          continue;
        }
        return Finished(RunResult(choice.message.content, messages, totalUsage, steps)), calls;
      }
      RoundAdded(agent, p, start, steps - 1);
      var toolMessages := ExecuteToolCalls(agent, choice.message.toolCalls);
      StaysOpen(agent, input, history, messages, toolMessages);
      messages := messages + toolMessages;
    }
  }

  // ---------- The streaming loop ----------

  datatype Write =
    | WroteContent(text: string)
    | WroteToolCalls(calls: seq<ToolCall>)
    | WroteToolResult(id: string, text: string)

  function ContentWrites(texts: seq<string>): (writes: seq<Write>) {
    seq(|texts|, i requires 0 <= i < |texts| => WroteContent(texts[i]))
  }

  function ResultWrites(results: seq<Message>): (writes: seq<Write>) {
    seq(|results|, i requires 0 <= i < |results| => WroteToolResult(results[i].toolCallId, results[i].content))
  }

  function EventsOf(opening: Opening): seq<StreamEvent> {
    if opening.Opened? then opening.events else []
  }

  /** What round k sends to the client when nothing in it is cancelled. */
  function RoundWrites(agent: Agent, p: Provider, start: seq<Message>, k: nat): seq<Write>
    requires p.Streaming?
  {
    var reply := ReplyAt(agent, p, start, k);
    ContentWrites(TextsIn(EventsOf(p.stream(k, Sent(agent, p, start, k)).opening)))
    + if reply.Turn? && reply.wantsTools
      then [WroteToolCalls(reply.message.toolCalls)] + ResultWrites(ToolMessages(agent, reply.message.toolCalls))
      else []
  }

  function WritesAfter(agent: Agent, p: Provider, start: seq<Message>, k: nat): seq<Write>
    requires p.Streaming?
  {
    if k == 0 then [] else WritesAfter(agent, p, start, k - 1) + RoundWrites(agent, p, start, k - 1)
  }

  function ContentAfter(agent: Agent, p: Provider, start: seq<Message>, k: nat): string {
    if k == 0 then ""
    else
      match ReplyAt(agent, p, start, k - 1)
      case Fault(_) => ContentAfter(agent, p, start, k - 1)
      case Turn(message, _, _) => ContentAfter(agent, p, start, k - 1) + message.content
  }

  /** The context is seen as done inside round k, while its stream is opened or read. */
  predicate CancelledInStream(round: Round) {
    match round.opening
    case OpenFailed(_, cancelled) => cancelled
    case Opened(events, cancelAt, onError) =>
      (cancelAt.Some? && cancelAt.value <= |events|) || (!ErrorFree(events) && onError)
  }

  /** The context is seen as done before round k, or while the results of the round before it are delivered. */
  predicate CancelledBetween(agent: Agent, p: Provider, start: seq<Message>, k: nat)
    requires p.Streaming?
  {
    || p.stream(k, Sent(agent, p, start, k)).cancelledAtTop
    || (k > 0 && p.stream(k - 1, Sent(agent, p, start, k - 1)).cancelledAfterResults.Some?)
  }

  /** A cancelled run hands back exactly its `done` complete rounds. */
  predicate CancelledAfter(agent: Agent, p: Provider, start: seq<Message>, r: RunResult, done: nat)
    requires p.Streaming?
  {
    && done <= StepBound(agent) && AllGoOn(agent, p, start, done)
    && r.messages == Sent(agent, p, start, done)
    && r.totalUsage == UsageAfter(agent, p, start, done)
    && r.content == ContentAfter(agent, p, start, done)
    && (|| (r.steps == done && CancelledBetween(agent, p, start, done))
        || (r.steps == done + 1 <= agent.maxSteps && CancelledInStream(p.stream(done, Sent(agent, p, start, done)))))
  }

  /** Sends tool results one by one, looking at the context before each. */
  method DeliverResults(results: seq<Message>, cancelAt: Option<nat>) returns (cancelled: bool, written: seq<Write>)
    ensures cancelled <==> cancelAt.Some? && cancelAt.value < |results|
    ensures written == if cancelled then ResultWrites(results)[..cancelAt.value] else ResultWrites(results)
    ensures written <= ResultWrites(results)
  {
    written := [];
    for i := 0 to |results|
      invariant written == ResultWrites(results)[..i]
      invariant cancelAt.Some? ==> i <= cancelAt.value
    {
      if cancelAt == Some(i) {
        return true, written;
      }
      written := written + [WroteToolResult(results[i].toolCallId, results[i].content)];
    }
    cancelled := false;
  }

  lemma NothingWritten(agent: Agent, p: Provider, start: seq<Message>)
    requires p.Streaming?
    ensures ContentAfter(agent, p, start, 0) == "" && WritesAfter(agent, p, start, 0) == []
  {
  }

  lemma RoundWritten(agent: Agent, p: Provider, start: seq<Message>, k: nat)
    requires p.Streaming? && ReplyAt(agent, p, start, k).Turn?
    ensures ContentAfter(agent, p, start, k + 1)
        == ContentAfter(agent, p, start, k) + ReplyAt(agent, p, start, k).message.content
    ensures WritesAfter(agent, p, start, k + 1) == WritesAfter(agent, p, start, k) + RoundWrites(agent, p, start, k)
  {
  }

  lemma WritesGrow(agent: Agent, p: Provider, start: seq<Message>, k: nat)
    requires p.Streaming?
    ensures WritesAfter(agent, p, start, k) <= WritesAfter(agent, p, start, k + 1)
  {
  }

  /** The writes of the complete rounds before round k + 1, and a prefix of that round's. */
  predicate WritesWithin(agent: Agent, p: Provider, start: seq<Message>, k: nat, written: seq<Write>)
    requires p.Streaming?
  {
    WritesAfter(agent, p, start, k) <= written <= WritesAfter(agent, p, start, k + 1)
  }

  lemma RoundPrefix(agent: Agent, p: Provider, start: seq<Message>, k: nat, part: seq<Write>)
    requires p.Streaming? && part <= RoundWrites(agent, p, start, k)
    ensures WritesWithin(agent, p, start, k, WritesAfter(agent, p, start, k) + part)
  {
  }

  lemma TextPrefix(agent: Agent, p: Provider, start: seq<Message>, k: nat, texts: seq<string>)
    requires p.Streaming? && texts <= TextsIn(EventsOf(p.stream(k, Sent(agent, p, start, k)).opening))
    ensures WritesWithin(agent, p, start, k, WritesAfter(agent, p, start, k) + ContentWrites(texts))
  {
    hide Sent, TextsIn, EventsOf, WritesAfter, WritesWithin;
    RoundPrefix(agent, p, start, k, ContentWrites(texts));
  }

  lemma BetweenRounds(agent: Agent, p: Provider, start: seq<Message>, k: nat)
    requires p.Streaming?
    ensures WritesWithin(agent, p, start, if k == 0 then 0 else k - 1, WritesAfter(agent, p, start, k))
  {
    WritesGrow(agent, p, start, if k == 0 then 0 else k - 1);
  }

  lemma ResultPrefix(agent: Agent, p: Provider, start: seq<Message>, k: nat, texts: seq<string>, results: seq<Write>)
    requires p.Streaming? && texts == TextsIn(EventsOf(p.stream(k, Sent(agent, p, start, k)).opening))
    requires var reply := ReplyAt(agent, p, start, k);
             reply.Turn? && reply.wantsTools && results <= ResultWrites(ToolMessages(agent, reply.message.toolCalls))
    ensures var calls := [WroteToolCalls(ReplyAt(agent, p, start, k).message.toolCalls)];
            WritesWithin(agent, p, start, k, WritesAfter(agent, p, start, k) + ContentWrites(texts) + calls + results)
  {
    hide Sent, TextsIn, EventsOf, WritesAfter, WritesWithin, ResultWrites, ContentWrites, ToolMessages, StreamReply;
    var calls := [WroteToolCalls(ReplyAt(agent, p, start, k).message.toolCalls)];
    RoundPrefix(agent, p, start, k, ContentWrites(texts) + calls + results);
    assert WritesAfter(agent, p, start, k) + (ContentWrites(texts) + calls + results)
           == WritesAfter(agent, p, start, k) + ContentWrites(texts) + calls + results;
  }

  // ---------- One round's stream ----------

  datatype Ended = Assembled(message: Message, usage: Usage) | Aborted | Broke(err: string)

  lemma {:induction false} TextsGrow(events: seq<StreamEvent>, k: nat)
    requires k <= |events|
    ensures TextsIn(events[..k]) <= TextsIn(events)
    decreases |events|
  {
    if k == |events| {
      assert events[..k] == events;
    } else {
      assert events[..|events| - 1][..k] == events[..k];
      TextsGrow(events[..|events| - 1], k);
    }
  }

  /** Opens a round's stream and reads it; an error met when the context is done counts as a cancellation. */
  method ReadRound(round: Round) returns (ended: Ended, texts: seq<string>)
    ensures texts <= TextsIn(EventsOf(round.opening))
    ensures match ended
            case Assembled(message, usage) =>
              StreamReply(round) == Turn(message, usage, message.toolCalls != [])
                  && texts == TextsIn(EventsOf(round.opening))
            case Aborted => CancelledInStream(round)
            case Broke(err) => StreamReply(round) == Fault(err)
  {
    hide TextsIn, PlacedCalls, LastUsage, ContentIn;
    if round.opening.OpenFailed? {
      return if round.opening.cancelled then Aborted else Broke(round.opening.err), [];
    }
    var events := round.opening.events;
    var consumed, written, read := ConsumeStream(events, round.opening.cancelAt);
    texts := written;
    TextsGrow(events, read);
    match consumed {
      case Complete(message, usage) =>
        assert events[..read] == events;
        ended := Assembled(message, usage);
      case Interrupted(_, _) =>
        ended := Aborted;
      case StreamFailed(_, err) =>
        FirstErrorIs(events, read);
        ended := if round.opening.cancelledOnError then Aborted else Broke(err);
    }
  }

  /** What the streaming loop holds after `steps` complete rounds. */
  ghost predicate Holds(agent: Agent, p: Provider, start: seq<Message>, steps: nat, messages: seq<Message>,
                        totalUsage: Usage, content: string, calls: seq<seq<Message>>, written: seq<Write>)
    requires p.Streaming?
  {
    && steps <= StepBound(agent) && |calls| == steps
    && AllGoOn(agent, p, start, steps) && CallsMade(agent, p, start, calls)
    && messages == Sent(agent, p, start, steps) && totalUsage == UsageAfter(agent, p, start, steps)
    && content == ContentAfter(agent, p, start, steps) && written == WritesAfter(agent, p, start, steps)
  }

  /** The steps before the one in which a run was cancelled or failed. */
  function StepsBefore(outcome: Outcome): nat {
    var step := match outcome
      case Cancelled(r) => r.steps
      case Failed(step, _) => step
      case _ => 0;
    if step == 0 then 0 else step - 1
  }

  /**
   * The streaming loop. `done` counts the complete rounds of a cancelled run, `calls` the message lists the provider
   * was called with and `written` what the client was sent: for a run cut short, a prefix of what it would have been.
   */
  method RunStreaming(agent: Agent, stream: (nat, seq<Message>) -> Round, input: string, history: seq<Message>)
    returns (outcome: Outcome, calls: seq<seq<Message>>, written: seq<Write>, done: nat)
    ensures var p, start := Streaming(stream), FirstMessages(agent, input, history);
            && (!outcome.Cancelled? ==> EndsWith(agent, p, start, outcome))
            && (outcome.Cancelled? ==> CancelledAfter(agent, p, start, outcome.partial, done))
            && CallsMade(agent, p, start, calls)
            && |calls| == CallCount(agent, outcome) && AllOpenRight(agent, input, history, calls)
            && (outcome.Finished? ==> OpensRight(agent, input, history, outcome.result.messages))
            && (outcome.Cancelled? ==> OpensRight(agent, input, history, outcome.partial.messages))
            && (outcome.Finished? ==> written == WritesAfter(agent, p, start, outcome.result.steps))
            && (outcome.MaxStepsExceeded? ==> written == WritesAfter(agent, p, start, StepBound(agent)))
            && (outcome.Cancelled? || outcome.Failed? ==> WritesWithin(agent, p, start, StepsBefore(outcome), written))
  {
    hide OpensRight, AllOpenRight;
    hide AddUsage, TextsIn, StreamReply, CancelledInStream, ContentWrites, ResultWrites, EventsOf, WritesWithin;
    hide Sent, UsageAfter, ContentAfter, WritesAfter, AllGoOn, CallsMade, FirstMessages, ToolMessages;
    ghost var p, start := Streaming(stream), FirstMessages(agent, input, history);
    NothingYet(agent, p, start);
    NothingWritten(agent, p, start);
    var messages := BuildMessages(agent, input, history);
    var totalUsage := NO_USAGE;
    var content := "";
    var steps: nat := 0;
    calls, written, done := [], [], 0;
    NoneOpen(agent, input, history);
    while true
      invariant OpensRight(agent, input, history, messages) && AllOpenRight(agent, input, history, calls)
      invariant done == steps && Holds(agent, p, start, steps, messages, totalUsage, content, calls, written)
      decreases StepBound(agent) - steps
    {
      var round := stream(steps, messages);
      if round.cancelledAtTop {
        BetweenRounds(agent, p, start, steps);
        return Cancelled(RunResult(content, messages, totalUsage, steps)), calls, written, done;
      }
      steps := steps + 1;
      if steps > agent.maxSteps {
        return MaxStepsExceeded, calls, written, done;
      }
      CallRecorded(agent, p, start, calls);
      OneMoreOpen(agent, input, history, calls, messages);
      calls := calls + [messages];
      var ended, texts := ReadRound(round);
      TextPrefix(agent, p, start, done, texts);
      written := written + ContentWrites(texts);
      if ended.Aborted? {
        return Cancelled(RunResult(content, messages, totalUsage, steps)), calls, written, done;
      }
      if ended.Broke? {
        return Failed(steps, ended.err), calls, written, done;
      }
      RoundWritten(agent, p, start, done);
      var assembled := ended.message;
      content := content + assembled.content;
      totalUsage := AddUsage(totalUsage, ended.usage);
      StaysOpen(agent, input, history, messages, [assembled]);
      messages := messages + [assembled];
      if assembled.toolCalls == [] {
        RoundText(agent, p, start, done, texts);
        if steps < agent.maxSteps && agent.unfinished(assembled.content) {
          RoundAdded(agent, p, start, done);
          StaysOpen(agent, input, history, messages, [Message(RoleUser, NUDGE, [], "")]);
          messages := messages + [Message(RoleUser, NUDGE, [], "")];
          done := steps;
          continue;
        }
        return Finished(RunResult(assembled.content, messages, totalUsage, steps)), calls, written, done;
      }
      RoundAdded(agent, p, start, done);
      written := written + [WroteToolCalls(assembled.toolCalls)];
      var toolMessages := ExecuteToolCalls(agent, assembled.toolCalls);
      StaysOpen(agent, input, history, messages, toolMessages);
      messages := messages + toolMessages;
      var cancelled, results := DeliverResults(toolMessages, round.cancelledAfterResults);
      ResultPrefix(agent, p, start, done, texts, results);
      RoundWhole(agent, p, start, done, texts);
      done := steps;
      written := written + results;
      if cancelled {
        return Cancelled(RunResult(content, messages, totalUsage, steps)), calls, written, done;
      }
    }
  }

  lemma RoundText(agent: Agent, p: Provider, start: seq<Message>, k: nat, texts: seq<string>)
    requires p.Streaming? && texts == TextsIn(EventsOf(p.stream(k, Sent(agent, p, start, k)).opening))
    requires var reply := ReplyAt(agent, p, start, k); reply.Turn? && !reply.wantsTools
    ensures WritesAfter(agent, p, start, k + 1) == WritesAfter(agent, p, start, k) + ContentWrites(texts)
  {
    hide Sent, TextsIn, StreamReply, EventsOf, ContentWrites;
    assert ContentWrites(texts) + [] == ContentWrites(texts);
  }

  lemma RoundWhole(agent: Agent, p: Provider, start: seq<Message>, k: nat, texts: seq<string>)
    requires p.Streaming? && texts == TextsIn(EventsOf(p.stream(k, Sent(agent, p, start, k)).opening))
    requires var reply := ReplyAt(agent, p, start, k); reply.Turn? && reply.wantsTools
    ensures var calls := ReplyAt(agent, p, start, k).message.toolCalls;
            WritesAfter(agent, p, start, k + 1)
            == WritesAfter(agent, p, start, k) + ContentWrites(texts) + [WroteToolCalls(calls)]
               + ResultWrites(ToolMessages(agent, calls))
  {
    hide Sent, TextsIn, StreamReply, EventsOf, ContentWrites, ResultWrites, ToolMessages;
  }
}
