/** What a run of either agent loop does, told from the provider's answers, the tools and the heuristic alone. */
module RunLaws {
  import opened LlmTypes
  import opened Options
  import opened StreamAssembly
  import opened AgentLoops

  // ---------- One round ----------

  /** The messages that answer the calls of a round: what each tool returned, or its error, encoded. */
  predicate ToolsAnswered(agent: Agent, calls: seq<ToolCall>, rest: seq<Message>) {
    && |rest| == |calls|
    && forall i | 0 <= i < |calls| ::
         && rest[i].role == RoleTool && rest[i].toolCallId == calls[i].id && rest[i].toolCalls == []
         && match agent.tool(calls[i].name, calls[i].arguments)
            case ToolOk(text) => rest[i].content == text
            case ToolErr(text) => rest[i].content == agent.encodeError(text)
  }

  /** What follows the message of a round that is not the last: tool answers if it asked for them, or one nudge. */
  predicate Continues(agent: Agent, step: nat, message: Message, asksForTools: bool, rest: seq<Message>) {
    if asksForTools then ToolsAnswered(agent, message.toolCalls, rest)
    else step < agent.maxSteps && agent.unfinished(message.content) && rest == [Message(RoleUser, NUDGE, [], "")]
  }

  /** A message that ends the run: it asks for no tools, and is no unfinished plan unless no step is left. */
  predicate Ends(agent: Agent, step: nat, message: Message, asksForTools: bool) {
    !asksForTools && (step == agent.maxSteps || !agent.unfinished(message.content))
  }

  lemma RoundContinues(agent: Agent, turn: Reply, step: nat)
    requires turn.Turn? && GoesOn(agent, turn, step)
    ensures Continues(agent, step, turn.message, turn.wantsTools, FollowUp(agent, turn))
  {
  }

  lemma RoundEnds(agent: Agent, turn: Reply, step: nat)
    requires turn.Turn? && !GoesOn(agent, turn, step) && 1 <= step <= agent.maxSteps
    ensures Ends(agent, step, turn.message, turn.wantsTools)
  {
  }

  /** From call j to call j + 1: the answer's message, and what follows it. */
  predicate Grows(agent: Agent, before: seq<Message>, step: nat, message: Message, asksForTools: bool,
                  after: seq<Message>)
  {
    && |after| > |before| && after[..|before|] == before && after[|before|] == message
    && Continues(agent, step, message, asksForTools, after[|before| + 1..])
  }

  lemma GrowsByRound(agent: Agent, before: seq<Message>, turn: Reply, step: nat)
    requires turn.Turn? && GoesOn(agent, turn, step)
    ensures Grows(agent, before, step, turn.message, turn.wantsTools, before + [turn.message] + FollowUp(agent, turn))
  {
    hide Continues, FollowUp, GoesOn;
    RoundContinues(agent, turn, step);
    var rest := FollowUp(agent, turn);
    var after := before + [turn.message] + rest;
    assert after[..|before|] == before && after[|before| + 1..] == rest;
  }

  lemma CallGrows(agent: Agent, p: Provider, start: seq<Message>, calls: seq<seq<Message>>, j: nat)
    requires CallsMade(agent, p, start, calls) && j + 1 < |calls|
    ensures var turn := p.Answer(j, calls[j]);
            turn.Turn? && Grows(agent, calls[j], j + 1, turn.message, turn.wantsTools, calls[j + 1])
  {
    hide Provider.Answer, Grows, FollowUp, GoesOn;
    var turn := ReplyAt(agent, p, start, j);
    assert GoesOn(agent, turn, j + 1);
    assert turn.Turn? by { OnIsTurn(agent, turn, j + 1); }
    GrowsByRound(agent, calls[j], turn, j + 1);
    SentGrows(agent, p, start, j);
  }

  lemma OnIsTurn(agent: Agent, turn: Reply, step: nat)
    requires GoesOn(agent, turn, step)
    ensures turn.Turn?
  {
  }

  lemma SentGrows(agent: Agent, p: Provider, start: seq<Message>, j: nat)
    requires ReplyAt(agent, p, start, j).Turn?
    ensures var turn := ReplyAt(agent, p, start, j);
            Sent(agent, p, start, j + 1) == Sent(agent, p, start, j) + [turn.message] + FollowUp(agent, turn)
  {
    hide FollowUp, Provider.Answer;
  }

  // ---------- Usage ----------

  /** One counter, added up over some answers. */
  function Total(usages: seq<Usage>, counter: Usage -> int): int {
    if usages == [] then 0 else Total(usages[..|usages| - 1], counter) + counter(usages[|usages| - 1])
  }

  predicate AddsUp(total: Usage, usages: seq<Usage>) {
    && total.promptTokens == Total(usages, (u: Usage) => u.promptTokens)
    && total.completionTokens == Total(usages, (u: Usage) => u.completionTokens)
    && total.totalTokens == Total(usages, (u: Usage) => u.totalTokens)
  }

  lemma AddsUpSnoc(total: Usage, usages: seq<Usage>, u: Usage)
    requires AddsUp(total, usages)
    ensures AddsUp(AddUsage(total, u), usages + [u])
  {
    assert (usages + [u])[..|usages|] == usages;
  }

  /** The usages of the first k answers, each asked with the messages of its call. */
  function UsagesOf(p: Provider, calls: seq<seq<Message>>): (usages: seq<Usage>)
    ensures |usages| == |calls|
  {
    seq(|calls|, j requires 0 <= j < |calls| =>
      if p.Answer(j, calls[j]).Turn? then p.Answer(j, calls[j]).usage else NO_USAGE)
  }

  lemma {:induction false} UsageAddsUp(agent: Agent, p: Provider, start: seq<Message>, calls: seq<seq<Message>>, k: nat)
    requires k <= |calls| && forall j | 0 <= j < |calls| :: calls[j] == Sent(agent, p, start, j)
    ensures AddsUp(UsageAfter(agent, p, start, k), UsagesOf(p, calls)[..k])
  {
    hide Provider.Answer, AddsUp, Sent, AddUsage;
    var usages := UsagesOf(p, calls);
    if k == 0 {
      NothingUsed();
      assert usages[..0] == [];
    } else {
      UsageAddsUp(agent, p, start, calls, k - 1);
      AddsUpSnoc(UsageAfter(agent, p, start, k - 1), usages[..k - 1], usages[k - 1]);
      assert usages[..k - 1] + [usages[k - 1]] == usages[..k];
      AddNothing(UsageAfter(agent, p, start, k - 1));
    }
  }

  lemma NothingUsed()
    ensures AddsUp(NO_USAGE, [])
  {
  }

  lemma AddNothing(total: Usage)
    ensures AddUsage(total, NO_USAGE) == total
  {
  }

  // ---------- A whole run ----------

  /** Each list the provider is sent is the one before it, the message answered, and what follows that. */
  predicate CallsTell(agent: Agent, p: Provider, calls: seq<seq<Message>>) {
    forall j: nat | j < |calls| - 1 :: CallTells(agent, p, calls, j)
  }

  predicate CallTells(agent: Agent, p: Provider, calls: seq<seq<Message>>, j: nat)
    requires j + 1 < |calls|
  {
    var turn := p.Answer(j, calls[j]);
    turn.Turn? && Grows(agent, calls[j], j + 1, turn.message, turn.wantsTools, calls[j + 1])
  }

  /** How an uncancelled run ends, after its last call. */
  predicate EndTells(agent: Agent, p: Provider, calls: seq<seq<Message>>, outcome: Outcome) {
    match outcome
    case Finished(r) =>
      && |calls| == r.steps >= 1
      && var turn := p.Answer(r.steps - 1, calls[r.steps - 1]);
      && turn.Turn? && Ends(agent, r.steps, turn.message, turn.wantsTools)
      && r.content == turn.message.content && r.messages == calls[r.steps - 1] + [turn.message]
    case Failed(step, err) => |calls| == step >= 1 && p.Answer(step - 1, calls[step - 1]) == Fault(err)
    case MaxStepsExceeded =>
      && |calls| == StepBound(agent)
      && (calls != [] ==> var turn := p.Answer(|calls| - 1, calls[|calls| - 1]); turn.Turn? && turn.wantsTools)
    case Cancelled(_) => false
  }

  lemma FinishedTells(agent: Agent, p: Provider, start: seq<Message>, r: RunResult, calls: seq<seq<Message>>)
    requires EndsWith(agent, p, start, Finished(r)) && CallsMade(agent, p, start, calls) && |calls| == r.steps
    ensures var turn := p.Answer(r.steps - 1, calls[r.steps - 1]);
            && turn.Turn? && Ends(agent, r.steps, turn.message, turn.wantsTools)
            && r.content == turn.message.content && r.messages == calls[r.steps - 1] + [turn.message]
            && AddsUp(r.totalUsage, UsagesOf(p, calls))
  {
    hide Provider.Answer, Ends, GoesOn, AddsUp, UsageAfter, Sent;
    var n := r.steps - 1;
    var turn := ReplyAt(agent, p, start, n);
    assert calls[n] == Sent(agent, p, start, n);
    RoundEnds(agent, turn, r.steps);
    UsageAddsUp(agent, p, start, calls, n);
    AddsUpSnoc(UsageAfter(agent, p, start, n), UsagesOf(p, calls)[..n], turn.usage);
    assert UsagesOf(p, calls)[..n] + [turn.usage] == UsagesOf(p, calls);
  }

  lemma FailedTells(agent: Agent, p: Provider, start: seq<Message>, step: nat, err: string, calls: seq<seq<Message>>)
    requires EndsWith(agent, p, start, Failed(step, err)) && CallsMade(agent, p, start, calls) && |calls| == step
    ensures step >= 1 && p.Answer(step - 1, calls[step - 1]) == Fault(err)
  {
    hide Provider.Answer, Sent, GoesOn;
    assert ReplyAt(agent, p, start, step - 1) == Fault(err);
    assert calls[step - 1] == Sent(agent, p, start, step - 1);
  }

  lemma ExceededTells(agent: Agent, p: Provider, start: seq<Message>, calls: seq<seq<Message>>)
    requires EndsWith(agent, p, start, MaxStepsExceeded) && CallsMade(agent, p, start, calls)
    requires |calls| == StepBound(agent) && calls != []
    ensures var turn := p.Answer(|calls| - 1, calls[|calls| - 1]); turn.Turn? && turn.wantsTools
  {
    hide Provider.Answer, Sent;
    var n := |calls| - 1;
    assert GoesOn(agent, ReplyAt(agent, p, start, n), n + 1);
  }

  /**
   * Every uncancelled run of either loop, call by call: each list the provider is sent is the one before it, the
   * message answered, and the tools' answers or one nudge; it ends with a message that asks for nothing more; and its
   * usage is the sum of the answers' usages.
   */
  lemma RunTells(agent: Agent, p: Provider, start: seq<Message>, calls: seq<seq<Message>>, outcome: Outcome)
    requires EndsWith(agent, p, start, outcome) && CallsMade(agent, p, start, calls)
    requires |calls| == CallCount(agent, outcome)
    ensures CallsTell(agent, p, calls) && EndTells(agent, p, calls, outcome)
    ensures outcome.Finished? ==> AddsUp(outcome.result.totalUsage, UsagesOf(p, calls))
    ensures calls != [] ==> calls[0] == start
  {
    hide Provider.Answer, Grows, Ends, AddsUp, CallsMade;
    forall j: nat | j < |calls| - 1 ensures CallTells(agent, p, calls, j) {
      CallGrows(agent, p, start, calls, j);
    }
    match outcome {
      case Finished(r) => FinishedTells(agent, p, start, r, calls);
      case Failed(step, err) => FailedTells(agent, p, start, step, err, calls);
      case MaxStepsExceeded =>
        if calls != [] {
          ExceededTells(agent, p, start, calls);
        }
    }
    if calls != [] {
      CallIs(agent, p, start, calls, 0);
      FirstIs(agent, p, start);
    }
  }

  lemma CallIs(agent: Agent, p: Provider, start: seq<Message>, calls: seq<seq<Message>>, j: nat)
    requires CallsMade(agent, p, start, calls) && j < |calls|
    ensures calls[j] == Sent(agent, p, start, j)
  {
  }

  lemma FirstIs(agent: Agent, p: Provider, start: seq<Message>)
    ensures Sent(agent, p, start, 0) == start
  {
  }

  // ---------- A cancelled run ----------

  /** The texts of the answers, each asked with the messages of its call. */
  function TextsOf(p: Provider, calls: seq<seq<Message>>): (texts: seq<string>)
    ensures |texts| == |calls|
  {
    seq(|calls|, j requires 0 <= j < |calls| =>
      if p.Answer(j, calls[j]).Turn? then p.Answer(j, calls[j]).message.content else "")
  }

  lemma {:induction false} ContentAddsUp(agent: Agent, p: Provider, start: seq<Message>, calls: seq<seq<Message>>,
                                         k: nat)
    requires k <= |calls| && forall j | 0 <= j < |calls| :: calls[j] == Sent(agent, p, start, j)
    ensures ContentAfter(agent, p, start, k) == Concat(TextsOf(p, calls)[..k])
  {
    hide Provider.Answer, Sent, Concat;
    var texts := TextsOf(p, calls);
    if k == 0 {
      NoText();
      assert texts[..0] == [];
    } else {
      ContentAddsUp(agent, p, start, calls, k - 1);
      ConcatSnoc(texts[..k - 1], texts[k - 1]);
      assert texts[..k - 1] + [texts[k - 1]] == texts[..k];
      assert ContentAfter(agent, p, start, k - 1) + "" == ContentAfter(agent, p, start, k - 1);
    }
  }

  lemma NoText()
    ensures Concat([]) == ""
  {
  }

  /**
   * A cancelled run goes the same way call by call, and hands back its complete rounds: their texts, their usages, and
   * the messages as the next call has them, or would have had.
   */
  lemma CutShortTells(agent: Agent, p: Provider, start: seq<Message>, r: RunResult, done: nat,
                      calls: seq<seq<Message>>)
    requires p.Streaming? && CancelledAfter(agent, p, start, r, done) && CallsMade(agent, p, start, calls)
    requires |calls| == CallCount(agent, Cancelled(r))
    ensures CallsTell(agent, p, calls) && done <= |calls| <= done + 1
    ensures r.content == Concat(TextsOf(p, calls)[..done]) && AddsUp(r.totalUsage, UsagesOf(p, calls)[..done])
    ensures if done < |calls| then r.messages == calls[done]
            else if done == 0 then r.messages == start
            else var turn := p.Answer(done - 1, calls[done - 1]);
                 turn.Turn? && Grows(agent, calls[done - 1], done, turn.message, turn.wantsTools, r.messages)
  {
    hide Provider.Answer, Grows, AddsUp, CallsMade, ContentAfter, UsageAfter, Sent, CancelledInStream, CancelledBetween;
    hide GoesOn, FollowUp;
    forall j: nat | j < |calls| ensures calls[j] == Sent(agent, p, start, j) {
      CallIs(agent, p, start, calls, j);
    }
    forall j: nat | j < |calls| - 1 ensures CallTells(agent, p, calls, j) {
      CallGrows(agent, p, start, calls, j);
    }
    ContentAddsUp(agent, p, start, calls, done);
    UsageAddsUp(agent, p, start, calls, done);
    FirstIs(agent, p, start);
    if done == |calls| > 0 {
      LastGrows(agent, p, start, done);
    }
  }

  lemma LastGrows(agent: Agent, p: Provider, start: seq<Message>, k: nat)
    requires k > 0 && AllGoOn(agent, p, start, k)
    ensures var turn := ReplyAt(agent, p, start, k - 1);
            var before, after := Sent(agent, p, start, k - 1), Sent(agent, p, start, k);
            turn.Turn? && Grows(agent, before, k, turn.message, turn.wantsTools, after)
  {
    hide Provider.Answer, Grows, FollowUp, GoesOn, Sent;
    var turn := ReplyAt(agent, p, start, k - 1);
    assert GoesOn(agent, turn, k);
    OnIsTurn(agent, turn, k);
    GrowsByRound(agent, Sent(agent, p, start, k - 1), turn, k);
    SentGrows(agent, p, start, k - 1);
  }

  /** The blocking loop's answer is the first choice; it asks for tools by its finish reason and its calls. */
  lemma BlockingAnswers(complete: (nat, seq<Message>) -> Completion, n: nat, sent: seq<Message>)
    ensures var answer := Blocking(complete).Answer(n, sent);
            match complete(n, sent)
            case CompletionFailed(err) => answer == Fault(err)
            case Response(choices, usage) =>
              if choices == [] then answer.Fault?
              else
                && answer.Turn? && answer.message == choices[0].message && answer.usage == usage
                && (answer.wantsTools <==>
                      choices[0].finishReason == "tool_calls" && choices[0].message.toolCalls != [])
  {
  }

  /** The streaming loop's answer is what its stream assembles to; it asks for tools by its calls. */
  lemma StreamingAnswers(stream: (nat, seq<Message>) -> Round, n: nat, sent: seq<Message>)
    ensures var answer := Streaming(stream).Answer(n, sent);
            match stream(n, sent).opening
            case OpenFailed(err, _) => answer == Fault(err)
            case Opened(events, _, _) =>
              if !ErrorFree(events) then answer.Fault?
              else
                && answer.Turn? && answer.usage == LastUsage(events)
                && answer.message == Message(RoleAssistant, ContentIn(events), PlacedCalls(events), "")
                && (answer.wantsTools <==> PlacedCalls(events) != [])
  {
  }
}
