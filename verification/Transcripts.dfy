/** What the two agent loops have in common: equal outcomes, the step bound, and well-formed transcripts. */
module Transcripts {
  import opened LlmTypes
  import opened Options
  import opened StreamAssembly
  import opened AgentLoops

  // ---------- The loops agree ----------

  /** The step that decided a run; one past the bound when none did. */
  function LastStep(agent: Agent, outcome: Outcome): nat {
    match outcome
    case Finished(r) => r.steps
    case Failed(step, _) => step
    case MaxStepsExceeded => StepBound(agent) + 1
    case Cancelled(r) => r.steps
  }

  lemma WentOnBefore(agent: Agent, p: Provider, start: seq<Message>, outcome: Outcome, i: int)
    requires EndsWith(agent, p, start, outcome) && 1 <= i < LastStep(agent, outcome)
    ensures GoesOn(agent, ReplyAt(agent, p, start, i - 1), i)
  {
  }

  lemma StoppedAt(agent: Agent, p: Provider, start: seq<Message>, outcome: Outcome)
    requires EndsWith(agent, p, start, outcome) && LastStep(agent, outcome) <= StepBound(agent)
    ensures !GoesOn(agent, ReplyAt(agent, p, start, LastStep(agent, outcome) - 1), LastStep(agent, outcome))
  {
    hide Sent, UsageAfter, AllGoOn, Provider.Answer, AddUsage;
  }

  lemma NotEarlier(agent: Agent, p: Provider, start: seq<Message>, a: Outcome, b: Outcome)
    requires EndsWith(agent, p, start, a) && EndsWith(agent, p, start, b)
    ensures LastStep(agent, b) <= LastStep(agent, a)
  {
    var i := LastStep(agent, a);
    if i <= StepBound(agent) {
      StoppedAt(agent, p, start, a);
      if i < LastStep(agent, b) {
        WentOnBefore(agent, p, start, b, i);
      }
    }
  }

  lemma OutcomeUnique(agent: Agent, p: Provider, start: seq<Message>, a: Outcome, b: Outcome)
    requires EndsWith(agent, p, start, a) && EndsWith(agent, p, start, b)
    ensures a == b
  {
    hide Sent, UsageAfter, GoesOn, AllGoOn;
    NotEarlier(agent, p, start, a, b);
    NotEarlier(agent, p, start, b, a);
  }

  lemma NextRound(agent: Agent, p: Provider, start: seq<Message>, k: nat)
    ensures var before, reply := Sent(agent, p, start, k), ReplyAt(agent, p, start, k);
            && Sent(agent, p, start, k + 1)
                == (if reply.Turn? then before + [reply.message] + FollowUp(agent, reply) else before)
            && UsageAfter(agent, p, start, k + 1) ==
                 var used := UsageAfter(agent, p, start, k); if reply.Turn? then AddUsage(used, reply.usage) else used
  {
    hide AddUsage, FollowUp, Provider.Answer;
  }

  /** Providers that answer the first k calls of a run alike give the same transcript and usage after them. */
  lemma {:induction false} SameAnswersSameRun(agent: Agent, p: Provider, q: Provider, start: seq<Message>, k: nat)
    requires forall j | 0 <= j < k :: ReplyAt(agent, p, start, j) == q.Answer(j, Sent(agent, p, start, j))
    ensures Sent(agent, p, start, k) == Sent(agent, q, start, k)
    ensures UsageAfter(agent, p, start, k) == UsageAfter(agent, q, start, k)
  {
    hide AddUsage, FollowUp, Provider.Answer, Sent, UsageAfter, ReplyAt;
    if k == 0 {
      SameStart(agent, p, start);
      SameStart(agent, q, start);
    } else {
      SameAnswersSameRun(agent, p, q, start, k - 1);
      ReplyIs(agent, q, start, k - 1);
      NextRound(agent, p, start, k - 1);
      NextRound(agent, q, start, k - 1);
    }
  }

  lemma SameStart(agent: Agent, p: Provider, start: seq<Message>)
    ensures Sent(agent, p, start, 0) == start && UsageAfter(agent, p, start, 0) == NO_USAGE
  {
  }

  lemma ReplyIs(agent: Agent, p: Provider, start: seq<Message>, k: nat)
    ensures ReplyAt(agent, p, start, k) == p.Answer(k, Sent(agent, p, start, k))
  {
  }

  /**
   * The streamed round carries the completion: the same text and usage, the tool calls cut up in any way the index
   * formula can undo, and a finish reason that says "tool_calls" exactly when there are calls.
   */
  ghost predicate Carries(completion: Completion, round: Round) {
    && completion.Response? && completion.choices != []
    && var choice := completion.choices[0];
    && choice.message == Message(RoleAssistant, choice.message.content, choice.message.toolCalls, "")
    && (choice.finishReason == "tool_calls" <==> choice.message.toolCalls != [])
    && round.opening.Opened?
    && var events := round.opening.events;
    && ErrorFree(events) && ContentIn(events) == choice.message.content && LastUsage(events) == completion.usage
    && Splits(FragmentsIn(events), choice.message.toolCalls) && TailOnly(events)
  }

  lemma CarriedAnswersAgree(complete: (nat, seq<Message>) -> Completion, stream: (nat, seq<Message>) -> Round, n: nat,
                            sent: seq<Message>)
    requires Carries(complete(n, sent), stream(n, sent))
    ensures Blocking(complete).Answer(n, sent) == Streaming(stream).Answer(n, sent)
    ensures Blocking(complete).Answer(n, sent).Turn?
  {
    ReassemblyExact(stream(n, sent).opening.events, complete(n, sent).choices[0].message.toolCalls);
  }

  /**
   * Refinement: when the streamed rounds carry what the blocking run's own calls returned, call by call, an uncancelled
   * streaming run and the blocking run end alike, in messages, content, usage and steps, or in the step bound; neither
   * fails. Nothing is asked of calls that the blocking run does not make.
   */
  lemma LoopsAgree(agent: Agent, complete: (nat, seq<Message>) -> Completion, stream: (nat, seq<Message>) -> Round,
                   start: seq<Message>, blocked: Outcome, streamed: Outcome)
    requires EndsWith(agent, Blocking(complete), start, blocked)
    requires EndsWith(agent, Streaming(stream), start, streamed)
    requires forall j | 0 <= j < CallCount(agent, blocked) ::
      var sent := Sent(agent, Blocking(complete), start, j); Carries(complete(j, sent), stream(j, sent))
    ensures blocked == streamed && !blocked.Failed?
  {
    hide EndsWith, Sent, Carries, CallCount;
    var p, q := Blocking(complete), Streaming(stream);
    forall j: nat | j < CallCount(agent, blocked)
      ensures ReplyAt(agent, p, start, j) == q.Answer(j, Sent(agent, p, start, j)) && ReplyAt(agent, p, start, j).Turn?
    {
      CarriedAnswersAgree(complete, stream, j, Sent(agent, p, start, j));
    }
    AnswersDecide(agent, p, q, start, blocked);
    OutcomeUnique(agent, q, start, blocked, streamed);
    NoFailure(agent, p, start, blocked);
  }

  lemma NoFailure(agent: Agent, p: Provider, start: seq<Message>, outcome: Outcome)
    requires EndsWith(agent, p, start, outcome)
    requires forall j | 0 <= j < CallCount(agent, outcome) :: ReplyAt(agent, p, start, j).Turn?
    ensures !outcome.Failed?
  {
    hide Sent, ReplyAt;
  }

  lemma AnswersDecide(agent: Agent, p: Provider, q: Provider, start: seq<Message>, outcome: Outcome)
    requires EndsWith(agent, p, start, outcome)
    requires forall j | 0 <= j < CallCount(agent, outcome) ::
      ReplyAt(agent, p, start, j) == q.Answer(j, Sent(agent, p, start, j))
    ensures EndsWith(agent, q, start, outcome)
  {
    hide Sent, UsageAfter, GoesOn;
    forall k: nat | k <= CallCount(agent, outcome)
      ensures Sent(agent, p, start, k) == Sent(agent, q, start, k)
      ensures UsageAfter(agent, p, start, k) == UsageAfter(agent, q, start, k)
      ensures k < CallCount(agent, outcome) ==> ReplyAt(agent, p, start, k) == ReplyAt(agent, q, start, k)
    {
      SameAnswersSameRun(agent, p, q, start, k);
    }
  }

  // ---------- The step bound ----------

  /**
   * A run that meets no provider error exceeds its bound exactly when every allowed step went on; the last allowed step
   * then asked for tools, because a nudge is never given on it.
   */
  lemma BoundExceededExactly(agent: Agent, p: Provider, start: seq<Message>, outcome: Outcome)
    requires EndsWith(agent, p, start, outcome) && !outcome.Failed?
    ensures outcome.MaxStepsExceeded? <==> AllGoOn(agent, p, start, StepBound(agent))
    ensures outcome.MaxStepsExceeded? && agent.maxSteps > 0 ==> ReplyAt(agent, p, start, agent.maxSteps - 1).wantsTools
  {
    if AllGoOn(agent, p, start, StepBound(agent)) {
      OutcomeUnique(agent, p, start, outcome, MaxStepsExceeded);
      if agent.maxSteps > 0 {
        assert GoesOn(agent, ReplyAt(agent, p, start, agent.maxSteps - 1), agent.maxSteps);
      }
    }
  }

  // ---------- Well-formed transcripts ----------

  /** Each message with k tool calls is followed at once by exactly k tool messages with their ids, in order. */
  predicate WellFormed(ms: seq<Message>)
    decreases |ms|
  {
    ms == [] ||
    (var k := |ms[0].toolCalls|;
     && ms[0].role != RoleTool
     && 1 + k <= |ms| && Answers(ms[1..1 + k], ms[0].toolCalls)
     && WellFormed(ms[1 + k..]))
  }

  lemma {:induction false} WellFormedConcat(a: seq<Message>, b: seq<Message>)
    requires WellFormed(a)
    ensures WellFormed(a + b) <==> WellFormed(b)
    decreases |a|
  {
    if a == [] {
      assert a + b == b;
    } else {
      var n := 1 + |a[0].toolCalls|;
      assert (a + b)[n..] == a[n..] + b;
      assert (a + b)[1..n] == a[1..n];
      WellFormedConcat(a[n..], b);
    }
  }

  lemma PlainIsWellFormed(m: Message)
    requires m.role != RoleTool && m.toolCalls == []
    ensures WellFormed([m])
  {
    assert [m][1..] == [];
  }

  lemma AnsweredIsWellFormed(agent: Agent, m: Message)
    requires m.role != RoleTool
    ensures WellFormed([m] + ToolMessages(agent, m.toolCalls))
  {
    var ms := [m] + ToolMessages(agent, m.toolCalls);
    assert ms[1..1 + |m.toolCalls|] == ToolMessages(agent, m.toolCalls);
    assert ms[1 + |m.toolCalls|..] == [];
  }

  /** The tool calls of a reply were run, or there were none. */
  predicate Honoured(reply: Reply) {
    reply.Turn? ==> reply.wantsTools || reply.message.toolCalls == []
  }

  predicate NoToolRole(reply: Reply) {
    reply.Turn? ==> reply.message.role != RoleTool
  }

  lemma UnansweredHead(ms: seq<Message>)
    requires |ms| >= 2 && ms[0].toolCalls != [] && ms[1].role != RoleTool
    ensures !WellFormed(ms)
  {
    var k := |ms[0].toolCalls|;
    if 1 + k <= |ms| {
      assert ms[1..1 + k][0] == ms[1];
    }
  }

  lemma RoundIsWellFormed(agent: Agent, reply: Reply)
    requires reply.Turn? && NoToolRole(reply)
    ensures WellFormed([reply.message] + FollowUp(agent, reply)) <==> Honoured(reply)
  {
    if reply.wantsTools {
      AnsweredIsWellFormed(agent, reply.message);
    } else {
      var nudge := Message(RoleUser, NUDGE, [], "");
      var ms := [reply.message, nudge];
      assert [reply.message] + FollowUp(agent, reply) == ms;
      PlainIsWellFormed(nudge);
      if reply.message.toolCalls == [] {
        assert ms[1..] == [nudge];
      } else {
        UnansweredHead(ms);
      }
    }
  }

  /** From message i on, `ms` cannot become well formed, whatever is appended. */
  predicate BrokenAt(ms: seq<Message>, i: nat) {
    && i + 1 < |ms| && WellFormed(ms[..i])
    && ms[i].toolCalls != [] && ms[i + 1].role != RoleTool
  }

  lemma BrokenStays(ms: seq<Message>, i: nat, more: seq<Message>)
    requires BrokenAt(ms, i)
    ensures BrokenAt(ms + more, i) && !WellFormed(ms + more)
  {
    var all := ms + more;
    assert all[..i] == ms[..i];
    assert all[..i] + all[i..] == all;
    WellFormedConcat(all[..i], all[i..]);
    UnansweredHead(all[i..]);
  }

  predicate AllHonoured(agent: Agent, p: Provider, start: seq<Message>, k: nat) {
    forall j | 0 <= j < k :: Honoured(ReplyAt(agent, p, start, j))
  }

  /**
   * The transcript after k rounds is well formed exactly when each of them ran the tool calls it was given; a round
   * that did not breaks it for good. `broken` is the place.
   */
  lemma {:induction false} TranscriptExact(agent: Agent, p: Provider, start: seq<Message>, k: nat) returns (broken: nat)
    requires WellFormed(start) && AllGoOn(agent, p, start, k)
    requires forall j | 0 <= j < k :: NoToolRole(ReplyAt(agent, p, start, j))
    ensures WellFormed(Sent(agent, p, start, k)) <==> AllHonoured(agent, p, start, k)
    ensures !AllHonoured(agent, p, start, k) ==> BrokenAt(Sent(agent, p, start, k), broken)
  {
    hide Answers, ToolMessages, WellFormed, AddUsage;
    broken := 0;
    if k > 0 {
      broken := TranscriptExact(agent, p, start, k - 1);
      var before, reply := Sent(agent, p, start, k - 1), ReplyAt(agent, p, start, k - 1);
      assert GoesOn(agent, reply, k);
      var round := [reply.message] + FollowUp(agent, reply);
      assert Sent(agent, p, start, k) == before + round;
      if !AllHonoured(agent, p, start, k - 1) {
        BrokenStays(before, broken, round);
      } else {
        WellFormedConcat(before, round);
        RoundIsWellFormed(agent, reply);
        assert AllHonoured(agent, p, start, k) <==> Honoured(reply);
        if !Honoured(reply) {
          broken := |before|;
          assert (before + round)[..broken] == before;
        }
      }
    }
  }

  lemma StartIsWellFormed(agent: Agent, input: string, history: seq<Message>)
    requires WellFormed(history)
    ensures WellFormed(FirstMessages(agent, input, history))
  {
    hide WellFormed;
    var user := Message(RoleUser, input, [], "");
    PlainIsWellFormed(user);
    WellFormedConcat(history, [user]);
    if agent.systemPrompt != "" {
      var system := Message(RoleSystem, agent.systemPrompt, [], "");
      PlainIsWellFormed(system);
      WellFormedConcat([system], history + [user]);
      assert FirstMessages(agent, input, history) == [system] + (history + [user]);
    } else {
      assert FirstMessages(agent, input, history) == history + [user];
    }
  }

  lemma StreamedSentIsWellFormed(agent: Agent, stream: (nat, seq<Message>) -> Round, start: seq<Message>, k: nat)
    requires WellFormed(start) && AllGoOn(agent, Streaming(stream), start, k)
    ensures WellFormed(Sent(agent, Streaming(stream), start, k))
  {
    var _ := TranscriptExact(agent, Streaming(stream), start, k);
  }

  /**
   * Given a well-formed history, every list the streaming loop hands to the provider or returns, partial results of
   * cancelled runs included, is well formed.
   */
  lemma StreamingTranscripts(agent: Agent, stream: (nat, seq<Message>) -> Round, input: string, history: seq<Message>,
                             outcome: Outcome, calls: seq<seq<Message>>, done: nat)
    requires WellFormed(history)
    requires var p, start := Streaming(stream), FirstMessages(agent, input, history);
             && CallsMade(agent, p, start, calls)
             && (outcome.Cancelled? ==> CancelledAfter(agent, p, start, outcome.partial, done))
             && (!outcome.Cancelled? ==> EndsWith(agent, p, start, outcome))
    ensures forall j | 0 <= j < |calls| :: WellFormed(calls[j])
    ensures outcome.Cancelled? ==> WellFormed(outcome.partial.messages)
    ensures outcome.Finished? ==> WellFormed(outcome.result.messages)
  {
    hide Sent, WellFormed, UsageAfter, ContentAfter, CancelledInStream, CancelledBetween, FirstMessages;
    var p, start := Streaming(stream), FirstMessages(agent, input, history);
    StartIsWellFormed(agent, input, history);
    forall j | 0 <= j < |calls| ensures WellFormed(calls[j]) {
      StreamedSentIsWellFormed(agent, stream, start, j);
    }
    match outcome {
      case Cancelled(partial) =>
        StreamedSentIsWellFormed(agent, stream, start, done);
      case Finished(r) =>
        StreamedSentIsWellFormed(agent, stream, start, r.steps - 1);
        var last := ReplyAt(agent, p, start, r.steps - 1);
        PlainIsWellFormed(last.message);
        WellFormedConcat(Sent(agent, p, start, r.steps - 1), [last.message]);
      case _ =>
    }
  }

  /**
   * The blocking loop keeps the transcript well formed exactly when no reply has tool calls under another finish reason
   * than "tool_calls": such calls are never answered, on the way or at the end.
   */
  lemma BlockingTranscriptExact(agent: Agent, p: Provider, input: string, history: seq<Message>, r: RunResult)
    requires WellFormed(history)
    requires var start := FirstMessages(agent, input, history);
             && EndsWith(agent, p, start, Finished(r))
             && forall j | 0 <= j < r.steps :: NoToolRole(ReplyAt(agent, p, start, j))
    ensures WellFormed(r.messages) <==> AllHonoured(agent, p, FirstMessages(agent, input, history), r.steps)
  {
    hide Sent, UsageAfter, WellFormed, FirstMessages, BrokenAt, AllHonoured, GoesOn, AddUsage, NoToolRole;
    var start := FirstMessages(agent, input, history);
    StartIsWellFormed(agent, input, history);
    HonouredLast(agent, p, start, r.steps);
    LastIsPlain(agent, p, start, r);
    var broken := TranscriptExact(agent, p, start, r.steps - 1);
    var before, last := Sent(agent, p, start, r.steps - 1), ReplyAt(agent, p, start, r.steps - 1);
    if AllHonoured(agent, p, start, r.steps - 1) {
      WellFormedConcat(before, [last.message]);
      LoneMessage(last.message);
    } else {
      BrokenStays(before, broken, [last.message]);
    }
  }

  lemma HonouredLast(agent: Agent, p: Provider, start: seq<Message>, k: nat)
    requires k > 0
    ensures AllHonoured(agent, p, start, k)
        <==> AllHonoured(agent, p, start, k - 1) && Honoured(ReplyAt(agent, p, start, k - 1))
  {
  }

  lemma LastIsPlain(agent: Agent, p: Provider, start: seq<Message>, r: RunResult)
    requires EndsWith(agent, p, start, Finished(r)) && NoToolRole(ReplyAt(agent, p, start, r.steps - 1))
    ensures var last := ReplyAt(agent, p, start, r.steps - 1);
            && last.Turn? && last.message.role != RoleTool && (Honoured(last) <==> last.message.toolCalls == [])
  {
    hide Sent, UsageAfter, AllGoOn, Provider.Answer, AddUsage, ReplyAt;
  }

  lemma LoneMessage(m: Message)
    requires m.role != RoleTool
    ensures WellFormed([m]) <==> m.toolCalls == []
  {
    if m.toolCalls == [] {
      PlainIsWellFormed(m);
    }
  }
}
