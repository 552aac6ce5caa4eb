/** What the history processors do to a well-formed tool-call transcript (processor.go). */
module TrimmedTranscripts {
  import opened LlmTypes
  import opened HistoryTrim
  import opened Transcripts
  import AgentLoops

  /** A suffix of a well-formed transcript is well formed exactly when it does not start with a tool message. */
  lemma {:induction false} SuffixWellFormed(ms: seq<Message>, i: nat)
    requires WellFormed(ms) && i < |ms|
    ensures WellFormed(ms[i..]) <==> ms[i].role != RoleTool
    decreases |ms|
  {
    var n := 1 + |ms[0].toolCalls|;
    if i == 0 {
      assert ms[i..] == ms;
    } else if i < n {
      assert ms[i] == ms[1..n][i - 1];
    } else if i < |ms| {
      SuffixWellFormed(ms[n..], i - n);
      assert ms[n..][i - n..] == ms[i..];
    }
  }

  /**
   * The limiter's cut is before message p: what is left is affordable or one message, and one more would be too
   * many.
   */
  predicate CutsBefore(ms: seq<Message>, budget: int, p: int) {
    && 0 <= p < |ms|
    && (Cost(ms[p..]) <= budget || p == |ms| - 1)
    && (p == 0 || Cost(ms[p - 1..]) > budget)
  }

  lemma TooMuchBefore(ms: seq<Message>, budget: int, kept: seq<Message>, p: int)
    requires LongestAffordable(ms, budget, kept) && 0 <= p < |ms| - |kept|
    ensures Cost(ms[p..]) > budget
  {
    hide Cost;
    assert ms[p..] == Newest(ms, |ms| - p);
  }

  lemma AffordableAfter(ms: seq<Message>, budget: int, kept: seq<Message>, p: int)
    requires LongestAffordable(ms, budget, kept) && |ms| - |kept| < p < |ms|
    ensures Cost(ms[p - 1..]) <= budget
  {
    hide Cost;
    CostSuffix(ms, |ms| - p + 1, |kept|);
    assert ms[p - 1..] == Newest(ms, |ms| - p + 1);
  }

  /** There is exactly one such place, and the limiter cuts there. */
  lemma CutIsThere(ms: seq<Message>, budget: int, kept: seq<Message>, p: int)
    requires LongestAffordable(ms, budget, kept)
    ensures CutsBefore(ms, budget, p) <==> ms != [] && p == |ms| - |kept|
  {
    hide Cost;
    var cut := |ms| - |kept|;
    assert kept == ms[cut..] by { assert kept == Newest(ms, |kept|); }
    if cut > 0 {
      TooMuchBefore(ms, budget, kept, cut - 1);
    }
    if 0 <= p < cut {
      TooMuchBefore(ms, budget, kept, p);
    } else if cut < p < |ms| {
      AffordableAfter(ms, budget, kept, p);
    }
  }

  /**
   * The limiter cuts a tool round in two exactly when the message at the budget's cut is a tool message: both
   * history and budget are known before the call.
   */
  lemma LimiterKeepsTranscript(ms: seq<Message>, budget: int, kept: seq<Message>)
    requires WellFormed(ms) && LongestAffordable(ms, budget, kept)
    ensures WellFormed(kept) <==> !exists p :: CutsBefore(ms, budget, p) && ms[p].role == RoleTool
  {
    hide WellFormed, Cost, CutsBefore;
    var cut := |ms| - |kept|;
    forall p ensures CutsBefore(ms, budget, p) <==> ms != [] && p == cut {
      CutIsThere(ms, budget, kept, p);
    }
    if ms == [] {
      NothingSent();
    } else {
      SuffixWellFormed(ms, cut);
      assert CutsBefore(ms, budget, cut);
    }
  }

  lemma NothingSent()
    ensures WellFormed([])
  {
  }

  /** It can: an assistant message whose tool result alone fits the budget. */
  lemma LimiterCanSplitRound()
    ensures var ms := [Message(RoleAssistant, "abcd", [ToolCall("c", "function", "f", "{}")], ""),
                       Message(RoleTool, "efgh", [], "c")];
            WellFormed(ms) && LongestAffordable(ms, 1, ms[1..]) && !WellFormed(ms[1..])
  {
    var ms := [Message(RoleAssistant, "abcd", [ToolCall("c", "function", "f", "{}")], ""),
               Message(RoleTool, "efgh", [], "c")];
    assert ms[1..2] == [ms[1]] && ms[2..] == [];
    assert Cost(ms[1..]) == 1 by { assert ms[1..][1..] == []; }
    assert Cost(ms) == 2;
    assert Newest(ms, 1) == ms[1..] && Newest(ms, 2) == ms;
  }

  ghost predicate SameShape(a: Message, b: Message) {
    a.role == b.role && a.toolCalls == b.toolCalls && a.toolCallId == b.toolCallId
  }

  ghost predicate AllSameShape(a: seq<Message>, b: seq<Message>) {
    |a| == |b| && forall i | 0 <= i < |a| :: SameShape(a[i], b[i])
  }

  lemma ShapeAnswers(a: seq<Message>, b: seq<Message>, calls: seq<ToolCall>)
    requires AllSameShape(a, b)
    ensures AgentLoops.Answers(a, calls) <==> AgentLoops.Answers(b, calls)
  {
  }

  lemma ShapeSlices(a: seq<Message>, b: seq<Message>, n: nat)
    requires AllSameShape(a, b) && 1 <= n <= |a|
    ensures SameShape(a[0], b[0]) && AllSameShape(a[1..n], b[1..n]) && AllSameShape(a[n..], b[n..])
  {
    assert SameShape(a[0], b[0]);
    forall i | 0 <= i < n - 1 ensures SameShape(a[1..n][i], b[1..n][i]) {
      assert SameShape(a[1 + i], b[1 + i]);
    }
    forall i | 0 <= i < |a| - n ensures SameShape(a[n..][i], b[n..][i]) {
      assert SameShape(a[n + i], b[n + i]);
    }
  }

  /** Being well formed does not depend on the contents. */
  lemma {:induction false} ShapeDecides(a: seq<Message>, b: seq<Message>)
    requires AllSameShape(a, b)
    ensures WellFormed(a) <==> WellFormed(b)
    decreases |a|
  {
    if a != [] {
      ShapeSlices(a, b, 1);
      var n := 1 + |a[0].toolCalls|;
      hide AllSameShape, AgentLoops.Answers;
      if n <= |a| {
        ShapeSlices(a, b, n);
        ShapeAnswers(a[1..n], b[1..n], a[0].toolCalls);
        ShapeDecides(a[n..], b[n..]);
      }
    }
  }

  lemma PrunerKeepsTranscript(ms: seq<Message>, stepNumber: int, maxResultLen: int, keepRecent: int)
    ensures WellFormed(Pruned(ms, stepNumber, maxResultLen, keepRecent)) <==> WellFormed(ms)
  {
    ShapeDecides(Pruned(ms, stepNumber, maxResultLen, keepRecent), ms);
  }
}
