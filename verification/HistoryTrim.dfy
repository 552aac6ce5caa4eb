/** The processors that shorten the history before each model call (processor.go). */
module HistoryTrim {
  import opened LlmTypes

  const TRUNCATED := "\n...[truncated]"

  /** What a processor may change before a step. */
  class StepInput {
    var messages: seq<Message>
    var systemMessages: seq<Message>
    var stepNumber: int

    constructor (messages: seq<Message>, systemMessages: seq<Message>, stepNumber: int)
      ensures this.messages == messages && this.systemMessages == systemMessages && this.stepNumber == stepNumber
    {
      this.messages := messages;
      this.systemMessages := systemMessages;
      this.stepNumber := stepNumber;
    }
  }

  // ---------- The token limiter ----------

  /** One token for each four characters, rounded up. */
  function EstimateTokens(s: string): (tokens: nat)
    ensures 4 * tokens >= |s| > 4 * (tokens - 1)
  {
    (|s| + 3) / 4
  }

  function Cost(messages: seq<Message>): nat {
    if messages == [] then 0 else EstimateTokens(messages[0].content) + Cost(messages[1..])
  }

  /** The last n messages. */
  function Newest(messages: seq<Message>, n: nat): seq<Message>
    requires n <= |messages|
  {
    messages[|messages| - n..]
  }

  /** The longest affordable suffix, or the last message alone when no suffix of one or more is affordable. */
  ghost predicate LongestAffordable(messages: seq<Message>, budget: int, kept: seq<Message>) {
    && |kept| <= |messages|
    && kept == Newest(messages, |kept|)
    && (messages != [] ==> kept != [])
    && (Cost(kept) <= budget || |kept| <= 1)
    && forall n | |kept| < n <= |messages| :: Cost(Newest(messages, n)) > budget
  }

  lemma {:induction false} CostSuffix(messages: seq<Message>, n: nat, m: nat)
    requires n <= m <= |messages|
    ensures Cost(Newest(messages, n)) <= Cost(Newest(messages, m))
    decreases m
  {
    if n < m {
      CostSuffix(messages, n, m - 1);
      assert Newest(messages, m)[1..] == Newest(messages, m - 1);
    }
  }

  /** Each history and budget have exactly one such suffix. */
  lemma LongestUnique(messages: seq<Message>, budget: int, a: seq<Message>, b: seq<Message>)
    requires LongestAffordable(messages, budget, a) && LongestAffordable(messages, budget, b)
    ensures a == b
  {
    if |a| < |b| {
      LongestAtLeast(messages, budget, a, b);
    } else if |b| < |a| {
      LongestAtLeast(messages, budget, b, a);
    }
  }

  lemma LongestAtLeast(messages: seq<Message>, budget: int, short: seq<Message>, long: seq<Message>)
    requires LongestAffordable(messages, budget, short) && LongestAffordable(messages, budget, long)
    ensures |short| >= |long|
  {
    hide Cost, Newest;
  }

  /**
   * Limiters compose: one budget after another leaves what the smaller of the two alone leaves. With equal budgets this
   * is idempotence.
   */
  lemma LimitersCompose(messages: seq<Message>, first: int, second: int, once: seq<Message>, twice: seq<Message>)
    requires LongestAffordable(messages, first, once) && LongestAffordable(once, second, twice)
    ensures LongestAffordable(messages, if first < second then first else second, twice)
  {
    assert twice == Newest(messages, |twice|);
    assert Newest(once, |once|) == once;
    var least := if first < second then first else second;
    forall n | |twice| < n <= |messages| ensures Cost(Newest(messages, n)) > least {
      if n <= |once| {
        assert Newest(messages, n) == Newest(once, n);
      }
    }
  }

  lemma LimiterIdempotent(messages: seq<Message>, budget: int, once: seq<Message>, twice: seq<Message>)
    requires LongestAffordable(messages, budget, once) && LongestAffordable(once, budget, twice)
    ensures twice == once
  {
    LimitersCompose(messages, budget, budget, once, twice);
    LongestUnique(messages, budget, once, twice);
  }

  function Reversed(s: seq<Message>): (r: seq<Message>)
    ensures |r| == |s| && forall k | 0 <= k < |s| :: r[k] == s[|s| - 1 - k]
  {
    seq(|s|, k requires 0 <= k < |s| => s[|s| - 1 - k])
  }

  /** Swaps inwards from both ends of the first n places. */
  method ReverseFront(kept: array<Message>, n: nat)
    requires n <= kept.Length
    modifies kept
    ensures kept[..n] == Reversed(old(kept[..n]))
  {
    if n == 0 {
      return;
    }
    var i, j := 0, n - 1;
    while i < j
      invariant 0 <= i <= j + 1 <= n && i + j == n - 1
      invariant forall k | 0 <= k < i || j < k < n :: kept[k] == old(kept[n - 1 - k])
      invariant forall k | i <= k <= j :: kept[k] == old(kept[k])
      decreases j - i
    {
      kept[i], kept[j] := kept[j], kept[i];
      i, j := i + 1, j - 1;
    }
  }

  /** The budget that the system messages leave. */
  function BudgetLeft(maxTokens: int, systemMessages: seq<Message>): int {
    maxTokens - Cost(systemMessages)
  }

  method TokenBudget(maxTokens: int, systemMessages: seq<Message>) returns (budget: int)
    ensures budget == BudgetLeft(maxTokens, systemMessages)
  {
    budget := maxTokens;
    for i := 0 to |systemMessages|
      invariant budget - Cost(systemMessages[i..]) == maxTokens - Cost(systemMessages)
    {
      assert systemMessages[i..][1..] == systemMessages[i + 1..];
      budget := budget - EstimateTokens(systemMessages[i].content);
    }
  }

  lemma NewestCost(messages: seq<Message>, n: nat)
    requires n < |messages|
    ensures Cost(Newest(messages, n + 1))
        == EstimateTokens(messages[|messages| - 1 - n].content) + Cost(Newest(messages, n))
    ensures Reversed(Newest(messages, n + 1)) == Reversed(Newest(messages, n)) + [messages[|messages| - 1 - n]]
  {
    assert Newest(messages, n + 1)[1..] == Newest(messages, n);
  }

  lemma ReversedTwice(s: seq<Message>)
    ensures Reversed(Reversed(s)) == s
  {
  }

  /** The loop may stop at n messages when the next does not fit, or when all are kept. */
  lemma StopsAtLongest(messages: seq<Message>, budget: int, n: nat)
    requires n <= |messages| && (messages != [] ==> n > 0)
    requires Cost(Newest(messages, n)) <= budget || n <= 1
    requires n < |messages| ==> Cost(Newest(messages, n + 1)) > budget
    ensures LongestAffordable(messages, budget, Newest(messages, n))
  {
    hide Cost;
    forall m | n < m <= |messages| ensures Cost(Newest(messages, m)) > budget {
      CostSuffix(messages, n + 1, m);
    }
  }

  /** Keeps messages from the newest on while the budget lasts, then restores their order. */
  method LimitTokens(maxTokens: int, input: StepInput)
    modifies input`messages
    ensures LongestAffordable(old(input.messages), BudgetLeft(maxTokens, input.systemMessages), input.messages)
    ensures KeepsWhatFits(old(input.messages), input.systemMessages, maxTokens, input.messages)
  {
    hide Cost, LongestAffordable, Newest, Reversed, EstimateTokens, BudgetLeft, KeepsWhatFits;
    var messages := input.messages;
    var budget := TokenBudget(maxTokens, input.systemMessages);
    ghost var start := budget;
    var kept := new Message[|messages|];
    var n := 0;
    NothingKept(messages);
    while n < |messages|
      invariant n <= |messages| == kept.Length
      invariant kept[..n] == Reversed(Newest(messages, n))
      invariant budget == start - Cost(Newest(messages, n))
      invariant budget >= 0 || n <= 1
    {
      var cost := EstimateTokens(messages[|messages| - 1 - n].content);
      NewestCost(messages, n);
      if budget - cost < 0 && n > 0 {
        break;
      }
      budget := budget - cost;
      kept[n] := messages[|messages| - 1 - n];
      n := n + 1;
    }
    StopsAtLongest(messages, start, n);
    ReversedTwice(Newest(messages, n));
    ReverseFront(kept, n);
    LongestIsWhatFits(messages, input.systemMessages, maxTokens, kept[..n]);
    input.messages := kept[..n];
  }

  // ---------- What the limiter keeps, in characters ----------

  /** The characters of all contents, each content rounded up to a multiple of four. */
  function Padded(messages: seq<Message>): nat {
    if messages == [] then 0
    else
      var size := |messages[|messages| - 1].content|;
      Padded(messages[..|messages| - 1]) + size + if size % 4 == 0 then 0 else 4 - size % 4
  }

  /**
   * A suffix, not empty unless the history is. More than one message is kept only if the padded contents and system
   * messages take up to four characters for each token; one message more would take more than that.
   */
  ghost predicate KeepsWhatFits(messages: seq<Message>, systemMessages: seq<Message>, maxTokens: int,
                                kept: seq<Message>)
  {
    && (exists dropped :: messages == dropped + kept)
    && (messages != [] ==> kept != [])
    && (|kept| > 1 ==> Padded(systemMessages) + Padded(kept) <= 4 * maxTokens)
    && forall dropped, next | messages == dropped + ([next] + kept) ::
         Padded(systemMessages) + Padded([next] + kept) > 4 * maxTokens
  }

  lemma CostSnoc(front: seq<Message>, last: Message)
    ensures Cost(front + [last]) == Cost(front) + EstimateTokens(last.content)
    decreases |front|
  {
    if front == [] {
      assert front + [last] == [last] && [last][1..] == [];
    } else {
      assert (front + [last])[1..] == front[1..] + [last];
      CostSnoc(front[1..], last);
    }
  }

  lemma QuarterIsPadded(s: string)
    ensures 4 * EstimateTokens(s) == |s| + if |s| % 4 == 0 then 0 else 4 - |s| % 4
  {
  }

  lemma {:induction false} CostIsPadded(messages: seq<Message>)
    ensures 4 * Cost(messages) == Padded(messages)
    decreases |messages|
  {
    hide EstimateTokens;
    if messages != [] {
      var n := |messages| - 1;
      CostIsPadded(messages[..n]);
      QuarterIsPadded(messages[n].content);
      CostSnoc(messages[..n], messages[n]);
      assert messages == messages[..n] + [messages[n]];
    }
  }

  lemma LongestIsWhatFits(messages: seq<Message>, systemMessages: seq<Message>, maxTokens: int, kept: seq<Message>)
    requires LongestAffordable(messages, BudgetLeft(maxTokens, systemMessages), kept)
    ensures KeepsWhatFits(messages, systemMessages, maxTokens, kept)
  {
    hide Cost, Padded;
    CostIsPadded(systemMessages);
    CostIsPadded(kept);
    assert messages == messages[..|messages| - |kept|] + kept;
    forall dropped, next | messages == dropped + ([next] + kept)
      ensures Padded(systemMessages) + Padded([next] + kept) > 4 * maxTokens
    {
      CostIsPadded([next] + kept);
      assert Newest(messages, |kept| + 1) == [next] + kept;
    }
  }

  lemma NothingKept(messages: seq<Message>)
    ensures Newest(messages, 0) == [] == Reversed([]) && Cost([]) == 0
  {
  }

  // ---------- The tool-result pruner ----------

  /** A tool result over the limit is cut at it; the slice of a negative limit is out of range (see Panics). */
  function Shortened(m: Message, maxResultLen: int): Message {
    if m.role.RoleTool? && |m.content| > maxResultLen && maxResultLen >= 0
    then m.(content := m.content[..maxResultLen] + TRUNCATED) else m
  }

  /** Every message older than the last keepRecent is shortened, from the third step on. */
  function Pruned(messages: seq<Message>, stepNumber: int, maxResultLen: int, keepRecent: int): (pruned: seq<Message>)
    ensures |pruned| == |messages|
    ensures forall i | 0 <= i < |messages| && |messages| - i <= keepRecent :: pruned[i] == messages[i]
  {
    if stepNumber < 2 then messages
    else
      seq(|messages|, i requires 0 <= i < |messages| =>
        if i < |messages| - keepRecent then Shortened(messages[i], maxResultLen) else messages[i])
  }

  /** The loop runs past the end of the messages, or slices a tool result at a negative limit. */
  predicate Panics(messages: seq<Message>, stepNumber: int, maxResultLen: int, keepRecent: int) {
    && stepNumber >= 2
    && (|| keepRecent < 0
        || (maxResultLen < 0 && exists i :: 0 <= i < |messages| - keepRecent && messages[i].role.RoleTool?))
  }

  lemma ShortenedTwice(m: Message, maxResultLen: int)
    ensures Shortened(Shortened(m, maxResultLen), maxResultLen) == Shortened(m, maxResultLen)
  {
    if m.role.RoleTool? && |m.content| > maxResultLen >= 0 {
      assert (m.content[..maxResultLen] + TRUNCATED)[..maxResultLen] == m.content[..maxResultLen];
    }
  }

  /** A shortened result is longer than the limit by the marker alone, and shortening it again changes nothing. */
  lemma PrunerIdempotent(messages: seq<Message>, stepNumber: int, maxResultLen: int, keepRecent: int)
    ensures var once := Pruned(messages, stepNumber, maxResultLen, keepRecent);
            && Pruned(once, stepNumber, maxResultLen, keepRecent) == once
            && forall i | 0 <= i < |messages| ::
                 && once[i].role == messages[i].role
                 && once[i].toolCallId == messages[i].toolCallId
                 && once[i].toolCalls == messages[i].toolCalls
                 && (stepNumber >= 2 && i < |messages| - keepRecent && messages[i].role.RoleTool? && maxResultLen >= 0
                     ==> |once[i].content| <= maxResultLen + |TRUNCATED|)
  {
    forall i | 0 <= i < |messages|
      ensures Shortened(Shortened(messages[i], maxResultLen), maxResultLen) == Shortened(messages[i], maxResultLen)
    {
      ShortenedTwice(messages[i], maxResultLen);
    }
  }

  /** The messages after n turns of the loop. */
  ghost predicate PrunedUpTo(before: seq<Message>, maxResultLen: int, n: int, now: seq<Message>) {
    && 0 <= n <= |before| == |now|
    && forall k | 0 <= k < |before| :: now[k] == if k < n then Shortened(before[k], maxResultLen) else before[k]
  }

  /** From the third step on, old tool results over the limit are cut at it, with a marker; the rest is as it was. */
  ghost predicate OldResultsCut(before: seq<Message>, after: seq<Message>, step: int, maxResultLen: int,
                                keepRecent: int)
  {
    && |after| == |before|
    && forall i | 0 <= i < |before| ::
         if step >= 2 && i + keepRecent < |before| && before[i].role == RoleTool && |before[i].content| > maxResultLen
         then after[i].content == before[i].content[..if maxResultLen < 0 then 0 else maxResultLen] + TRUNCATED
              && after[i] == before[i].(content := after[i].content)
         else after[i] == before[i]
  }

  lemma PrunedCutsOld(messages: seq<Message>, stepNumber: int, maxResultLen: int, keepRecent: int)
    requires !Panics(messages, stepNumber, maxResultLen, keepRecent)
    ensures var pruned := Pruned(messages, stepNumber, maxResultLen, keepRecent);
            OldResultsCut(messages, pruned, stepNumber, maxResultLen, keepRecent)
  {
  }

  /** `ok` is false where the source panics, in the middle of its loop: what was pruned by then stays so. */
  method PruneToolResults(maxResultLen: int, keepRecent: int, input: StepInput) returns (ok: bool)
    modifies input`messages
    ensures ok <==> !Panics(old(input.messages), input.stepNumber, maxResultLen, keepRecent)
    ensures ok ==> input.messages == Pruned(old(input.messages), input.stepNumber, maxResultLen, keepRecent)
    ensures ok ==> OldResultsCut(old(input.messages), input.messages, input.stepNumber, maxResultLen, keepRecent)
    ensures !ok ==> exists n :: PrunedUpTo(old(input.messages), maxResultLen, n, input.messages)
    ensures !ok ==> input.stepNumber >= 2 && (keepRecent < 0 || maxResultLen < 0)
    ensures input.stepNumber >= 2 && keepRecent < 0 ==> !ok
  {
    hide OldResultsCut;
    if !Panics(input.messages, input.stepNumber, maxResultLen, keepRecent) {
      PrunedCutsOld(input.messages, input.stepNumber, maxResultLen, keepRecent);
    }
    if input.stepNumber < 2 {
      return true;
    }
    var cutoff := |input.messages| - keepRecent;
    if cutoff <= 0 {
      return true;
    }
    ghost var before := input.messages;
    for i := 0 to cutoff
      invariant PrunedUpTo(before, maxResultLen, i, input.messages)
      invariant maxResultLen < 0 ==> forall k | 0 <= k < i :: !before[k].role.RoleTool?
    {
      if i == |input.messages| {
        return false;
      }
      var msg := input.messages[i];
      if msg.role.RoleTool? && |msg.content| > maxResultLen {
        if maxResultLen < 0 {
          return false;
        }
        input.messages := input.messages[i := msg.(content := msg.content[..maxResultLen] + TRUNCATED)];
      }
    }
    ok := true;
  }
}
