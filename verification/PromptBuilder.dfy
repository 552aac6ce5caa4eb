/** Assembling a system prompt from prioritised sections under a total budget (prompt_builder.go). */
module PromptBuilder {
  import opened Sequences
  import opened PromptText

  const DEFAULT_MAX_CHARS := 120000
  const DEFAULT_SECTION_CAP := 25000
  const MARKER := "\n... [truncated]"

  /** A named block; lower priorities come first and survive longer. Texts are sequences of bytes. */
  datatype Section = Section(name: string, priority: int, content: string, maxChars: int)

  // ---------- The stable sort, by its contract ----------

  /** Inserts behind every section of the same or a lower priority number. */
  function Insert(sorted: seq<Section>, s: Section): seq<Section> {
    var n := |sorted| - 1;
    if sorted == [] || sorted[n].priority <= s.priority then sorted + [s]
    else Insert(sorted[..n], s) + [sorted[n]]
  }

  function StableSort(sections: seq<Section>): seq<Section> {
    if sections == [] then [] else Insert(StableSort(sections[..|sections| - 1]), sections[|sections| - 1])
  }

  predicate Sorted(sections: seq<Section>) {
    forall i, j | 0 <= i < j < |sections| :: sections[i].priority <= sections[j].priority
  }

  /** The sections of one priority, in order. */
  function OfPriority(sections: seq<Section>, p: int): seq<Section> {
    if sections == [] then []
    else
      var last := sections[|sections| - 1];
      OfPriority(sections[..|sections| - 1], p) + if last.priority == p then [last] else []
  }

  lemma OfPrioritySnoc(sections: seq<Section>, s: Section, p: int)
    ensures OfPriority(sections + [s], p) == OfPriority(sections, p) + if s.priority == p then [s] else []
  {
    assert (sections + [s])[..|sections|] == sections;
  }

  ghost predicate AtMost(sections: seq<Section>, p: int) {
    forall s | s in sections :: s.priority <= p
  }

  lemma SortedSnoc(front: seq<Section>, last: Section)
    requires Sorted(front) && AtMost(front, last.priority)
    ensures Sorted(front + [last]) && AtMost(front + [last], last.priority)
  {
  }

  lemma SortedFront(sorted: seq<Section>)
    requires Sorted(sorted) && sorted != []
    ensures var n := |sorted| - 1;
            Sorted(sorted[..n]) && AtMost(sorted[..n], sorted[n].priority) && AtMost(sorted, sorted[n].priority)
  {
  }

  lemma AtMostLater(sections: seq<Section>, p: int, q: int)
    requires AtMost(sections, p) && p <= q
    ensures AtMost(sections, q)
  {
  }

  lemma {:induction false} InsertSorts(sorted: seq<Section>, s: Section, p: int)
    requires Sorted(sorted)
    ensures Sorted(Insert(sorted, s)) && |Insert(sorted, s)| == |sorted| + 1
    ensures AtMost(sorted, p) && s.priority <= p ==> AtMost(Insert(sorted, s), p)
    decreases |sorted|
  {
    hide Sorted;
    var n := |sorted| - 1;
    if sorted == [] {
      SortedSingle(s);
      assert sorted + [s] == [s];
    } else {
      SortedFront(sorted);
      if sorted[n].priority <= s.priority {
        AtMostLater(sorted, sorted[n].priority, s.priority);
        SortedSnoc(sorted, s);
      } else {
        InsertSorts(sorted[..n], s, sorted[n].priority);
        SortedSnoc(Insert(sorted[..n], s), sorted[n]);
      }
    }
  }

  lemma SortedSingle(s: Section)
    ensures Sorted([s])
  {
  }

  lemma {:induction false} InsertLast(sorted: seq<Section>, s: Section, p: int)
    ensures OfPriority(Insert(sorted, s), p) == OfPriority(sorted, p) + if s.priority == p then [s] else []
    decreases |sorted|
  {
    hide OfPriority;
    var n := |sorted| - 1;
    if sorted == [] || sorted[n].priority <= s.priority {
      OfPrioritySnoc(sorted, s, p);
    } else {
      var front, last := sorted[..n], sorted[n];
      InsertLast(front, s, p);
      OfPrioritySnoc(Insert(front, s), last, p);
      OfPrioritySnoc(front, last, p);
      assert sorted == front + [last];
      if s.priority == p {
        assert OfPriority(front, p) + [s] + [] == OfPriority(front, p) + [] + [s];
      } else {
        Units(OfPriority(front, p), if last.priority == p then [last] else []);
      }
    }
  }

  lemma Units<T>(a: seq<T>, b: seq<T>)
    ensures a + [] + b == a + b == a + b + []
  {
  }

  /** The sort orders by priority and keeps the order within each priority. */
  lemma {:induction false} StableSortIsStable(sections: seq<Section>, p: int)
    ensures Sorted(StableSort(sections)) && |StableSort(sections)| == |sections|
    ensures OfPriority(StableSort(sections), p) == OfPriority(sections, p)
    decreases |sections|
  {
    if sections != [] {
      StableSortIsStable(sections[..|sections| - 1], p);
      var front, last := sections[..|sections| - 1], sections[|sections| - 1];
      InsertSorts(StableSort(front), last, 0);
      InsertLast(StableSort(front), last, p);
    }
  }

  lemma {:induction false} FoundOfPriority(sections: seq<Section>, p: int)
    ensures (OfPriority(sections, p) != []) == exists s :: s in sections && s.priority == p
    decreases |sections|
  {
    if sections != [] {
      var n := |sections| - 1;
      FoundOfPriority(sections[..n], p);
      assert sections == sections[..n] + [sections[n]];
    }
  }

  lemma LastIsFound(a: seq<Section>, b: seq<Section>, p: int)
    requires a != [] && p == a[|a| - 1].priority && OfPriority(a, p) == OfPriority(b, p)
    requires Sorted(b) && b != []
    ensures p <= b[|b| - 1].priority
  {
    hide OfPriority;
    FoundOfPriority(a, p);
    FoundOfPriority(b, p);
    assert a[|a| - 1] in a;
    SortedFront(b);
  }

  /** In sorted lists that agree on every priority, the last sections have the same priority. */
  lemma LastAgrees(a: seq<Section>, b: seq<Section>)
    requires Sorted(a) && Sorted(b) && a != [] && b != []
    requires forall p :: OfPriority(a, p) == OfPriority(b, p)
    ensures a[|a| - 1].priority == b[|b| - 1].priority
  {
    hide OfPriority, Sorted;
    LastIsFound(a, b, a[|a| - 1].priority);
    LastIsFound(b, a, b[|b| - 1].priority);
  }

  lemma OfPriorityFront(sections: seq<Section>, p: int)
    requires sections != []
    ensures var n := |sections| - 1;
      OfPriority(sections, p) == OfPriority(sections[..n], p) + if sections[n].priority == p then [sections[n]] else []
  {
  }

  /** That contract determines the result, so any stable sort gives this order. */
  lemma {:induction false} StableOrderUnique(a: seq<Section>, b: seq<Section>)
    requires Sorted(a) && Sorted(b) && forall p :: OfPriority(a, p) == OfPriority(b, p)
    ensures a == b
    decreases |a|
  {
    hide Sorted, OfPriority;
    if a == [] || b == [] {
      NoSections(a, b);
    } else {
      var n, m := |a| - 1, |b| - 1;
      LastAgrees(a, b);
      SortedFront(a);
      SortedFront(b);
      var p := a[n].priority;
      forall q ensures OfPriority(a[..n], q) == OfPriority(b[..m], q) && (q == p ==> a[n] == b[m]) {
        OfPriorityFront(a, q);
        OfPriorityFront(b, q);
        assert OfPriority(a, q) == OfPriority(b, q);
        if q == p {
          SnocEqual(OfPriority(a[..n], q), a[n], OfPriority(b[..m], q), b[m]);
        } else {
          assert OfPriority(a[..n], q) + [] == OfPriority(a[..n], q)
              && OfPriority(b[..m], q) + [] == OfPriority(b[..m], q);
        }
      }
      assert OfPriority(a[..n], p) == OfPriority(b[..m], p);
      StableOrderUnique(a[..n], b[..m]);
      assert a == a[..n] + [a[n]] && b == b[..m] + [b[m]];
    }
  }

  lemma NoSections(a: seq<Section>, b: seq<Section>)
    requires (a == [] || b == []) && forall p :: OfPriority(a, p) == OfPriority(b, p)
    ensures a == b
  {
    if a != [] {
      FoundOfPriority(a, a[0].priority);
    } else if b != [] {
      FoundOfPriority(b, b[0].priority);
    }
  }

  // ---------- The budget ----------

  function Cap(s: Section): (cap: int)
    ensures cap > 0 && cap in [s.maxChars, DEFAULT_SECTION_CAP] && (s.maxChars > 0 ==> cap == s.maxChars)
  {
    if s.maxChars <= 0 then DEFAULT_SECTION_CAP else s.maxChars
  }

  function Capped(s: Section): (text: string)
    ensures |s.content| <= Cap(s) ==> text == s.content
    ensures |s.content| > Cap(s) ==> |text| == Cap(s) + |MARKER| && text[..Cap(s)] == s.content[..Cap(s)]
  {
    if |s.content| > Cap(s) then s.content[..Cap(s)] + MARKER else s.content
  }

  function Budget(maxChars: int): (budget: int)
    ensures budget > 0 && budget in [maxChars, DEFAULT_MAX_CHARS] && (maxChars > 0 ==> budget == maxChars)
  {
    if maxChars <= 0 then DEFAULT_MAX_CHARS else maxChars
  }

  function Total(texts: seq<string>): nat {
    if texts == [] then 0 else Total(texts[..|texts| - 1]) + |texts[|texts| - 1]|
  }

  /** The budget spent from the front: whole texts while they fit, then what is left of the next, then nothing. */
  function Fit(texts: seq<string>, budget: int): seq<string> {
    if texts == [] then []
    else if |texts[0]| <= budget then [texts[0]] + Fit(texts[1..], budget - |texts[0]|)
    else [if budget <= 0 then "" else texts[0][..budget] + MARKER] + Blank(|texts| - 1)
  }

  function Blank(n: nat): (blank: seq<string>)
    ensures |blank| == n
  {
    seq(n, i => "")
  }

  lemma {:induction false} TotalConcat(a: seq<string>, b: seq<string>)
    ensures Total(a + b) == Total(a) + Total(b)
    decreases |b|
  {
    if b == [] {
      assert a + b == a;
    } else {
      assert (a + b)[..|a + b| - 1] == a + b[..|b| - 1];
      TotalConcat(a, b[..|b| - 1]);
    }
  }

  lemma TotalCons(texts: seq<string>)
    requires texts != []
    ensures Total(texts) == |texts[0]| + Total(texts[1..])
  {
    TotalConcat([texts[0]], texts[1..]);
    assert [texts[0]] + texts[1..] == texts;
    assert [texts[0]][..0] == [];
  }

  lemma {:induction false} FitSplit(a: seq<string>, b: seq<string>, budget: int)
    requires Total(a) <= budget
    ensures Fit(a + b, budget) == a + Fit(b, budget - Total(a))
    decreases |a|
  {
    if a == [] {
      assert a + b == b;
    } else {
      TotalCons(a);
      assert (a + b)[1..] == a[1..] + b;
      FitSplit(a[1..], b, budget - |a[0]|);
      assert [a[0]] + a[1..] == a;
    }
  }

  lemma {:induction false} NothingFits(texts: seq<string>)
    ensures Fit(texts, 0) == Blank(|texts|)
    decreases |texts|
  {
    if texts != [] {
      NothingFits(texts[1..]);
    }
  }

  lemma FitWhole(texts: seq<string>, budget: int)
    requires Total(texts) <= budget
    ensures Fit(texts, budget) == texts
  {
    FitSplit(texts, [], budget);
    assert texts + [] == texts;
  }

  lemma {:induction false} BreakingPoint(texts: seq<string>, budget: int) returns (j: nat)
    requires budget >= 0 && Total(texts) > budget
    ensures j < |texts| && Total(texts[..j]) <= budget < Total(texts[..j + 1])
    decreases |texts|
  {
    var n := |texts| - 1;
    if Total(texts[..n]) <= budget {
      j := n;
      assert texts[..n + 1] == texts;
    } else {
      j := BreakingPoint(texts[..n], budget);
      assert texts[..n][..j] == texts[..j] && texts[..n][..j + 1] == texts[..j + 1];
    }
  }

  /** What is left of text j when the budget runs out inside it. */
  function Cut(text: string, left: nat): (cut: string)
    requires left < |text|
    ensures left == 0 ==> cut == ""
    ensures left > 0 ==> |cut| == left + |MARKER| && text[..left] <= cut && MARKER == cut[left..]
  {
    if left == 0 then "" else text[..left] + MARKER
  }

  /**
   * Where the budget runs out at text j, every earlier text is untouched, every later one is empty, and text j keeps
   * just what is left (with a marker, unless nothing is left): the characters retained total exactly the budget.
   */
  lemma CutAt(texts: seq<string>, j: nat, budget: int)
    requires j < |texts| && Total(texts[..j]) <= budget < Total(texts[..j + 1])
    ensures var left := budget - Total(texts[..j]);
            && 0 <= left < |texts[j]|
            && Fit(texts, budget) == texts[..j] + ([Cut(texts[j], left)] + Blank(|texts| - j - 1))
  {
    hide Total;
    TotalFront(texts, j);
    FitSplit(texts[..j], texts[j..], budget);
    assert texts[..j] + texts[j..] == texts;
  }

  lemma TotalFront(texts: seq<string>, j: nat)
    requires j < |texts|
    ensures Total(texts[..j + 1]) == Total(texts[..j]) + |texts[j]|
  {
    assert texts[..j + 1][..j] == texts[..j];
  }

  /** Texts exceeding the budget have such a place j: at most one text is cut partway, all before it are whole. */
  lemma BudgetExact(texts: seq<string>, budget: int) returns (j: nat)
    requires budget >= 0 && Total(texts) > budget
    ensures j < |texts|
    ensures var left := budget - Total(texts[..j]);
            && 0 <= left < |texts[j]|
            && Fit(texts, budget) == texts[..j] + ([Cut(texts[j], left)] + Blank(|texts| - j - 1))
  {
    hide Fit, Total, Blank;
    j := BreakingPoint(texts, budget);
    CutAt(texts, j, budget);
  }

  // ---------- The length of the prompt ----------

  function NonEmpty(texts: seq<string>): nat {
    if texts == [] then 0 else NonEmpty(texts[..|texts| - 1]) + if texts[|texts| - 1] == "" then 0 else 1
  }

  lemma {:induction false} TrimShortens(s: string)
    ensures |TrimNewlines(s)| <= |s|
    decreases |s|
  {
    if EndsInNewline(s) {
      TrimShortens(s[..|s| - 1]);
    }
  }

  lemma TrimTwo(s: string)
    ensures |TrimNewlines(s)| <= |s|
    ensures |s| >= 2 && s[|s| - 1] == '\n' && s[|s| - 2] == '\n' ==> |TrimNewlines(s)| <= |s| - 2
  {
    TrimShortens(s);
    if |s| >= 2 && s[|s| - 1] == '\n' && s[|s| - 2] == '\n' {
      var once := s[..|s| - 1];
      TrimShortens(once[..|once| - 1]);
    }
  }

  lemma BlockBound(front: string, text: string)
    requires text != ""
    ensures |Block(text)| <= |text| + 2 && EndsBlankLine(front + Block(text))
  {
    var b := Block(text);
    assert b[|b| - 2] == '\n';
    assert (front + b)[|front| + |b| - 1] == b[|b| - 1] && (front + b)[|front| + |b| - 2] == b[|b| - 2];
  }

  lemma {:induction false} BlocksBound(texts: seq<string>)
    ensures |Blocks(texts)| <= Total(texts) + 2 * NonEmpty(texts)
    ensures if NonEmpty(texts) == 0 then Blocks(texts) == "" else EndsBlankLine(Blocks(texts))
    decreases |texts|
  {
    hide Block, EndsBlankLine;
    if texts != [] {
      var n := |texts| - 1;
      BlocksBound(texts[..n]);
      if texts[n] == "" {
        NoBlock(Blocks(texts[..n]));
      } else {
        BlockBound(Blocks(texts[..n]), texts[n]);
      }
    }
  }

  /** The rendered prompt adds at most two characters between non-empty texts. */
  lemma RenderBound(texts: seq<string>)
    ensures NonEmpty(texts) == 0 ==> TrimNewlines(Blocks(texts)) == ""
    ensures NonEmpty(texts) > 0 ==> |TrimNewlines(Blocks(texts))| <= Total(texts) + 2 * (NonEmpty(texts) - 1)
  {
    BlocksBound(texts);
    TrimTwo(Blocks(texts));
  }

  // ---------- Build ----------

  function Contents(sections: seq<Section>): (texts: seq<string>)
    ensures |texts| == |sections|
  {
    seq(|sections|, i requires 0 <= i < |sections| => sections[i].content)
  }

  function CappedContents(sections: seq<Section>): (texts: seq<string>)
    ensures |texts| == |sections|
    ensures forall i | 0 <= i < |texts| && |sections[i].content| <= Cap(sections[i]) :: texts[i] == sections[i].content
  {
    seq(|sections|, i requires 0 <= i < |sections| => Capped(sections[i]))
  }

  /** The capped texts, in stable priority order, fitted into the budget. */
  function Fitted(sections: seq<Section>, maxChars: int): seq<string> {
    Fit(CappedContents(StableSort(sections)), Budget(maxChars))
  }

  method CapSections(sorted: array<Section>)
    modifies sorted
    ensures Contents(sorted[..]) == CappedContents(old(sorted[..]))
  {
    ghost var before := sorted[..];
    for i := 0 to sorted.Length
      invariant sorted[i..] == before[i..]
      invariant forall k | 0 <= k < i :: sorted[k].content == Capped(before[k])
    {
      assert sorted[i] == before[i] by { assert sorted[i..][0] == before[i..][0]; }
      var cap := sorted[i].maxChars;
      if cap <= 0 {
        cap := DEFAULT_SECTION_CAP;
      }
      ghost var rest := sorted[i + 1..];
      assert rest == before[i + 1..] by { assert sorted[i..][1..] == rest && before[i..][1..] == before[i + 1..]; }
      if |sorted[i].content| > cap {
        sorted[i] := sorted[i].(content := sorted[i].content[..cap] + MARKER);
      }
      assert sorted[i + 1..] == rest;
    }
  }

  lemma ContentsAt(sections: seq<Section>, i: nat, text: string)
    requires i < |sections|
    ensures Contents(sections[i := sections[i].(content := text)]) == Contents(sections)[i := text]
  {
  }

  lemma BlankOneMore(before: seq<string>, i: nat, text: string)
    requires i < |before|
    ensures (before[..i + 1] + Blank(|before| - i - 1))[i := text] == before[..i] + ([text] + Blank(|before| - i - 1))
    ensures [""] + Blank(|before| - i - 1) == Blank(|before| - i)
  {
  }

  /** Cuts the texts from the back, last section first, until the total is within the budget. */
  method TrimFromBack(sorted: array<Section>, size: nat, maxTotal: int)
    requires maxTotal > 0 && size == Total(Contents(sorted[..]))
    modifies sorted
    ensures Contents(sorted[..]) == Fit(old(Contents(sorted[..])), maxTotal)
  {
    hide Total, Fit, Contents, Blank;
    ghost var before := Contents(sorted[..]);
    var total := size;
    var i := sorted.Length - 1;
    NothingCut(before);
    while i >= 0 && total > maxTotal
      invariant -1 <= i < sorted.Length
      invariant total == Total(before[..i + 1]) && (total >= maxTotal || i == sorted.Length - 1)
      invariant Contents(sorted[..]) == before[..i + 1] + Blank(sorted.Length - i - 1)
      decreases i
    {
      var excess := total - maxTotal;
      ghost var now := sorted[..];
      TotalFront(before, i);
      ContentAt(now, i);
      assert sorted[i].content == before[i];
      BlankOneMore(before, i, "");
      if excess >= |sorted[i].content| {
        total := total - |sorted[i].content|;
        sorted[i] := sorted[i].(content := "");
        assert sorted[..] == now[i := now[i].(content := "")];
        ContentsAt(now, i, "");
        i := i - 1;
      } else {
        // The total becomes maxTotal, so this is the last turn.
        ghost var text := before[i][..|before[i]| - excess] + MARKER;
        sorted[i] := sorted[i].(content := sorted[i].content[..|sorted[i].content| - excess] + MARKER);
        assert sorted[..] == now[i := now[i].(content := text)];
        ContentsAt(now, i, text);
        BlankOneMore(before, i, text);
        CutAt(before, i, maxTotal);
        return;
      }
    }
    FrontFits(before, i, total, maxTotal);
  }

  lemma NothingCut(before: seq<string>)
    ensures before[..|before|] == before && before + Blank(0) == before
  {
    assert Blank(0) == [];
  }

  lemma ContentAt(sections: seq<Section>, i: nat)
    requires i < |sections|
    ensures Contents(sections)[i] == sections[i].content
  {
  }

  /** Where the loop stops, the texts before place i + 1 fit, and they fill the budget unless nothing was cut. */
  lemma FrontFits(before: seq<string>, i: int, total: nat, maxTotal: int)
    requires maxTotal > 0 && -1 <= i < |before| && total == Total(before[..i + 1])
    requires (i < 0 || total <= maxTotal) && (total >= maxTotal || i == |before| - 1)
    ensures Fit(before, maxTotal) == before[..i + 1] + Blank(|before| - i - 1)
  {
    hide Fit;
    var kept, dropped := before[..i + 1], before[i + 1..];
    assert kept + dropped == before;
    FitSplit(kept, dropped, maxTotal);
    if i < |before| - 1 {
      NothingFits(dropped);
    } else {
      FitWhole([], maxTotal - total);
      assert dropped == [] == Blank(0);
    }
  }

  method Size(sorted: array<Section>) returns (total: nat)
    ensures total == Total(Contents(sorted[..]))
  {
    hide Contents;
    total := 0;
    ghost var texts := Contents(sorted[..]);
    for i := 0 to sorted.Length
      invariant total == Total(texts[..i])
    {
      TotalFront(texts, i);
      ContentAt(sorted[..], i);
      total := total + |sorted[i].content|;
    }
    assert texts[..sorted.Length] == texts;
  }

  /** Writes each non-empty text on its own lines with a blank line after it. */
  method Render(sorted: array<Section>) returns (sb: string)
    ensures sb == Blocks(Contents(sorted[..]))
  {
    hide Contents, Blocks;
    sb := "";
    ghost var texts := Contents(sorted[..]);
    NoBlocks(texts);
    for i := 0 to sorted.Length
      invariant sb == Blocks(texts[..i])
    {
      BlocksFront(texts, i);
      ContentAt(sorted[..], i);
      if sorted[i].content == "" {
        assert sb + "" == sb;
        continue;
      }
      sb := sb + sorted[i].content;
      if !EndsInNewline(sorted[i].content) {
        sb := sb + "\n";
      }
      sb := sb + "\n";
      assert sb == Blocks(texts[..i]) + Block(texts[i]);
    }
    assert texts[..sorted.Length] == texts;
  }

  lemma NoBlocks(texts: seq<string>)
    ensures Blocks(texts[..0]) == ""
  {
  }

  lemma NothingToBuild(maxChars: int)
    ensures TrimNewlines(Blocks(Fitted([], maxChars))) == ""
  {
    assert CappedContents(StableSort([])) == [];
  }

  class Builder {
    var sections: seq<Section>
    var maxChars: int

    constructor ()
      ensures sections == [] && maxChars == DEFAULT_MAX_CHARS
    {
      sections, maxChars := [], DEFAULT_MAX_CHARS;
    }

    method Add(section: Section)
      modifies this`sections
      ensures sections == old(sections) + [section]
    {
      sections := sections + [section];
    }

    /** Orders, caps, trims and renders a copy of the sections; the builder itself keeps them as they are. */
    method Build() returns (prompt: string)
      ensures prompt == TrimNewlines(Blocks(Fitted(sections, maxChars)))
      ensures Shows(prompt, Fitted(sections, maxChars))
    {
      hide StableSort, Fit, Total, Blocks, TrimNewlines, Contents, CappedContents, Shows;
      TrimmedBlocksShow(Fitted(sections, maxChars));
      if sections == [] {
        NothingToBuild(maxChars);
        return "";
      }
      var order := StableSort(sections);
      var sorted := new Section[|order|](i requires 0 <= i < |order| => order[i]);
      assert sorted[..] == order;
      var maxTotal := maxChars;
      if maxTotal <= 0 {
        maxTotal := DEFAULT_MAX_CHARS;
      }
      CapSections(sorted);
      var total := Size(sorted);
      TrimFromBack(sorted, total, maxTotal);
      var sb := Render(sorted);
      prompt := TrimNewlines(sb);
    }
  }

  /** The retained texts: within the budget as they are, or exactly the budget and at most one marker. */
  lemma FittedTotal(texts: seq<string>, budget: int)
    requires budget > 0
    ensures Total(texts) <= budget ==> Fit(texts, budget) == texts
    ensures Total(texts) > budget ==> Total(Fit(texts, budget)) == budget || Total(Fit(texts, budget)) == budget + 16
  {
    hide Fit, Blank;
    if Total(texts) <= budget {
      FitWhole(texts, budget);
    } else {
      var j := BudgetExact(texts, budget);
      var mid := Cut(texts[j], budget - Total(texts[..j]));
      TotalConcat(texts[..j], [mid] + Blank(|texts| - j - 1));
      TotalConcat([mid], Blank(|texts| - j - 1));
      assert Total([mid]) == |mid| by { assert [mid][..0] == []; }
      BlankTotal(|texts| - j - 1);
    }
  }

  lemma {:induction false} BlankTotal(n: nat)
    ensures Total(Blank(n)) == 0
  {
    if n > 0 {
      assert Blank(n)[..n - 1] == Blank(n - 1);
      BlankTotal(n - 1);
    }
  }

  /** Within the caps and the budget, the prompt is the sections' contents as they are, in their stable order. */
  lemma SmallPrompt(sections: seq<Section>, maxChars: int, prompt: string)
    requires forall s | s in sections :: |s.content| <= Cap(s) && !EndsInNewline(s.content)
    requires Total(Contents(StableSort(sections))) <= Budget(maxChars)
    requires Shows(prompt, Fitted(sections, maxChars))
    ensures prompt == Joined(Contents(StableSort(sections)))
  {
    hide StableSort, Fit, Total, Joined, EndsInNewline, Cap, Budget;
    var sorted := StableSort(sections);
    forall i | 0 <= i < |sorted|
      ensures CappedContents(sorted)[i] == sorted[i].content && !EndsInNewline(sorted[i].content)
    {
      StableSortIsStable(sections, sorted[i].priority);
      SortedHasNoOther(sections, sorted[i]);
    }
    assert CappedContents(sorted) == Contents(sorted);
    FitWhole(Contents(sorted), Budget(maxChars));
  }

  lemma SortedHasNoOther(sections: seq<Section>, s: Section)
    requires s in StableSort(sections)
    ensures s in sections
  {
    hide StableSort;
    StableSortIsStable(sections, s.priority);
    MembersOfPriority(StableSort(sections), s);
    MembersOfPriority(sections, s);
  }

  lemma {:induction false} MembersOfPriority(sections: seq<Section>, s: Section)
    ensures s in OfPriority(sections, s.priority) <==> s in sections
    decreases |sections|
  {
    if sections != [] {
      var n := |sections| - 1;
      MembersOfPriority(sections[..n], s);
      assert sections == sections[..n] + [sections[n]];
    }
  }

  /** The prompt is at most the budget, one marker, and two characters between non-empty sections. */
  lemma PromptBound(sections: seq<Section>, maxChars: int)
    ensures var texts := Fitted(sections, maxChars);
            && |texts| == |sections|
            && |TrimNewlines(Blocks(texts))| <=
                 if NonEmpty(texts) == 0 then 0 else Budget(maxChars) + |MARKER| + 2 * (NonEmpty(texts) - 1)
  {
    hide Fit, Total, Blocks, TrimNewlines, NonEmpty, StableSort;
    StableSortIsStable(sections, 0);
    FitLength(CappedContents(StableSort(sections)), Budget(maxChars));
    FittedTotal(CappedContents(StableSort(sections)), Budget(maxChars));
    RenderBound(Fitted(sections, maxChars));
  }

  lemma {:induction false} FitLength(texts: seq<string>, budget: int)
    ensures |Fit(texts, budget)| == |texts|
    decreases |texts|
  {
    if texts != [] {
      FitLength(texts[1..], budget - |texts[0]|);
    }
  }
}
