/** The text of a prompt: how the non-empty texts are written one below the other (prompt_builder.go). */
module PromptText {
  import opened LlmTypes

  function EndsInNewline(s: string): bool {
    s != "" && s[|s| - 1] == '\n'
  }

  function Block(text: string): string {
    if text == "" then "" else text + (if EndsInNewline(text) then "" else "\n") + "\n"
  }

  function Blocks(texts: seq<string>): string {
    if texts == [] then "" else Blocks(texts[..|texts| - 1]) + Block(texts[|texts| - 1])
  }

  function TrimNewlines(s: string): string {
    if EndsInNewline(s) then TrimNewlines(s[..|s| - 1]) else s
  }

  ghost predicate EndsBlankLine(s: string) {
    |s| >= 2 && s[|s| - 1] == '\n' && s[|s| - 2] == '\n'
  }

  lemma BlocksFront(texts: seq<string>, j: nat)
    requires j < |texts|
    ensures Blocks(texts[..j + 1]) == Blocks(texts[..j]) + Block(texts[j])
  {
    assert texts[..j + 1][..j] == texts[..j];
  }

  lemma NoBlock(front: string)
    ensures front + Block("") == front
  {
  }

  // ---------- What the prompt shows ----------

  /** The non-empty texts with a blank line between them. */
  function Joined(texts: seq<string>): string {
    if texts == [] then ""
    else
      var front, last := Joined(texts[..|texts| - 1]), texts[|texts| - 1];
      if last == "" then front else if front == "" then last else front + "\n\n" + last
  }

  function DropNewlines(s: string): string {
    if s == "" then "" else DropNewlines(s[..|s| - 1]) + if s[|s| - 1] == '\n' then "" else [s[|s| - 1]]
  }

  /** The text is a contiguous part of the prompt, and a blank line follows it. */
  ghost predicate Paragraph(prompt: string, text: string) {
    exists before, gap, after ::
      StandsIn(prompt, before, text, gap, after) && gap in ["\n", "\n\n"] && EndsBlankLine(text + gap)
  }

  ghost predicate StandsIn(prompt: string, before: string, text: string, gap: string, after: string) {
    prompt == before + (text + gap) + after
  }

  /**
   * What a prompt promises of its texts: nothing but newlines is lost or added, texts without a final newline are
   * separated by blank lines, and a text that something follows is there as it is with a blank line after it.
   */
  ghost predicate Shows(prompt: string, texts: seq<string>) {
    && DropNewlines(prompt) == DropNewlines(Concat(texts))
    && ((forall t | t in texts :: !EndsInNewline(t)) ==> prompt == Joined(texts))
    && !EndsInNewline(prompt)
    && forall i, j | 0 <= i < j < |texts| && texts[i] != "" && DropNewlines(texts[j]) != "" ::
         Paragraph(prompt, texts[i])
  }

  lemma {:induction false} DropConcat(a: string, b: string)
    ensures DropNewlines(a + b) == DropNewlines(a) + DropNewlines(b)
    decreases |b|
  {
    if b == "" {
      assert a + b == a;
    } else {
      assert (a + b)[..|a + b| - 1] == a + b[..|b| - 1];
      DropConcat(a, b[..|b| - 1]);
    }
  }

  lemma {:induction false} TrimDrops(s: string)
    ensures DropNewlines(TrimNewlines(s)) == DropNewlines(s) && !EndsInNewline(TrimNewlines(s))
    decreases |s|
  {
    if EndsInNewline(s) {
      TrimDrops(s[..|s| - 1]);
    }
  }

  lemma {:induction false} TrimAfter(a: string, b: string)
    requires TrimNewlines(b) != ""
    ensures TrimNewlines(a + b) == a + TrimNewlines(b)
    decreases |b|
  {
    if EndsInNewline(b) {
      assert (a + b)[..|a + b| - 1] == a + b[..|b| - 1];
      TrimAfter(a, b[..|b| - 1]);
    }
  }

  lemma DropOne(s: string)
    ensures DropNewlines(s + "\n") == DropNewlines(s)
  {
    assert (s + "\n")[..|s|] == s;
  }

  lemma DropBlock(text: string)
    ensures DropNewlines(Block(text)) == DropNewlines(text)
  {
    if text != "" {
      var once := if EndsInNewline(text) then text else text + "\n";
      DropOne(text);
      DropOne(once);
      assert Block(text) == once + "\n";
    }
  }

  lemma {:induction false} BlocksDrop(texts: seq<string>)
    ensures DropNewlines(Blocks(texts)) == DropNewlines(Concat(texts))
    decreases |texts|
  {
    hide DropNewlines, Block;
    if texts != [] {
      var n := |texts| - 1;
      BlocksDrop(texts[..n]);
      DropBlock(texts[n]);
      DropConcat(Blocks(texts[..n]), Block(texts[n]));
      DropConcat(Concat(texts[..n]), texts[n]);
    }
  }

  lemma {:induction false} BlocksJoined(texts: seq<string>)
    requires forall t | t in texts :: !EndsInNewline(t)
    ensures Blocks(texts) == if Joined(texts) == "" then "" else Joined(texts) + "\n\n"
    ensures !EndsInNewline(Joined(texts))
    decreases |texts|
  {
    if texts != [] {
      var n := |texts| - 1;
      BlocksJoined(texts[..n]);
      assert texts[n] in texts;
      JoinedOneMore(Joined(texts[..n]), texts[n]);
    }
  }

  lemma JoinedOneMore(front: string, last: string)
    requires !EndsInNewline(last)
    ensures last != "" ==> Block(last) == last + "\n\n" && "" + Block(last) == Block(last)
    ensures last != "" ==> front + "\n\n" + Block(last) == front + "\n\n" + last + "\n\n"
    ensures last != "" ==> !EndsInNewline(front + "\n\n" + last)
    ensures forall s: string :: s + Block("") == s
  {
    forall s: string ensures s + Block("") == s {
    }
  }

  lemma TrimOne(s: string)
    ensures TrimNewlines(s + "\n") == TrimNewlines(s)
  {
    assert (s + "\n")[..|s|] == s;
  }

  lemma JoinedTrimmed(joined: string)
    requires !EndsInNewline(joined)
    ensures TrimNewlines(joined + "\n\n") == joined
  {
    TrimOne(joined + "\n");
    TrimOne(joined);
    assert joined + "\n" + "\n" == joined + "\n\n";
  }

  lemma {:induction false} BlocksConcat(a: seq<string>, b: seq<string>)
    ensures Blocks(a + b) == Blocks(a) + Blocks(b)
    decreases |b|
  {
    hide Block;
    if b == [] {
      assert a + b == a && Blocks(a) + "" == Blocks(a);
    } else {
      assert (a + b)[..|a + b| - 1] == a + b[..|b| - 1];
      BlocksConcat(a, b[..|b| - 1]);
    }
  }

  lemma BlockOnly(text: string)
    ensures Blocks([text]) == Block(text)
  {
    hide Block;
    assert [text][..0] == [];
    assert "" + Block(text) == Block(text);
  }

  /** The blocks of some texts, one of which has more than newlines, do not vanish in the trim. */
  lemma TrimLeaves(texts: seq<string>, j: nat)
    requires j < |texts| && DropNewlines(texts[j]) != ""
    ensures TrimNewlines(Blocks(texts)) != ""
  {
    hide DropNewlines, Block, Blocks, TrimNewlines;
    var front, back := texts[..j], texts[j + 1..];
    assert texts == front + [texts[j]] + back;
    BlocksConcat(front + [texts[j]], back);
    BlocksConcat(front, [texts[j]]);
    BlockOnly(texts[j]);
    DropConcat(Blocks(front) + Block(texts[j]), Blocks(back));
    DropConcat(Blocks(front), Block(texts[j]));
    DropBlock(texts[j]);
    TrimDrops(Blocks(texts));
    DropNothing();
  }

  lemma DropNothing()
    ensures DropNewlines("") == ""
  {
  }

  lemma ParagraphAt(texts: seq<string>, i: nat, j: nat)
    requires i < j < |texts| && texts[i] != "" && DropNewlines(texts[j]) != ""
    ensures Paragraph(TrimNewlines(Blocks(texts)), texts[i])
  {
    hide DropNewlines, Block, Blocks, TrimNewlines, EndsBlankLine;
    var front, back := texts[..i], texts[i + 1..];
    assert texts == front + [texts[i]] + back;
    BlocksConcat(front + [texts[i]], back);
    BlocksConcat(front, [texts[i]]);
    BlockOnly(texts[i]);
    assert back[j - i - 1] == texts[j];
    TrimLeaves(back, j - i - 1);
    TrimAfter(Blocks(front) + Block(texts[i]), Blocks(back));
    var gap := BlockGap(texts[i]);
    assert StandsIn(TrimNewlines(Blocks(texts)), Blocks(front), texts[i], gap, TrimNewlines(Blocks(back)));
  }

  lemma BlockGap(text: string) returns (gap: string)
    requires text != ""
    ensures Block(text) == text + gap && gap in ["\n", "\n\n"] && EndsBlankLine(text + gap)
  {
    gap := if EndsInNewline(text) then "\n" else "\n\n";
  }

  /** The trimmed blocks show the texts. */
  lemma TrimmedBlocksShow(texts: seq<string>)
    ensures Shows(TrimNewlines(Blocks(texts)), texts)
  {
    hide DropNewlines, Blocks, TrimNewlines, Paragraph, Joined, EndsInNewline;
    TrimDrops(Blocks(texts));
    BlocksDrop(texts);
    if forall t | t in texts :: !EndsInNewline(t) {
      BlocksJoined(texts);
      TrimNothing();
      JoinedTrimmed(Joined(texts));
    }
    forall i, j | 0 <= i < j < |texts| && texts[i] != "" && DropNewlines(texts[j]) != ""
      ensures Paragraph(TrimNewlines(Blocks(texts)), texts[i])
    {
      ParagraphAt(texts, i, j);
    }
  }

  lemma TrimNothing()
    ensures TrimNewlines("") == ""
  {
  }
}
