/** Reading back what a sender streams: texts, usages and tool-call fragments, put into chunks by the sender. */
module StreamBuilds {
  import opened LlmTypes
  import opened Options
  import opened StreamAssembly

  /**
   * What the sender sends, one event each: a piece of text with any fragments and perhaps a usage, in the first choice
   * of a chunk that may have other choices; a chunk without choices; or the end mark.
   */
  datatype Part =
    | Piece(text: string, fragments: seq<ToolCall>, usage: Option<Usage>, others: seq<Delta>)
    | Bare(usage: Option<Usage>)
    | Mark

  function EventOf(part: Part): StreamEvent {
    match part
    case Piece(text, fragments, usage, others) => EventChunk(Chunk(usage, [Delta(text, fragments)] + others))
    case Bare(usage) => EventChunk(Chunk(usage, []))
    case Mark => EventDone
  }

  function Build(parts: seq<Part>): (events: seq<StreamEvent>)
    ensures |events| == |parts|
  {
    seq(|parts|, i requires 0 <= i < |parts| => EventOf(parts[i]))
  }

  /** The pieces of text sent, empty ones included. */
  function Pieces(parts: seq<Part>): seq<string> {
    if parts == [] then []
    else
      var last := parts[|parts| - 1];
      Pieces(parts[..|parts| - 1]) + if last.Piece? then [last.text] else []
  }

  function Fragments(parts: seq<Part>): seq<ToolCall> {
    if parts == [] then []
    else
      var last := parts[|parts| - 1];
      Fragments(parts[..|parts| - 1]) + if last.Piece? then last.fragments else []
  }

  /** The latest usage sent; none counts as zero. */
  function UsageSent(parts: seq<Part>): Usage {
    if parts == [] then NO_USAGE
    else
      var last := parts[|parts| - 1];
      if !last.Mark? && last.usage.Some? then last.usage.value else UsageSent(parts[..|parts| - 1])
  }

  function NonEmpty(pieces: seq<string>): seq<string> {
    if pieces == [] then []
    else
      var last := pieces[|pieces| - 1];
      NonEmpty(pieces[..|pieces| - 1]) + if last == "" then [] else [last]
  }

  lemma NonEmptySnoc(pieces: seq<string>, last: string)
    ensures NonEmpty(pieces + [last]) == NonEmpty(pieces) + if last == "" then [] else [last]
  {
    assert (pieces + [last])[..|pieces|] == pieces;
  }

  lemma BuildFront(parts: seq<Part>)
    requires parts != []
    ensures var n := |parts| - 1; Build(parts)[..n] == Build(parts[..n]) && Build(parts)[n] == EventOf(parts[n])
  {
  }

  lemma {:induction false} EmptyAddsNothing(pieces: seq<string>)
    ensures Concat(NonEmpty(pieces)) == Concat(pieces)
    decreases |pieces|
  {
    if pieces != [] {
      var front, last := pieces[..|pieces| - 1], pieces[|pieces| - 1];
      EmptyAddsNothing(front);
      ConcatSnoc(NonEmpty(front), last);
      assert NonEmpty(front) + [] == NonEmpty(front) && Concat(front) + "" == Concat(front);
    }
  }

  lemma LastText(events: seq<StreamEvent>)
    requires events != []
    ensures var front, text := events[..|events| - 1], DeltaOf(events[|events| - 1]).content;
            TextsIn(events) == TextsIn(front) + if text == "" then [] else [text]
  {
  }

  lemma LastPiece(parts: seq<Part>)
    requires parts != []
    ensures var front, last := parts[..|parts| - 1], parts[|parts| - 1];
            NonEmpty(Pieces(parts)) ==
              NonEmpty(Pieces(front)) + if last.Piece? && last.text != "" then [last.text] else []
  {
    var front, last := parts[..|parts| - 1], parts[|parts| - 1];
    if last.Piece? {
      NonEmptySnoc(Pieces(front), last.text);
    } else {
      assert Pieces(front) + [] == Pieces(front) && NonEmpty(Pieces(front)) + [] == NonEmpty(Pieces(front));
    }
  }

  lemma {:induction false} BuiltTexts(parts: seq<Part>)
    ensures TextsIn(Build(parts)) == NonEmpty(Pieces(parts))
    decreases |parts|
  {
    if parts != [] {
      hide TextsIn, NonEmpty, Pieces;
      var n := |parts| - 1;
      BuildFront(parts);
      BuiltTexts(parts[..n]);
      LastText(Build(parts));
      LastPiece(parts);
    }
  }

  lemma {:induction false} BuiltUsage(parts: seq<Part>)
    ensures LastUsage(Build(parts)) == UsageSent(parts)
    decreases |parts|
  {
    if parts != [] {
      BuildFront(parts);
      BuiltUsage(parts[..|parts| - 1]);
    }
  }

  lemma {:induction false} BuiltFragments(parts: seq<Part>)
    ensures FragmentsIn(Build(parts)) == Fragments(parts)
    decreases |parts|
  {
    if parts != [] {
      BuildFront(parts);
      BuiltFragments(parts[..|parts| - 1]);
    }
  }

  /** In every piece, only the last fragment carries argument text. */
  predicate TailsOnly(parts: seq<Part>) {
    forall k, i | 0 <= k < |parts| && parts[k].Piece? && 0 <= i < |parts[k].fragments| - 1 ::
      parts[k].fragments[i].arguments == ""
  }

  lemma BuiltTails(parts: seq<Part>)
    ensures TailOnly(Build(parts)) <==> TailsOnly(parts)
  {
    forall k | 0 <= k < |parts|
      ensures DeltaOf(Build(parts)[k]).toolCalls == if parts[k].Piece? then parts[k].fragments else []
    {
    }
    if TailOnly(Build(parts)) {
      forall k, i | 0 <= k < |parts| && parts[k].Piece? && 0 <= i < |parts[k].fragments| - 1
        ensures parts[k].fragments[i].arguments == ""
      {
        assert TailOnlyDelta(DeltaOf(Build(parts)[k]).toolCalls);
      }
    }
  }

  /**
   * What the sender put in comes out: the content is the pieces put together, what is written is the non-empty ones in
   * order, the usage is the latest; and the calls that the fragments were cut from are recovered exactly when no piece
   * carries argument text before its last fragment.
   */
  lemma BuiltReadsBack(parts: seq<Part>, calls: seq<ToolCall>)
    ensures var events := Build(parts);
            && ErrorFree(events) && ContentIn(events) == Concat(Pieces(parts))
            && TextsIn(events) == NonEmpty(Pieces(parts)) && LastUsage(events) == UsageSent(parts)
            && (Splits(Fragments(parts), calls) ==> (PlacedCalls(events) == calls <==> TailsOnly(parts)))
  {
    hide TextsIn, LastUsage, PlacedCalls, FragmentsIn, Splits, TailOnly, TailsOnly;
    BuiltTexts(parts);
    EmptyAddsNothing(Pieces(parts));
    BuiltUsage(parts);
    BuiltFragments(parts);
    BuiltTails(parts);
    if Splits(Fragments(parts), calls) {
      ReassemblyExact(Build(parts), calls);
    }
  }

  /** A sender's stream, read without a cancellation; `calls` are the tool calls that the fragments were cut from. */
  method ReadBack(parts: seq<Part>, ghost calls: seq<ToolCall>) returns (result: Consumed, written: seq<string>)
    ensures result.Complete?
    ensures result.message.role == RoleAssistant && result.message.content == Concat(Pieces(parts))
    ensures written == NonEmpty(Pieces(parts)) && result.usage == UsageSent(parts)
    ensures Splits(Fragments(parts), calls) ==> (result.message.toolCalls == calls <==> TailsOnly(parts))
  {
    hide TextsIn, LastUsage, PlacedCalls, Splits, TailsOnly, Pieces, Fragments, UsageSent, ContentIn;
    BuiltReadsBack(parts, calls);
    var events := Build(parts);
    var read;
    result, written, read := ConsumeStream(events, None);
    assert read == |events| ==> events[..read] == events;
  }
}
