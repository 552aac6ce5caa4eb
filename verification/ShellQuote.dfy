/** Quoting a value for a shell command, and the quoting rules of POSIX.1-2017 XCU section 2.2 that read it back. */
module ShellQuote {
  import opened Options

  // ---------- shell.go ----------

  /** Every single quote replaced by '"'"' . */
  function Escape(s: string): string {
    if s == "" then "" else (if s[0] == '\'' then "'\"'\"'" else [s[0]]) + Escape(s[1..])
  }

  function Quote(s: string): string {
    "'" + Escape(s) + "'"
  }

  // ---------- The shell ----------

  /** Where the reader is: between words, in a word but outside quotes, or inside one of the two kinds of quotes. */
  datatype Mode = Between | Bare | InSingle | InDouble

  datatype Reader = Reading(words: seq<string>, word: string, mode: Mode) | Stuck

  /** Characters that mean something unquoted, other than the quotes and blanks (section 2.2). */
  const SPECIAL: set<char> := {'|', '&', ';', '<', '>', '(', ')', '$', '`', '\\', '\n', '*', '?',
                               '[', '#', '~', '=', '%'}

  function Step(r: Reader, c: char): Reader {
    match r
    case Stuck => Stuck
    case Reading(words, word, mode) =>
      match mode
      case InSingle => // section 2.2.2: everything up to the next single quote is literal
        if c == '\'' then r.(mode := Bare) else r.(word := word + [c])
      case InDouble => // section 2.2.3: the dollar sign, backquote and backslash keep their meaning
        if c == '"' then r.(mode := Bare)
        else if c in {'$', '`', '\\'} then Stuck
        else r.(word := word + [c])
      case _ =>
        if c == '\'' then r.(mode := InSingle)
        else if c == '"' then r.(mode := InDouble)
        else if c in {' ', '\t'} then if mode == Bare then Reading(words + [word], "", Between) else r
        else if c in SPECIAL then Stuck
        else Reading(words, word + [c], Bare)
  }

  function Read(r: Reader, s: string): Reader
    decreases |s|
  {
    if s == "" then r else Read(Step(r, s[0]), s[1..])
  }

  /** The words of a command line, or None when it ends inside quotes or holds anything but literal words. */
  function Words(s: string): Option<seq<string>> {
    match Read(Reading([], "", Between), s)
    case Stuck => None
    case Reading(words, word, mode) =>
      match mode
      case Between => Some(words)
      case Bare => Some(words + [word])
      case _ => None
  }

  lemma {:induction false} ReadConcat(r: Reader, a: string, b: string)
    ensures Read(r, a + b) == Read(Read(r, a), b)
    decreases |a|
  {
    if a == "" {
      assert a + b == b;
    } else {
      assert (a + b)[1..] == a[1..] + b;
      ReadConcat(Step(r, a[0]), a[1..], b);
    }
  }

  lemma ReadChar(r: Reader, c: char)
    ensures Read(r, [c]) == Step(r, c)
  {
    assert [c][1..] == "";
  }

  lemma ReadEscapedQuote(words: seq<string>, word: string)
    ensures Read(Reading(words, word, InSingle), "'\"'\"'") == Reading(words, word + "'", InSingle)
  {
    var s := "'\"'\"'";
    assert s[1..] == "\"'\"'" && s[1..][1..] == "'\"'" && s[1..][1..][1..] == "\"'" && s[1..][1..][1..][1..] == "'";
    ReadChar(Reading(words, word + "'", Bare), '\'');
    assert Read(Reading(words, word + "'", InDouble), "\"'") == Reading(words, word + "'", InSingle);
    assert Read(Reading(words, word, InDouble), "'\"'") == Reading(words, word + "'", InSingle);
  }

  lemma {:induction false} ReadEscaped(words: seq<string>, word: string, s: string)
    ensures Read(Reading(words, word, InSingle), Escape(s)) == Reading(words, word + s, InSingle)
    decreases |s|
  {
    var r := Reading(words, word, InSingle);
    if s == "" {
      assert word + s == word;
    } else {
      var c := s[0];
      if c == '\'' {
        ReadConcat(r, "'\"'\"'", Escape(s[1..]));
        ReadEscapedQuote(words, word);
      } else {
        ReadConcat(r, [c], Escape(s[1..]));
        ReadChar(r, c);
      }
      ReadEscaped(words, word + [c], s[1..]);
      assert word + [c] + s[1..] == word + s;
    }
  }

  /** Outside quotes, a quoted value adds exactly itself to the current word. */
  lemma QuoteReads(r: Reader, s: string)
    requires r.Reading? && (r.mode == Bare || r.mode == Between)
    ensures Read(r, Quote(s)) == Reading(r.words, r.word + s, Bare)
  {
    hide Escape;
    var inside := r.(mode := InSingle);
    ReadConcat(r, "'" + Escape(s), "'");
    ReadConcat(r, "'", Escape(s));
    ReadChar(r, '\'');
    ReadEscaped(r.words, r.word, s);
    ReadChar(Reading(r.words, r.word + s, InSingle), '\'');
    assert Read(r, "'") == inside;
  }

  /** The quoted values, joined by single spaces. */
  function Join(values: seq<string>): string {
    if values == [] then ""
    else if |values| == 1 then Quote(values[0])
    else Join(values[..|values| - 1]) + " " + Quote(values[|values| - 1])
  }

  lemma {:induction false} ReadJoin(words: seq<string>, values: seq<string>)
    requires values != []
    ensures var n := |values| - 1;
            Read(Reading(words, "", Between), Join(values)) == Reading(words + values[..n], values[n], Bare)
    decreases |values|
  {
    hide Quote, Step, SPECIAL;
    var r, n := Reading(words, "", Between), |values| - 1;
    if n == 0 {
      QuoteReads(r, values[0]);
      assert "" + values[0] == values[0] && words + values[..0] == words;
    } else {
      var front, last := values[..n], values[n];
      ReadJoin(words, front);
      ReadConcat(r, Join(front) + " ", Quote(last));
      ReadConcat(r, Join(front), " ");
      var before := Reading(words + front[..n - 1], front[n - 1], Bare);
      BlankEndsWord(before);
      assert words + front[..n - 1] + [front[n - 1]] == words + front;
      QuoteReads(Reading(words + front, "", Between), last);
      assert "" + last == last;
    }
  }

  lemma BlankEndsWord(r: Reader)
    requires r.Reading? && r.mode == Bare
    ensures Read(r, " ") == Reading(r.words + [r.word], "", Between)
  {
    ReadChar(r, ' ');
  }

  /**
   * Quoted arguments read back: after any command prefix that the shell reads as the words `prefix`, followed by a
   * space, the quoted values become exactly the remaining words, whatever characters they hold.
   */
  lemma QuotedArguments(command: string, values: seq<string>)
    requires Words(command).Some? && values != []
    ensures Words(command + " " + Join(values)) == Some(Words(command).value + values)
  {
    hide Join, Step, SPECIAL;
    var start := Reading([], "", Between);
    ReadConcat(start, command + " ", Join(values));
    ReadConcat(start, command, " ");
    var r := Read(start, command);
    if r.mode == Bare {
      BlankEndsWord(r);
    } else {
      BetweenHasNoWord(start, command);
      BlankSkipped(r);
    }
    ReadJoin(Words(command).value, values);
    assert Words(command).value + values == Words(command).value + values[..|values| - 1] + [values[|values| - 1]];
  }

  lemma BlankSkipped(r: Reader)
    requires r.Reading? && r.mode == Between
    ensures Read(r, " ") == r
  {
    ReadChar(r, ' ');
  }

  lemma {:induction false} BetweenHasNoWord(r: Reader, s: string)
    requires r.Reading? && r.mode == Between ==> r.word == ""
    ensures var after := Read(r, s); after.Reading? && after.mode == Between ==> after.word == ""
    decreases |s|
  {
    if s != "" {
      BetweenHasNoWord(Step(r, s[0]), s[1..]);
    }
  }

  /** A joined list of quoted values is read back as exactly that list. */
  lemma QuotedListReadsBack(values: seq<string>)
    ensures Words(Join(values)) == Some(values)
  {
    hide Step, SPECIAL, Quote;
    if values != [] {
      ReadJoin([], values);
      assert [] + values[..|values| - 1] + [values[|values| - 1]] == values;
    }
  }

  lemma QuoteInjective(a: string, b: string)
    requires Quote(a) == Quote(b)
    ensures a == b
  {
    QuotedListReadsBack([a]);
    QuotedListReadsBack([b]);
  }
}
