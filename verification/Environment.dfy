/** Environment names: normalisation and validation (environment.ts). */
module Environment {

  predicate IsNameChar(c: char) {
    'a' <= c <= 'z' || '0' <= c <= '9'
  }

  predicate IsNameText(s: string) {
    forall i | 0 <= i < |s| :: IsNameChar(s[i]) || s[i] == '-'
  }

  /** What the platform's case mapping and white-space class have to do with name characters. */
  ghost predicate Platform(lower: string -> string, space: char -> bool) {
    && (forall s | IsNameText(s) :: lower(s) == s)
    && (forall c | space(c) :: !IsNameChar(c) && c != '-')
  }

  // ---------- The chain of replacements ----------

  /** Every run of underscores and white space becomes one hyphen; `inRun` says the text before `s` ends in one. */
  function Hyphenate(s: string, space: char -> bool, inRun: bool): string
    decreases |s|
  {
    if s == "" then ""
    else if s[0] == '_' || space(s[0]) then (if inRun then "" else "-") + Hyphenate(s[1..], space, true)
    else [s[0]] + Hyphenate(s[1..], space, false)
  }

  function KeepNameText(s: string): string {
    if s == "" then ""
    else (if IsNameChar(s[0]) || s[0] == '-' then [s[0]] else "") + KeepNameText(s[1..])
  }

  /** Every run of hyphens becomes one. */
  function Collapse(s: string): string {
    if s == "" then ""
    else if |s| >= 2 && s[0] == '-' && s[1] == '-' then Collapse(s[1..])
    else [s[0]] + Collapse(s[1..])
  }

  /** Drops one hyphen from each end, where there is one. */
  function TrimHyphens(s: string): string {
    var t := if s != "" && s[0] == '-' then s[1..] else s;
    if t != "" && t[|t| - 1] == '-' then t[..|t| - 1] else t
  }

  function FormatName(input: string, lower: string -> string, space: char -> bool): string {
    TrimHyphens(Collapse(KeepNameText(Hyphenate(lower(input), space, false))))
  }

  // ---------- The regular expression ----------

  predicate IsWord(w: string) {
    w != "" && forall i | 0 <= i < |w| :: IsNameChar(w[i])
  }

  /** The words with single hyphens between them. */
  function JoinWords(words: seq<string>): string {
    if words == [] then "" else if |words| == 1 then words[0] else words[0] + "-" + JoinWords(words[1..])
  }

  /** One or more words of letters and digits with single hyphens between them. */
  ghost predicate Matches(s: string) {
    exists words: seq<string> :: words != [] && (forall w | w in words :: IsWord(w)) && s == JoinWords(words)
  }

  /** The same, character by character. */
  predicate IsName(s: string) {
    && s != "" && IsNameText(s)
    && s[0] != '-' && s[|s| - 1] != '-'
    && NoDoubleHyphen(s)
  }

  predicate NoDoubleHyphen(s: string) {
    forall i | 0 < i < |s| :: s[i - 1] != '-' || s[i] != '-'
  }

  lemma WordIsName(w: string)
    requires IsWord(w)
    ensures IsName(w)
  {
  }

  lemma NameCons(w: string, s: string)
    requires IsWord(w) && IsName(s)
    ensures IsName(w + "-" + s)
  {
    var t := w + "-" + s;
    assert t[|t| - 1] == s[|s| - 1] && t[0] == w[0];
    forall i | 0 < i < |t| ensures t[i - 1] != '-' || t[i] != '-' {
      if i <= |w| {
        assert t[i - 1] == w[i - 1];
      } else if i == |w| + 1 {
        assert t[i] == s[0];
      } else {
        assert t[i] == s[i - |w| - 1] && t[i - 1] == s[i - |w| - 2];
      }
    }
  }

  lemma {:induction false} JoinedIsName(words: seq<string>)
    requires words != [] && forall w | w in words :: IsWord(w)
    ensures IsName(JoinWords(words))
    decreases |words|
  {
    hide IsName, IsWord;
    assert words[0] in words;
    WordIsName(words[0]);
    if |words| > 1 {
      JoinedIsName(words[1..]);
      NameCons(words[0], JoinWords(words[1..]));
    }
  }

  /**
   * The words of a text: it is cut at the separators, other characters than letters and digits are dropped, and so are
   * empty pieces. `word` is what the current piece holds already.
   */
  function WordsOf(word: string, s: string, separates: char -> bool): seq<string>
    decreases |s|
  {
    if s == "" then if word == "" then [] else [word]
    else if IsNameChar(s[0]) then WordsOf(word + [s[0]], s[1..], separates)
    else if separates(s[0]) then (if word == "" then [] else [word]) + WordsOf("", s[1..], separates)
    else WordsOf(word, s[1..], separates)
  }

  const HYPHEN: char -> bool := c => c == '-'

  lemma {:induction false} WordsAreWords(word: string, s: string, separates: char -> bool)
    requires word == "" || IsWord(word)
    ensures forall w | w in WordsOf(word, s, separates) :: IsWord(w)
    decreases |s|
  {
    if s != "" {
      if IsNameChar(s[0]) {
        WordsAreWords(word + [s[0]], s[1..], separates);
      } else if separates(s[0]) {
        WordsAreWords("", s[1..], separates);
      } else {
        WordsAreWords(word, s[1..], separates);
      }
    }
  }

  /** A name is its words, joined. */
  lemma {:induction false} NameIsItsWords(word: string, s: string)
    requires IsName(word + s) && (word == "" || IsWord(word))
    ensures WordsOf(word, s, HYPHEN) != [] && JoinWords(WordsOf(word, s, HYPHEN)) == word + s
    decreases |s|
  {
    hide IsName, NoDoubleHyphen;
    if s == "" {
      NameNotEmpty(word + s);
      assert word + s == word;
    } else {
      var rest := s[1..];
      if s[0] == '-' {
        assert s == ['-'] + rest;
        NameAfterHyphen(word, rest);
        assert word + s == word + "-" + rest;
        assert "" + rest == rest;
        NameIsItsWords("", rest);
        var words := WordsOf("", rest, HYPHEN);
        assert ([word] + words)[1..] == words;
      } else {
        NameText(word, s);
        assert word + [s[0]] + rest == word + s;
        NameIsItsWords(word + [s[0]], rest);
      }
    }
  }

  lemma NameNotEmpty(s: string)
    requires IsName(s)
    ensures s != ""
  {
  }

  lemma NameText(word: string, s: string)
    requires IsName(word + s) && s != ""
    ensures IsNameChar(s[0]) || s[0] == '-'
  {
    assert (word + s)[|word|] == s[0];
  }

  lemma NameAfterHyphen(word: string, rest: string)
    requires IsName(word + (['-'] + rest)) && (word == "" || IsWord(word))
    ensures word != "" && IsName(rest)
  {
    var s := word + (['-'] + rest);
    assert s[|word|] == '-' && s[|s| - 1] != '-';
    assert rest != "";
    forall i | 0 <= i < |rest| ensures rest[i] == s[|word| + 1 + i] {
    }
  }

  /** The expression and the character-wise description accept the same texts. */
  lemma MatchesExactly(s: string)
    ensures Matches(s) <==> IsName(s)
  {
    hide IsName, IsWord, JoinWords, WordsOf;
    if words: seq<string> :| words != [] && (forall w | w in words :: IsWord(w)) && s == JoinWords(words) {
      JoinedIsName(words);
    }
    if IsName(s) {
      assert "" + s == s;
      NameIsItsWords("", s);
      WordsAreWords("", s, HYPHEN);
    }
  }

  // ---------- Each replacement ----------

  lemma {:induction false} KeptIsNameText(s: string)
    ensures IsNameText(KeepNameText(s))
    decreases |s|
  {
    if s != "" {
      KeptIsNameText(s[1..]);
    }
  }

  lemma {:induction false} NameTextKept(s: string)
    requires IsNameText(s)
    ensures KeepNameText(s) == s
    decreases |s|
  {
    if s != "" {
      NameTextKept(s[1..]);
    }
  }

  lemma {:induction false} NameTextHyphenated(s: string, space: char -> bool)
    requires IsNameText(s) && forall c | space(c) :: !IsNameChar(c) && c != '-'
    ensures Hyphenate(s, space, false) == s
    decreases |s|
  {
    if s != "" {
      NameTextHyphenated(s[1..], space);
    }
  }

  lemma {:induction false} CollapsedText(s: string)
    requires IsNameText(s)
    ensures var t := Collapse(s);
            IsNameText(t) && NoDoubleHyphen(t) && (s != "" ==> t != "" && t[0] == s[0])
    decreases |s|
  {
    if s != "" {
      CollapsedText(s[1..]);
    }
  }

  lemma {:induction false} NothingToCollapse(s: string)
    requires NoDoubleHyphen(s)
    ensures Collapse(s) == s
    decreases |s|
  {
    if s != "" {
      NothingToCollapse(s[1..]);
    }
  }

  lemma TrimmedIsName(s: string)
    requires IsNameText(s) && NoDoubleHyphen(s)
    ensures TrimHyphens(s) == "" || IsName(TrimHyphens(s))
  {
  }

  lemma NameUntrimmed(s: string)
    requires s == "" || IsName(s)
    ensures TrimHyphens(s) == s
  {
  }

  lemma NameFixed(s: string, lower: string -> string, space: char -> bool)
    requires Platform(lower, space) && (s == "" || IsName(s))
    ensures FormatName(s, lower, space) == s
  {
    NameTextHyphenated(s, space);
    NameTextKept(s);
    NothingToCollapse(s);
    NameUntrimmed(s);
  }

  // ---------- The promises ----------

  /** Normalising gives the empty text or a match of the expression, and changes nothing the second time. */
  lemma FormatIsNormalForm(input: string, lower: string -> string, space: char -> bool)
    requires Platform(lower, space)
    ensures var name := FormatName(input, lower, space);
            (name == "" || Matches(name)) && FormatName(name, lower, space) == name
  {
    hide Hyphenate, KeepNameText, Collapse, TrimHyphens, IsName, Matches;
    var kept := KeepNameText(Hyphenate(lower(input), space, false));
    KeptIsNameText(Hyphenate(lower(input), space, false));
    CollapsedText(kept);
    TrimmedIsName(Collapse(kept));
    var name := FormatName(input, lower, space);
    MatchesExactly(name);
    NameFixed(name, lower, space);
  }

  ghost predicate IsValid(value: string) {
    1 <= |value| <= 50 && Matches(value)
  }

  /** The fixed points are exactly the matches and the empty text; so every valid name is left alone. */
  lemma FixedExactly(s: string, lower: string -> string, space: char -> bool)
    requires Platform(lower, space)
    ensures FormatName(s, lower, space) == s <==> s == "" || Matches(s)
  {
    hide FormatName, Matches, IsName;
    MatchesExactly(s);
    if s == "" || Matches(s) {
      NameFixed(s, lower, space);
    } else {
      FormatIsNormalForm(s, lower, space);
    }
  }

  // ---------- What a normalised text is ----------

  /** Where the input is cut into words. */
  function Separates(space: char -> bool): char -> bool {
    c => c == '-' || c == '_' || space(c)
  }

  lemma {:induction false} HyphenateWords(word: string, s: string, space: char -> bool, inRun: bool)
    requires (forall c | space(c) :: !IsNameChar(c) && c != '-') && (inRun ==> word == "")
    ensures WordsOf(word, KeepNameText(Hyphenate(s, space, inRun)), HYPHEN)
            == WordsOf(word, s, Separates(space))
    decreases |s|
  {
    if s != "" {
      var rest := s[1..];
      if s[0] == '_' || space(s[0]) {
        HyphenateWords("", rest, space, true);
        var tail := Hyphenate(rest, space, true);
        assert inRun ==> "" + tail == tail;
        KeepCons('-', tail);
        WordsCons(word, '-', KeepNameText(tail));
      } else {
        var tail := Hyphenate(rest, space, false);
        KeepCons(s[0], tail);
        WordsCons(word, s[0], KeepNameText(tail));
        if IsNameChar(s[0]) {
          HyphenateWords(word + [s[0]], rest, space, false);
        } else if s[0] == '-' {
          HyphenateWords("", rest, space, false);
        } else {
          HyphenateWords(word, rest, space, false);
          assert "" + KeepNameText(tail) == KeepNameText(tail);
        }
      }
    }
  }

  lemma KeepCons(c: char, s: string)
    ensures KeepNameText([c] + s) == (if IsNameChar(c) || c == '-' then [c] else "") + KeepNameText(s)
  {
    assert ([c] + s)[1..] == s;
  }

  lemma WordsCons(word: string, c: char, s: string)
    ensures WordsOf(word, [c] + s, HYPHEN) ==
            if IsNameChar(c) then WordsOf(word + [c], s, HYPHEN)
            else if c == '-' then (if word == "" then [] else [word]) + WordsOf("", s, HYPHEN)
            else WordsOf(word, s, HYPHEN)
  {
    assert ([c] + s)[1..] == s;
  }

  lemma {:induction false} CollapseWords(word: string, s: string)
    ensures WordsOf(word, Collapse(s), HYPHEN) == WordsOf(word, s, HYPHEN)
    decreases |s|
  {
    if s != "" {
      var rest := s[1..];
      WordsCons(word, s[0], Collapse(rest));
      if |s| >= 2 && s[0] == '-' && s[1] == '-' {
        CollapseWords(word, rest);
        WordsCons(word, '-', rest[1..]);
        WordsCons("", '-', rest[1..]);
        assert rest == ['-'] + rest[1..];
      } else if IsNameChar(s[0]) {
        CollapseWords(word + [s[0]], rest);
      } else if s[0] == '-' {
        CollapseWords("", rest);
      } else {
        CollapseWords(word, rest);
      }
    }
  }

  lemma {:induction false} TrailingHyphen(word: string, s: string)
    ensures WordsOf(word, s + "-", HYPHEN) == WordsOf(word, s, HYPHEN)
    decreases |s|
  {
    if s == "" {
      assert s + "-" == "-" && "-"[1..] == "";
    } else {
      assert (s + "-")[1..] == s[1..] + "-";
      if IsNameChar(s[0]) {
        TrailingHyphen(word + [s[0]], s[1..]);
      } else if s[0] == '-' {
        TrailingHyphen("", s[1..]);
      } else {
        TrailingHyphen(word, s[1..]);
      }
    }
  }

  lemma TrimWords(s: string)
    ensures WordsOf("", TrimHyphens(s), HYPHEN) == WordsOf("", s, HYPHEN)
  {
    var t := if s != "" && s[0] == '-' then s[1..] else s;
    if t != "" && t[|t| - 1] == '-' {
      TrailingHyphen("", t[..|t| - 1]);
      assert t == t[..|t| - 1] + "-";
    }
  }

  /**
   * What normalising computes: the lower-cased input is cut at hyphens, underscores and white space, everything but
   * letters and digits is dropped from the pieces, and the non-empty ones are joined by single hyphens.
   */
  lemma FormatJoinsWords(input: string, lower: string -> string, space: char -> bool)
    requires Platform(lower, space)
    ensures FormatName(input, lower, space) == JoinWords(WordsOf("", lower(input), Separates(space)))
  {
    hide Hyphenate, KeepNameText, Collapse, TrimHyphens, WordsOf, IsName, Matches;
    var name := FormatName(input, lower, space);
    var kept := KeepNameText(Hyphenate(lower(input), space, false));
    TrimWords(Collapse(kept));
    CollapseWords("", kept);
    HyphenateWords("", lower(input), space, false);
    FormatIsNormalForm(input, lower, space);
    MatchesExactly(name);
    if name == "" {
      NoWords();
    } else {
      assert "" + name == name;
      NameIsItsWords("", name);
    }
  }

  lemma NoWords()
    ensures JoinWords(WordsOf("", "", HYPHEN)) == ""
  {
  }

  function TotalLength(words: seq<string>): nat {
    if words == [] then 0 else |words[0]| + TotalLength(words[1..])
  }

  lemma {:induction false} JoinedLength(words: seq<string>)
    ensures |JoinWords(words)| == if words == [] then 0 else TotalLength(words) + |words| - 1
    decreases |words|
  {
    if words != [] {
      JoinedLength(words[1..]);
    }
  }

  /**
   * A normalised input is a valid name exactly when it has a word and its words, with the hyphens between them, have at
   * most 50 characters: normalising neither cuts long inputs nor fills empty ones.
   */
  lemma FormattedValidExactly(input: string, lower: string -> string, space: char -> bool)
    requires Platform(lower, space)
    ensures var words := WordsOf("", lower(input), Separates(space));
            IsValid(FormatName(input, lower, space)) <==> words != [] && TotalLength(words) + |words| - 1 <= 50
  {
    hide FormatName, Matches, WordsOf, JoinWords, TotalLength, Separates;
    var words := WordsOf("", lower(input), Separates(space));
    FormatIsNormalForm(input, lower, space);
    FormatJoinsWords(input, lower, space);
    JoinedLength(words);
    WordsAreWords("", lower(input), Separates(space));
    if words != [] {
      assert words[0] in words && IsWord(words[0]);
      FirstLength(words);
    }
  }

  lemma FirstLength(words: seq<string>)
    requires words != []
    ensures TotalLength(words) >= |words[0]|
  {
  }

  /** Fifty-one letters are left as they are, and so is the empty rest of a lone hyphen: neither is valid. */
  lemma FormattedMayBeInvalid(lower: string -> string, space: char -> bool)
    requires Platform(lower, space)
    ensures var long := seq(51, i => 'a'); FormatName(long, lower, space) == long && Matches(long) && !IsValid(long)
    ensures FormatName("-", lower, space) == "" && !IsValid("")
  {
    hide FormatName, Matches, WordsOf, Separates;
    var long := seq(51, i => 'a');
    WordIsName(long);
    MatchesExactly(long);
    NameFixed(long, lower, space);
    assert IsNameText("-");
    FormatJoinsWords("-", lower, space);
    LoneHyphen(space);
  }

  lemma LoneHyphen(space: char -> bool)
    ensures JoinWords(WordsOf("", "-", Separates(space))) == ""
  {
    assert "-"[1..] == "";
  }
}
