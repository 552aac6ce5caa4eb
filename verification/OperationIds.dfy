/** Operation ids made from route summaries, numbered when a base repeats (route_contract.go, postprocess.go). */
module OperationIds {
  import opened Sequences

  // ---------- Numbers in decimal ----------

  function Digit(n: nat): char
    requires n < 10
  {
    '0' + n as char
  }

  predicate IsDigit(c: char) {
    '0' <= c <= '9'
  }

  function Decimal(n: nat): (s: string)
    ensures s != ""
    ensures forall i | 0 <= i < |s| :: IsDigit(s[i])
  {
    if n < 10 then [Digit(n)] else Decimal(n / 10) + [Digit(n % 10)]
  }

  lemma DecimalParts(n: nat)
    ensures n < 10 ==> |Decimal(n)| == 1 && Decimal(n) == "" + [Digit(n)]
    ensures n >= 10 ==> |Decimal(n)| > 1 && Decimal(n) == Decimal(n / 10) + [Digit(n % 10)]
  {
  }

  /** The number a decimal numeral stands for. */
  function Numeral(s: string): int {
    if s == "" then 0 else 10 * Numeral(s[..|s| - 1]) + (s[|s| - 1] as int - '0' as int)
  }

  /** A printed number reads back, and has no leading zero. */
  lemma {:induction false} DecimalReadsBack(n: nat)
    ensures Numeral(Decimal(n)) == n && (n > 0 ==> Decimal(n)[0] != '0')
  {
    hide Decimal;
    DecimalParts(n);
    if n >= 10 {
      DecimalReadsBack(n / 10);
      var front, last := Decimal(n / 10), Digit(n % 10);
      assert (front + [last])[..|front|] == front && (front + [last])[0] == front[0];
    } else {
      assert Decimal(n)[..0] == "" && Numeral("") == 0;
    }
  }

  lemma DecimalInjective(a: nat, b: nat)
    requires Decimal(a) == Decimal(b)
    ensures a == b
  {
    hide Decimal;
    DecimalReadsBack(a);
    DecimalReadsBack(b);
  }

  /** A proper prefix of a positive number's digits is itself a smaller positive number's. */
  lemma {:induction false} DecimalPrefix(k: nat, front: string, rest: string) returns (v: nat)
    requires k >= 1 && Decimal(k) == front + rest && front != ""
    ensures 1 <= v <= k && Decimal(v) == front
    decreases |rest|
  {
    hide Decimal, Digit;
    if rest == "" {
      assert front + rest == front;
      v := k;
    } else {
      DecimalParts(k);
      var n := |rest| - 1;
      assert front + rest == (front + rest[..n]) + [rest[n]];
      SnocEqual(Decimal(k / 10), Digit(k % 10), front + rest[..n], rest[n]);
      v := DecimalPrefix(k / 10, front, rest[..n]);
    }
  }

  lemma OneThen(k: nat, m: nat)
    requires m >= 2 && Decimal(k) == "1" + Decimal(m)
    ensures k >= 12
  {
    assert |Decimal(k)| >= 2;
    if k == 10 {
      SplitOne(m, 0);
    } else if k == 11 {
      SplitOne(m, 1);
    }
  }

  lemma SplitOne(m: nat, n: nat)
    requires n < 10 && "1" + Decimal(m) == "1" + Decimal(n)
    ensures m == n
  {
    assert ("1" + Decimal(m))[1..] == Decimal(m) && ("1" + Decimal(n))[1..] == Decimal(n);
    DecimalInjective(m, n);
  }

  // ---------- Numbered ids ----------

  /** The id of the k-th use of a base. */
  function Id(base: string, k: nat): string {
    if k == 1 then base else base + Decimal(k)
  }

  function Count(bases: seq<string>, base: string): nat {
    if bases == [] then 0
    else Count(bases[..|bases| - 1], base) + if bases[|bases| - 1] == base then 1 else 0
  }

  lemma CountSnoc(bases: seq<string>, last: string, base: string)
    ensures Count(bases + [last], base) == Count(bases, base) + if last == base then 1 else 0
  {
    assert (bases + [last])[..|bases|] == bases;
  }

  lemma CountUpTo(bases: seq<string>, i: nat, base: string)
    requires i < |bases|
    ensures Count(bases[..i + 1], base) == Count(bases[..i], base) + if bases[i] == base then 1 else 0
  {
    assert bases[..i + 1][..i] == bases[..i];
  }

  lemma {:induction false} CountGrows(bases: seq<string>, i: nat, j: nat, base: string)
    requires i <= j <= |bases|
    ensures Count(bases[..i], base) <= Count(bases[..j], base)
    decreases j
  {
    if i < j {
      CountGrows(bases, i, j - 1, base);
      CountUpTo(bases, j - 1, base);
    }
  }

  /** The id given to the i-th request. */
  function IdAt(bases: seq<string>, i: nat): string
    requires i < |bases|
  {
    Id(bases[i], Count(bases[..i + 1], bases[i]))
  }

  ghost predicate AllDistinct(bases: seq<string>) {
    forall i, j | 0 <= i < j < |bases| :: IdAt(bases, i) != IdAt(bases, j)
  }

  lemma IdInjective(base: string, k: nat, m: nat)
    requires k >= 1 && m >= 1 && Id(base, k) == Id(base, m)
    ensures k == m
  {
    IdLength(base, k);
    IdLength(base, m);
    if k >= 2 && m >= 2 {
      assert (base + Decimal(k))[|base|..] == Decimal(k) && (base + Decimal(m))[|base|..] == Decimal(m);
      DecimalInjective(k, m);
    }
  }

  lemma IdLength(base: string, k: nat)
    ensures (k == 1) == (|Id(base, k)| == |base|)
  {
  }

  /** Some base, extended by a number its repetitions reach, is itself a base; or "1" is, often enough. */
  ghost predicate Clash(bases: seq<string>, base: string) {
    || (exists d :: 2 <= d <= Count(bases, base) && Count(bases, base + Decimal(d)) >= 1)
    || (Count(bases, base) >= 12 && Count(bases, base + "1") >= 2)
  }

  ghost predicate ClashFree(bases: seq<string>) {
    forall base :: !Clash(bases, base)
  }

  /** Equal ids of different bases: the shorter base clashes. */
  lemma EqualIdsClash(bases: seq<string>, x: string, k: nat, y: string, m: nat)
    requires 1 <= k <= Count(bases, x) && 1 <= m <= Count(bases, y)
    requires |x| < |y| && Id(x, k) == Id(y, m)
    ensures Clash(bases, x)
  {
    hide Decimal, Count;
    var id := Id(x, k);
    assert k >= 2;
    var rest := if m == 1 then "" else Decimal(m);
    assert id == x + Decimal(k) && id == y + rest;
    assert x == id[..|x|] == y[..|x|];
    var front := y[|x|..];
    assert y == x + front;
    assert Decimal(k) == id[|x|..] == front + rest;
    var v := DecimalPrefix(k, front, rest);
    if v == 1 {
      assert Decimal(1) == "1" by { DecimalParts(1); }
      if m == 1 {
        assert front + rest == front;
        DecimalInjective(k, 1);
        assert false;
      }
      OneThen(k, m);
    }
  }

  lemma {:induction false} KthUse(bases: seq<string>, base: string, k: nat) returns (i: nat)
    requires 1 <= k <= Count(bases, base)
    ensures i < |bases| && bases[i] == base && Count(bases[..i + 1], base) == k
    decreases |bases|
  {
    var n := |bases| - 1;
    if k <= Count(bases[..n], base) {
      i := KthUse(bases[..n], base, k);
      assert bases[..n][..i + 1] == bases[..i + 1];
    } else {
      i := n;
      assert bases[..n + 1] == bases;
    }
  }

  lemma EqualUses(bases: seq<string>, x: string, k: nat, y: string, m: nat)
    requires x != y && 1 <= k <= Count(bases, x) && 1 <= m <= Count(bases, y) && Id(x, k) == Id(y, m)
    ensures !AllDistinct(bases)
  {
    hide Id, Count;
    var i := KthUse(bases, x, k);
    var j := KthUse(bases, y, m);
    assert IdAt(bases, i) == IdAt(bases, j) && i != j;
  }

  lemma ClashRepeats(bases: seq<string>, base: string)
    requires Clash(bases, base)
    ensures !AllDistinct(bases)
  {
    hide Decimal, Count, AllDistinct;
    if d :| 2 <= d <= Count(bases, base) && Count(bases, base + Decimal(d)) >= 1 {
      EqualUses(bases, base, d, base + Decimal(d), 1);
    } else {
      DecimalParts(12);
      DecimalParts(1);
      DecimalParts(2);
      assert base + Decimal(12) == (base + "1") + Decimal(2);
      EqualUses(bases, base, 12, base + "1", 2);
    }
  }

  /**
   * The ids are pairwise distinct exactly when no base is another one followed by a number that the other's repetitions
   * reach. (The number 1 is never printed, so a base ending in 1 does harm only from the twelfth use on.)
   */
  lemma IdsDistinctExactly(bases: seq<string>)
    ensures AllDistinct(bases) <==> ClashFree(bases)
  {
    hide Clash, Id;
    if !ClashFree(bases) {
      var base :| Clash(bases, base);
      ClashRepeats(bases, base);
    } else {
      forall i, j | 0 <= i < j < |bases| ensures IdAt(bases, i) != IdAt(bases, j) {
        DistinctAt(bases, i, j);
      }
    }
  }

  lemma DistinctAt(bases: seq<string>, i: nat, j: nat)
    requires i < j < |bases| && ClashFree(bases)
    ensures IdAt(bases, i) != IdAt(bases, j)
  {
    hide Clash, Id, Count;
    var x, y := bases[i], bases[j];
    var k, m := Count(bases[..i + 1], x), Count(bases[..j + 1], y);
    UseNumber(bases, i);
    UseNumber(bases, j);
    if Id(x, k) == Id(y, m) {
      if x == y {
        CountGrows(bases, i + 1, j, x);
        CountUpTo(bases, j, x);
        IdInjective(x, k, m);
      } else if |x| < |y| {
        EqualIdsClash(bases, x, k, y, m);
      } else if |y| < |x| {
        EqualIdsClash(bases, y, m, x, k);
      } else {
        SameLength(x, k, y, m);
      }
    }
  }

  lemma UseNumber(bases: seq<string>, i: nat)
    requires i < |bases|
    ensures 1 <= Count(bases[..i + 1], bases[i]) <= Count(bases, bases[i])
  {
    hide Count;
    CountUpTo(bases, i, bases[i]);
    CountGrows(bases, i + 1, |bases|, bases[i]);
    assert bases[..|bases|] == bases;
  }

  lemma SameLength(x: string, k: nat, y: string, m: nat)
    requires |x| == |y| && Id(x, k) == Id(y, m)
    ensures x == y
  {
    assert x == Id(x, k)[..|x|] && y == Id(y, m)[..|y|];
  }

  predicate EndsInDigit(base: string) {
    base != "" && IsDigit(base[|base| - 1])
  }

  /** In particular they are when no base ends in a digit. */
  lemma NoDigitNoClash(bases: seq<string>)
    requires forall base | base in bases :: !EndsInDigit(base)
    ensures AllDistinct(bases)
  {
    hide Count, AllDistinct;
    forall base ensures !Clash(bases, base) {
      forall d | 2 <= d <= Count(bases, base) ensures Count(bases, base + Decimal(d)) == 0 {
        assert EndsInDigit(base + Decimal(d));
        NotCounted(bases, base + Decimal(d));
      }
      assert EndsInDigit(base + "1");
      NotCounted(bases, base + "1");
    }
    IdsDistinctExactly(bases);
  }

  lemma {:induction false} NotCounted(bases: seq<string>, base: string)
    requires base !in bases
    ensures Count(bases, base) == 0
    decreases |bases|
  {
    if bases != [] {
      NotCounted(bases[..|bases| - 1], base);
    }
  }

  /** Three routes that share an id: the second "getItem" and the first "getItem2". */
  lemma DigitBaseCollides()
    ensures var bases := ["getItem", "getItem", "getItem2"]; IdAt(bases, 1) == IdAt(bases, 2) == "getItem2"
  {
    hide Count;
    var bases := ["getItem", "getItem", "getItem2"];
    assert bases[..2] == [] + ["getItem"] + ["getItem"] && bases[..3] == bases[..2] + ["getItem2"];
    CountSnoc([], "getItem", "getItem");
    CountSnoc([] + ["getItem"], "getItem", "getItem");
    NotCounted(bases[..2], "getItem2");
    CountSnoc(bases[..2], "getItem2", "getItem2");
    NotCounted([], "getItem");
    assert Decimal(2) == "2";
  }

  // ---------- Base names ----------

  predicate IsAlnum(c: char) {
    'a' <= c <= 'z' || 'A' <= c <= 'Z' || IsDigit(c)
  }

  function Lower(c: char): (lower: char)
    ensures !('A' <= lower <= 'Z') && (lower != c ==> 'A' <= c <= 'Z' && lower as int == c as int + 32)
  {
    if 'A' <= c <= 'Z' then c + 32 as char else c
  }

  function Upper(c: char): (upper: char)
    ensures !('a' <= upper <= 'z') && Lower(upper) == Lower(c)
  {
    if 'a' <= c <= 'z' then c - 32 as char else c
  }

  /** The maximal runs of letters and digits; `word` is the run just before `s`. */
  function WordsFrom(word: string, s: string): seq<string>
    decreases |s|
  {
    if s == "" then if word == "" then [] else [word]
    else if IsAlnum(s[0]) then WordsFrom(word + [s[0]], s[1..])
    else (if word == "" then [] else [word]) + WordsFrom("", s[1..])
  }

  function Join(words: seq<string>): string {
    if words == [] then "" else Join(words[..|words| - 1]) + words[|words| - 1]
  }

  /** The word as it appears at place i: the first starts small, the others capital. */
  function Cased(word: string, i: int): string {
    if word == "" then "" else [if i == 0 then Lower(word[0]) else Upper(word[0])] + word[1..]
  }

  function CasedWords(words: seq<string>): (cased: seq<string>)
    ensures |cased| == |words|
  {
    seq(|words|, i requires 0 <= i < |words| => Cased(words[i], i))
  }

  function LowerCamel(s: string): string {
    Join(CasedWords(WordsFrom("", s)))
  }

  /** Character by character: separators are dropped, the first letter is small, and letters after one are capital. */
  function Camel(s: string): string {
    if s == "" then ""
    else
      var n := |s| - 1;
      var front, c := Camel(s[..n]), s[n];
      front
      + if !IsAlnum(c) then "" else if front == "" then [Lower(c)] else if IsAlnum(s[n - 1]) then [c] else [Upper(c)]
  }

  /** The text stops inside a word, `word` being the run just before it. */
  predicate InsideWord(word: string, s: string) {
    if s == "" then word != "" else IsAlnum(s[|s| - 1])
  }

  /** One more character is dropped, continues the last word, or begins one. */
  lemma {:induction false} WordsSnoc(word: string, s: string, c: char)
    ensures var words, more := WordsFrom(word, s), WordsFrom(word, s + [c]);
            if !IsAlnum(c) then more == words
            else if InsideWord(word, s)
            then words != [] && more == words[..|words| - 1] + [words[|words| - 1] + [c]]
            else more == words + [[c]]
    decreases |s|
  {
    if s == "" {
      assert s + [c] == [c] && [c][1..] == "";
      assert IsAlnum(c) ==> [word + [c]][..0] == [] && (word == "" ==> word + [c] == [c]);
    } else {
      assert (s + [c])[1..] == s[1..] + [c];
      if IsAlnum(s[0]) {
        WordsSnoc(word + [s[0]], s[1..], c);
      } else {
        WordsSnoc("", s[1..], c);
      }
    }
  }

  lemma CasedSnoc(words: seq<string>, last: string)
    ensures CasedWords(words + [last]) == CasedWords(words) + [Cased(last, |words|)]
  {
  }

  lemma CasedLonger(word: string, i: int, c: char)
    requires word != ""
    ensures Cased(word + [c], i) == Cased(word, i) + [c] && Cased(word, i) != ""
  {
    assert (word + [c])[1..] == word[1..] + [c];
  }

  lemma JoinedNotEmpty(words: seq<string>)
    requires forall w | w in words :: w != ""
    ensures Join(CasedWords(words)) == "" <==> words == []
  {
    hide Cased, Join;
    if words == [] {
      CasedNone();
      JoinNone();
    } else {
      var front, last := words[..|words| - 1], words[|words| - 1];
      assert words == front + [last];
      CasedSnoc(front, last);
      JoinSnoc(CasedWords(front), Cased(last, |front|));
      assert last in words && last + [last[0]] != "";
      CasedLonger(last, |front|, last[0]);
    }
  }

  /** Casing the words and joining them is the same as going through the text once. */
  lemma {:induction false} CamelByCharacter(s: string)
    ensures LowerCamel(s) == Camel(s)
    decreases |s|
  {
    hide Join, Cased, CasedWords, Lower, Upper;
    if s == "" {
      CasedNone();
      JoinNone();
    } else {
      var n := |s| - 1;
      var front, c := s[..n], s[n];
      assert s == front + [c];
      CamelByCharacter(front);
      WordsSnoc("", front, c);
      WordsNotEmpty("", front);
      JoinedNotEmpty(WordsFrom("", front));
      if IsAlnum(c) {
        OneMoreInCamel(WordsFrom("", front), c);
      }
    }
  }

  /** The effect of one more letter or digit on the joined words. */
  lemma OneMoreInCamel(words: seq<string>, c: char)
    requires forall w | w in words :: w != ""
    ensures Join(CasedWords(words + [[c]])) == Join(CasedWords(words)) + [if words == [] then Lower(c) else Upper(c)]
    ensures words != [] ==>
      Join(CasedWords(words[..|words| - 1] + [words[|words| - 1] + [c]])) == Join(CasedWords(words)) + [c]
  {
    hide Join, CasedWords;
    CasedSnoc(words, [c]);
    JoinSnoc(CasedWords(words), Cased([c], |words|));
    if words != [] {
      var front, last := words[..|words| - 1], words[|words| - 1];
      assert words == front + [last] && last in words;
      CasedSnoc(front, last);
      CasedSnoc(front, last + [c]);
      CasedLonger(last, |front|, c);
      JoinSnoc(CasedWords(front), Cased(last, |front|));
      JoinSnoc(CasedWords(front), Cased(last, |front|) + [c]);
    }
  }

  function AllLower(s: string): (t: string)
    ensures |t| == |s|
  {
    seq(|s|, i requires 0 <= i < |s| => Lower(s[i]))
  }

  /** The letters and digits of a text, in order. */
  function AlnumOf(s: string): string {
    if s == "" then "" else (if IsAlnum(s[0]) then [s[0]] else "") + AlnumOf(s[1..])
  }

  lemma JoinSnoc(words: seq<string>, last: string)
    ensures Join(words + [last]) == Join(words) + last
  {
    assert (words + [last])[..|words|] == words;
  }

  lemma {:induction false} JoinConcat(a: seq<string>, b: seq<string>)
    ensures Join(a + b) == Join(a) + Join(b)
    decreases |b|
  {
    hide Join;
    if b == [] {
      assert a + b == a;
      JoinNone();
    } else {
      var front, last := b[..|b| - 1], b[|b| - 1];
      assert a + b == (a + front) + [last] && b == front + [last];
      JoinConcat(a, front);
      JoinSnoc(a + front, last);
      JoinSnoc(front, last);
      assert Join(a) + Join(front) + last == Join(a) + (Join(front) + last);
    }
  }

  lemma JoinOne(word: string)
    ensures Join([word]) == word
  {
    assert [word][..0] == [];
  }

  lemma {:induction false} WordsHoldAlnum(word: string, s: string)
    ensures Join(WordsFrom(word, s)) == word + AlnumOf(s)
    decreases |s|
  {
    hide Join;
    JoinOne(word);
    JoinNone();
    if s == "" {
    } else if IsAlnum(s[0]) {
      WordsHoldAlnum(word + [s[0]], s[1..]);
    } else {
      WordsHoldAlnum("", s[1..]);
      JoinConcat(if word == "" then [] else [word], WordsFrom("", s[1..]));
    }
  }

  lemma JoinNone()
    ensures Join([]) == ""
  {
  }

  lemma AllLowerConcat(a: string, b: string)
    ensures AllLower(a + b) == AllLower(a) + AllLower(b)
  {
  }

  lemma CasedLower(word: string, i: int)
    ensures AllLower(Cased(word, i)) == AllLower(word)
  {
  }

  lemma {:induction false} CasedJoinLower(words: seq<string>)
    ensures AllLower(Join(CasedWords(words))) == AllLower(Join(words))
    decreases |words|
  {
    hide AllLower, Cased;
    if words != [] {
      var n := |words| - 1;
      CasedJoinLower(words[..n]);
      assert CasedWords(words)[..n] == CasedWords(words[..n]);
      CasedLower(words[n], n);
      AllLowerConcat(Join(CasedWords(words[..n])), Cased(words[n], n));
      AllLowerConcat(Join(words[..n]), words[n]);
    }
  }

  /** A base name holds the summary's letters and digits, all of them, in order, up to case. */
  lemma LowerCamelKeepsLetters(s: string)
    ensures AllLower(LowerCamel(s)) == AllLower(AlnumOf(s))
  {
    CasedJoinLower(WordsFrom("", s));
    WordsHoldAlnum("", s);
    assert "" + AlnumOf(s) == AlnumOf(s);
  }

  /** So routes whose summaries do not end in a digit (after dropping punctuation) never share an id. */
  lemma SummariesWithoutDigit(summaries: seq<string>, bases: seq<string>)
    requires |bases| == |summaries|
    requires forall i | 0 <= i < |bases| :: bases[i] == LowerCamel(summaries[i]) && !EndsInDigit(AlnumOf(summaries[i]))
    ensures AllDistinct(bases)
  {
    hide LowerCamel, AlnumOf, AllLower, AllDistinct;
    forall base | base in bases ensures !EndsInDigit(base) {
      var i :| 0 <= i < |bases| && bases[i] == base;
      LowerCamelKeepsLetters(summaries[i]);
      DigitsKeepCase(base, AlnumOf(summaries[i]));
    }
    NoDigitNoClash(bases);
  }

  lemma DigitsKeepCase(a: string, b: string)
    requires AllLower(a) == AllLower(b)
    ensures EndsInDigit(a) <==> EndsInDigit(b)
  {
    assert |a| == |b|;
    if a != "" {
      assert Lower(a[|a| - 1]) == AllLower(a)[|a| - 1] && Lower(b[|b| - 1]) == AllLower(b)[|b| - 1];
    }
  }

  // ---------- The registry ----------

  /** How often each base was used so far; `asked` lists them in order. */
  class Registry {
    var counts: map<string, int>
    ghost var asked: seq<string>

    ghost predicate Valid()
      reads this
    {
      forall base :: (if base in counts then counts[base] else 0) == Count(asked, base)
    }

    constructor ()
      ensures Valid() && asked == []
    {
      counts, asked := map[], [];
    }

    method EnsureUnique(base: string) returns (id: string)
      requires Valid()
      modifies this
      ensures Valid() && asked == old(asked) + [base]
      ensures id == IdAt(asked, |asked| - 1)
    {
      hide Id, Count, Decimal;
      var n := (if base in counts then counts[base] else 0) + 1;
      ghost var before := asked;
      forall other ensures Count(before + [base], other) == Count(before, other) + if base == other then 1 else 0 {
        CountSnoc(before, base, other);
      }
      counts, asked := counts[base := n], asked + [base];
      assert asked[..|asked|] == asked;
      FirstUse(base);
      if n == 1 {
        return base;
      }
      LaterUse(base, n);
      id := base + Decimal(n);
    }
  }

  lemma FirstUse(base: string)
    ensures Id(base, 1) == base
  {
  }

  lemma LaterUse(base: string, n: int)
    requires n >= 2
    ensures Id(base, n) == base + Decimal(n)
  {
  }

  /** Cases the words in place and joins them. */
  method ToLowerCamel(input: string) returns (name: string)
    ensures name == LowerCamel(input) && name == Camel(input)
  {
    hide Join, Cased, Camel;
    CamelByCharacter(input);
    var words := WordsFrom("", input);
    WordsNotEmpty("", input);
    if words == [] {
      JoinNone();
      return "";
    }
    var filtered := words;
    for i := 0 to |filtered|
      invariant |filtered| == |words|
      invariant forall k | 0 <= k < |words| :: filtered[k] == if k < i then Cased(words[k], k) else words[k]
    {
      var part := filtered[i];
      assert part == words[i] && words[i] in words;
      CasedParts(part, i);
      if i == 0 {
        filtered := filtered[i := [Lower(part[0])] + part[1..]];
      } else {
        filtered := filtered[i := [Upper(part[0])] + part[1..]];
      }
    }
    assert filtered == CasedWords(words);
    name := Join(filtered);
  }

  lemma CasedParts(word: string, i: int)
    requires word != ""
    ensures Cased(word, i) == [if i == 0 then Lower(word[0]) else Upper(word[0])] + word[1..]
  {
  }

  lemma {:induction false} WordsNotEmpty(word: string, s: string)
    ensures forall w | w in WordsFrom(word, s) :: w != ""
    decreases |s|
  {
    if s != "" {
      WordsNotEmpty(word + [s[0]], s[1..]);
      WordsNotEmpty("", s[1..]);
    }
  }

  predicate IsBlank(s: string, space: char -> bool) {
    forall i | 0 <= i < |s| :: space(s[i])
  }

  /** `space` says which characters are white space; the map of counts is the registry. */
  method NormalizeOperationId(registry: Registry, summary: string, fallback: string, space: char -> bool)
    returns (id: string)
    requires registry.Valid() && forall c | space(c) :: !IsAlnum(c)
    modifies registry
    ensures registry.Valid() && |registry.asked| == |old(registry.asked)| + 1
    ensures old(registry.asked) < registry.asked
    ensures var base := registry.asked[|old(registry.asked)|];
            base == LowerCamel(if LowerCamel(summary) != "" then summary else fallback)
    ensures id == IdAt(registry.asked, |registry.asked| - 1)
  {
    hide LowerCamel, IdAt, AlnumOf, AllLower, Camel;
    var text := summary;
    if IsBlank(summary, space) {
      BlankHasNoLetters(summary, space);
      NoLetters(summary);
      text := fallback;
    }
    var base := ToLowerCamel(text);
    if base == "" {
      base := ToLowerCamel(fallback);
    }
    id := registry.EnsureUnique(base);
  }

  lemma {:induction false} BlankHasNoLetters(s: string, space: char -> bool)
    requires IsBlank(s, space) && forall c | space(c) :: !IsAlnum(c)
    ensures AlnumOf(s) == ""
    decreases |s|
  {
    if s != "" {
      BlankHasNoLetters(s[1..], space);
    }
  }

  lemma NoLetters(summary: string)
    requires AlnumOf(summary) == ""
    ensures LowerCamel(summary) == ""
  {
    LowerCamelKeepsLetters(summary);
    assert |AllLower(LowerCamel(summary))| == |LowerCamel(summary)|;
  }

  /** A base name is its own base name, so normalising a specification again starts from the same bases. */
  lemma LowerCamelIdempotent(s: string)
    ensures LowerCamel(LowerCamel(s)) == LowerCamel(s)
  {
    hide WordsFrom, CasedWords, Join;
    var name := LowerCamel(s);
    WordsAreAlnum("", s);
    CasedJoinAlnum(WordsFrom("", s));
    OneWord("", name);
    assert "" + name == name;
    if name != "" {
      StartsSmall(s);
      CasedOnce(name);
      JoinOne(name);
    } else {
      CasedNone();
      JoinNone();
    }
  }

  lemma CasedOnce(name: string)
    requires name != "" && Lower(name[0]) == name[0]
    ensures CasedWords([name]) == [name]
  {
    assert Cased(name, 0) == name;
  }

  lemma CasedNone()
    ensures CasedWords([]) == []
  {
  }

  predicate AllAlnum(s: string) {
    forall i | 0 <= i < |s| :: IsAlnum(s[i])
  }

  lemma {:induction false} WordsAreAlnum(word: string, s: string)
    requires AllAlnum(word)
    ensures forall w | w in WordsFrom(word, s) :: AllAlnum(w)
    decreases |s|
  {
    if s != "" {
      if IsAlnum(s[0]) {
        WordsAreAlnum(word + [s[0]], s[1..]);
      } else {
        WordsAreAlnum("", s[1..]);
      }
    }
  }

  lemma CasedAlnum(word: string, i: int)
    requires AllAlnum(word)
    ensures AllAlnum(Cased(word, i))
  {
  }

  lemma {:induction false} CasedJoinAlnum(words: seq<string>)
    requires forall w | w in words :: AllAlnum(w)
    ensures AllAlnum(Join(CasedWords(words)))
    decreases |words|
  {
    hide Cased;
    if words != [] {
      var n := |words| - 1;
      CasedJoinAlnum(words[..n]);
      CasedAlnum(words[n], n);
      assert CasedWords(words)[..n] == CasedWords(words[..n]);
    }
  }

  lemma {:induction false} OneWord(word: string, s: string)
    requires AllAlnum(s)
    ensures WordsFrom(word, s) == if word + s == "" then [] else [word + s]
    decreases |s|
  {
    if s == "" {
      assert word + s == word;
    } else {
      OneWord(word + [s[0]], s[1..]);
      assert word + [s[0]] + s[1..] == word + s;
    }
  }

  lemma StartsSmall(s: string)
    requires LowerCamel(s) != ""
    ensures Lower(LowerCamel(s)[0]) == LowerCamel(s)[0]
  {
    var words := WordsFrom("", s);
    WordsNotEmpty("", s);
    assert words != [];
    assert words[0] in words;
    FirstOfJoin(CasedWords(words));
  }

  lemma {:induction false} FirstOfJoin(words: seq<string>)
    requires words != [] && words[0] != ""
    ensures Join(words) != "" && Join(words)[0] == words[0][0]
    decreases |words|
  {
    if |words| == 1 {
      JoinOne(words[0]);
      assert words == [words[0]];
    } else {
      FirstOfJoin(words[..|words| - 1]);
    }
  }
}
