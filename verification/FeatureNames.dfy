/** Names of feature branches: cleaning a text, choosing words from a description, cutting to the length limit. */
module FeatureNames {
  import opened Common

  predicate IsDigit(c: char) { '0' <= c <= '9' }

  predicate IsAlnum(c: char) { IsDigit(c) || 'a' <= c <= 'z' }

  function UpperChar(c: char): char {
    if 'a' <= c <= 'z' then c - 'a' + 'A' else c
  }

  /** The text that bash's `echo` writes for one argument: an argument made only of its own options prints nothing. */
  function Echo(s: string): string {
    if |s| >= 2 && s[0] == '-' && (forall k :: 1 <= k < |s| ==> s[k] in "neE") then "" else s
  }

  /** Lower case, then `other` for every character that is neither a letter nor a digit. */
  function Fold(s: string, other: char): (r: string)
    ensures |r| == |s|
    ensures forall k :: 0 <= k < |s| ==> r[k] == if IsAlnum(LowerChar(s[k])) then LowerChar(s[k]) else other
  {
    seq(|s|, k requires 0 <= k < |s| => if IsAlnum(LowerChar(s[k])) then LowerChar(s[k]) else other)
  }

  /** One hyphen for each run of hyphens. */
  function Collapse(s: string): string {
    if |s| < 2 then s
    else if s[0] == '-' && s[1] == '-' then Collapse(s[1..])
    else [s[0]] + Collapse(s[1..])
  }

  function StripHead(s: string): string {
    if s != "" && s[0] == '-' then s[1..] else s
  }

  function StripTail(s: string): string {
    if s != "" && s[|s| - 1] == '-' then s[..|s| - 1] else s
  }

  function CleanBranchName(s: string): string {
    StripTail(StripHead(Collapse(Fold(Echo(s), '-'))))
  }

  // ---- the form of a clean name ----

  predicate IsClean(s: string) {
    && (forall k :: 0 <= k < |s| ==> IsAlnum(s[k]) || s[k] == '-')
    && (forall k :: 0 < k < |s| ==> s[k - 1] != '-' || s[k] != '-')
    && (s != "" ==> s[0] != '-' && s[|s| - 1] != '-')
  }

  /** The number of characters before the first `stop`. */
  function Span(s: string, stop: char): (n: nat)
    ensures n <= |s|
    ensures forall k :: 0 <= k < n ==> s[k] != stop
    ensures n < |s| ==> s[n] == stop
  {
    if s == "" || s[0] == stop then 0 else Span(s[1..], stop) + 1
  }

  /** The words of a text, in order, when `gap` stands between words. */
  function Words(s: string, gap: char): (r: seq<string>)
    ensures forall k :: 0 <= k < |r| ==> r[k] != "" && forall i :: 0 <= i < |r[k]| ==> r[k][i] in s && r[k][i] != gap
  {
    if s == "" then []
    else if s[0] == gap then Words(s[1..], gap)
    else
      var n := Span(s, gap);
      assert n > 0;
      [s[..n]] + Words(s[n..], gap)
  }

  function Join(words: seq<string>): string {
    if words == [] then "" else if |words| == 1 then words[0] else words[0] + "-" + Join(words[1..])
  }

  /** Non-empty runs of letters and digits. */
  ghost predicate AreWords(words: seq<string>) {
    forall k :: 0 <= k < |words| ==> words[k] != "" && forall i :: 0 <= i < |words[k]| ==> IsAlnum(words[k][i])
  }

  lemma {:induction false} CollapseWord(word: string, rest: string)
    requires forall k :: 0 <= k < |word| ==> word[k] != '-'
    ensures Collapse(word + rest) == word + Collapse(rest)
  {
    if word == "" {
      assert word + rest == rest;
    } else {
      assert (word + rest)[1..] == word[1..] + rest;
      CollapseWord(word[1..], rest);
      assert Collapse(word + rest) == [word[0]] + Collapse(word[1..] + rest);
    }
  }

  /** A run of hyphens in front collapses to one: what follows it. */
  lemma {:induction false} AfterGap(s: string) returns (rest: string)
    requires s != "" && s[0] == '-'
    ensures |rest| < |s| && (rest != "" ==> rest[0] != '-')
    ensures Collapse(s) == "-" + Collapse(rest) && Words(s, '-') == Words(rest, '-')
  {
    if |s| == 1 || s[1] != '-' {
      rest := s[1..];
      assert Collapse(s) == "-" + Collapse(rest);
    } else {
      rest := AfterGap(s[1..]);
    }
  }

  lemma {:induction false} CollapsedIsJoin(s: string)
    requires s != "" ==> s[0] != '-'
    ensures StripTail(Collapse(s)) == Join(Words(s, '-'))
    ensures Collapse(s) == "" <==> Words(s, '-') == []
    decreases |s|
  {
    if s != "" {
      var n := Span(s, '-');
      var word, rest := s[..n], s[n..];
      assert s == word + rest;
      CollapseWord(word, rest);
      if rest != "" {
        var later := AfterGap(rest);
        CollapsedIsJoin(later);
        JoinTail(word, Collapse(later));
      } else {
        assert Collapse(s) == word;
      }
    }
  }

  lemma JoinTail(word: string, rest: string)
    ensures StripTail(word + ("-" + rest)) == if rest == "" then word else word + "-" + StripTail(rest)
  {
    var s := word + ("-" + rest);
    if rest == "" {
      assert s[..|s| - 1] == word;
    } else {
      assert s[|s| - 1] == rest[|rest| - 1];
      assert s[..|s| - 1] == word + "-" + rest[..|rest| - 1];
    }
  }

  /** Cleaning a text is joining its words with single hyphens, whatever stood between them. */
  lemma CleanIsJoin(s: string)
    ensures CleanBranchName(s) == Join(Words(Fold(Echo(s), '-'), '-'))
  {
    StrippedIsJoin(Fold(Echo(s), '-'));
  }

  lemma StrippedIsJoin(s: string)
    ensures StripTail(StripHead(Collapse(s))) == Join(Words(s, '-'))
  {
    hide Collapse, StripTail, Join, Words;
    if s != "" && s[0] == '-' {
      var rest := AfterGap(s);
      assert ("-" + Collapse(rest))[1..] == Collapse(rest);
      CollapsedIsJoin(rest);
    } else {
      CollapsedIsJoin(s);
      CollapseHead(s);
    }
  }

  lemma {:induction false} CollapseHead(s: string)
    ensures if s == "" then Collapse(s) == "" else Collapse(s) != "" && Collapse(s)[0] == s[0]
  {
    if |s| >= 2 && s[0] == '-' && s[1] == '-' {
      CollapseHead(s[1..]);
    }
  }

  lemma {:induction false} JoinIsClean(words: seq<string>)
    requires AreWords(words)
    ensures IsClean(Join(words)) && (Join(words) == "" <==> words == [])
  {
    if |words| > 1 {
      JoinIsClean(words[1..]);
      var r, w, rest := Join(words), words[0], Join(words[1..]);
      assert forall k :: 0 <= k < |w| ==> r[k] == w[k];
      assert r[|w|] == '-';
      assert forall k :: |w| < k < |r| ==> r[k] == rest[k - |w| - 1];
    }
  }

  lemma FoldedWords(s: string, gap: char)
    requires !IsAlnum(gap)
    ensures AreWords(Words(Fold(s, gap), gap))
  {
    var folded := Fold(s, gap);
    forall c | c in folded && c != gap ensures IsAlnum(c) {}
  }

  lemma {:induction false} CollapseFixed(s: string)
    requires forall k :: 0 < k < |s| ==> s[k - 1] != '-' || s[k] != '-'
    ensures Collapse(s) == s
  {
    if |s| >= 2 {
      assert forall k :: 0 < k < |s| - 1 ==> s[1..][k] == s[k + 1] && s[1..][k - 1] == s[k];
      CollapseFixed(s[1..]);
    }
  }

  /**
   A name is left as it is exactly when it has the clean form, and every result has it: cleaning twice is cleaning
   once.
   */
  lemma CleanIdempotent(s: string)
    ensures IsClean(CleanBranchName(s))
    ensures CleanBranchName(s) == s <==> IsClean(s)
    ensures CleanBranchName(CleanBranchName(s)) == CleanBranchName(s)
  {
    ResultIsClean(s);
    if IsClean(s) { CleanIsFixed(s); }
    CleanIsFixed(CleanBranchName(s));
  }

  lemma ResultIsClean(s: string)
    ensures IsClean(CleanBranchName(s))
  {
    CleanIsJoin(s);
    FoldedWords(Echo(s), '-');
    JoinIsClean(Words(Fold(Echo(s), '-'), '-'));
  }

  lemma CleanIsFixed(s: string)
    requires IsClean(s)
    ensures CleanBranchName(s) == s
  {
    assert Echo(s) == s;
    assert Fold(s, '-') == s;
    CollapseFixed(s);
  }

  /** The letters and digits of a text, in order and in lower case. */
  function Letters(s: string): string {
    if s == "" then ""
    else
      var c := s[0];
      (if 'a' <= c <= 'z' || '0' <= c <= '9' then [c]
       else if 'A' <= c <= 'Z' then [c - 'A' + 'a']
       else "") + Letters(s[1..])
  }

  /** Cleaning loses no letter and no digit, adds none, and keeps their order. */
  lemma CleanKeepsLetters(s: string)
    ensures Letters(CleanBranchName(s)) == Letters(Echo(s))
  {
    var folded := Fold(Echo(s), '-');
    FoldKeepsLetters(Echo(s), '-');
    CollapseKeepsLetters(folded);
    var c := Collapse(folded);
    if StripHead(c) != c { assert c == ['-'] + StripHead(c); }
    var h := StripHead(c);
    if StripTail(h) != h {
      assert h == StripTail(h) + ['-'];
      LettersConcat(StripTail(h), ['-']);
    }
  }

  lemma {:induction false} LettersConcat(a: string, b: string)
    ensures Letters(a + b) == Letters(a) + Letters(b)
  {
    if a == "" {
      assert a + b == b;
    } else {
      assert (a + b)[1..] == a[1..] + b;
      LettersConcat(a[1..], b);
    }
  }

  lemma {:induction false} FoldKeepsLetters(s: string, other: char)
    requires other == '-' || other == ' '
    ensures Letters(Fold(s, other)) == Letters(s)
  {
    if s != "" {
      assert Fold(s, other)[1..] == Fold(s[1..], other);
      FoldKeepsLetters(s[1..], other);
    }
  }

  lemma {:induction false} CollapseKeepsLetters(s: string)
    ensures Letters(Collapse(s)) == Letters(s)
  {
    if |s| >= 2 {
      CollapseKeepsLetters(s[1..]);
      if !(s[0] == '-' && s[1] == '-') {
        assert Collapse(s)[1..] == Collapse(s[1..]);
      }
    }
  }

  // ---- the suffix made from a description ----

  const STOP_WORDS: set<string> := {
    "i", "a", "an", "the", "to", "for", "of", "in", "on", "at", "by", "with", "from", "is", "are", "was", "were",
    "be", "been", "being", "have", "has", "had", "do", "does", "did", "will", "would", "should", "could", "can",
    "may", "might", "must", "shall", "this", "that", "these", "those", "my", "your", "our", "their", "want",
    "need", "add", "get", "set"}

  function Upper(s: string): string {
    seq(|s|, k requires 0 <= k < |s| => UpperChar(s[k]))
  }

  predicate IsWordChar(c: char) { IsAlnum(LowerChar(c)) || c == '_' }

  /** `grep "\bword\b"`: the word stands somewhere in the text with a word boundary on both sides. */
  predicate Mentions(text: string, word: string) {
    exists i :: 0 <= i <= |text| - |word| && MentionedAt(text, word, i)
  }

  predicate MentionedAt(text: string, word: string, i: nat)
    requires i + |word| <= |text|
  {
    && text[i..i + |word|] == word
    && (i == 0 || !IsWordChar(text[i - 1]))
    && (i + |word| == |text| || !IsWordChar(text[i + |word|]))
  }

  /** Long enough, or short but written in capitals in the description. */
  predicate IsMeaningful(description: string, word: string) {
    word !in STOP_WORDS && (|word| >= 3 || Mentions(Echo(description), Upper(word)))
  }

  /** A short word counts when the description has it in capitals, with nothing of a word on either side. */
  ghost predicate InCapitals(text: string, word: string, before: string, after: string) {
    && |text| == |before| + |word| + |after|
    && before <= text && text[|before| + |word|..] == after
    && (before == "" || !IsWordChar(before[|before| - 1])) && (after == "" || !IsWordChar(after[0]))
    && forall k :: 0 <= k < |word| ==>
         text[|before| + k] == if 'a' <= word[k] <= 'z' then word[k] - 'a' + 'A' else word[k]
  }

  lemma MeaningfulIff(description: string, word: string)
    ensures IsMeaningful(description, word)
            <==> word !in STOP_WORDS
                 && (|word| > 2 || exists before, after :: InCapitals(Echo(description), word, before, after))
  {
    hide Echo;
    var text := Echo(description);
    if Mentions(text, Upper(word)) {
      var i :| 0 <= i <= |text| - |word| && MentionedAt(text, Upper(word), i);
      CapitalsIff(text, word, i);
      assert InCapitals(text, word, text[..i], text[i + |word|..]);
    }
    if before, after :| InCapitals(text, word, before, after) {
      assert before == text[..|before|];
      CapitalsIff(text, word, |before|);
      assert MentionedAt(text, Upper(word), |before|);
    }
  }

  lemma CapitalsIff(text: string, word: string, i: nat)
    requires i + |word| <= |text|
    ensures InCapitals(text, word, text[..i], text[i + |word|..]) <==> MentionedAt(text, Upper(word), i)
  {
    hide IsWordChar;
    var up, here := Upper(word), text[i..i + |word|];
    forall k | 0 <= k < |word| ensures here[k] == text[i + k] {}
    if forall k :: 0 <= k < |word| ==> text[i + k] == up[k] {
      assert here == up;
    }
  }

  function Meaningful(description: string, words: seq<string>): (r: seq<string>)
    ensures forall w :: w in r <==> w in words && IsMeaningful(description, w)
    ensures |r| <= |words|
  {
    if words == [] then []
    else
      var front, last := words[..|words| - 1], words[|words| - 1];
      assert words == front + [last];
      Meaningful(description, front) + if IsMeaningful(description, last) then [last] else []
  }

  function Take(words: seq<string>, n: nat): seq<string> {
    if |words| <= n then words else words[..n]
  }

  /** All four of exactly four meaningful words, else the first three; without any, the first three words there are. */
  ghost function SuffixWords(description: string): seq<string> {
    var kept := Meaningful(description, Words(Fold(Echo(description), ' '), ' '));
    if kept != [] then Take(kept, if |kept| == 4 then 4 else 3)
    else Take(Words(CleanBranchName(description), '-'), 3)
  }

  /** No letter and no digit, as far as `echo` writes the text. */
  ghost predicate IsBlank(text: string) {
    forall k :: 0 <= k < |Echo(text)| ==> !IsAlnum(LowerChar(Echo(text)[k]))
  }

  /** `r` is what is left of `words` when some are crossed out, and `at` says where each of its words stood. */
  ghost predicate PickedAt(words: seq<string>, r: seq<string>, at: seq<nat>) {
    && |at| == |r|
    && (forall k :: 0 <= k < |r| ==> at[k] < |words| && words[at[k]] == r[k])
    && (forall j, k :: 0 <= j < k < |at| ==> at[j] < at[k])
  }

  /** The meaningful words keep their order, and every place with a meaningful word is taken. */
  lemma {:induction false} MeaningfulInOrder(description: string, words: seq<string>) returns (at: seq<nat>)
    ensures PickedAt(words, Meaningful(description, words), at)
    ensures forall i: nat :: i < |words| ==> (i in at <==> IsMeaningful(description, words[i]))
  {
    hide IsMeaningful, PickedAt, Meaningful;
    MeaningfulUnfold(description, words);
    if words == [] {
      at := [];
      PickNone();
    } else {
      var front, w := words[..|words| - 1], words[|words| - 1];
      var before := MeaningfulInOrder(description, front);
      PickMore(front, w, Meaningful(description, front), before);
      assert words == front + [w];
      at := if IsMeaningful(description, w) then before + [|front|] else before;
      AllPicked(description, front, w, before);
    }
  }

  lemma AllPicked(description: string, words: seq<string>, w: string, at: seq<nat>)
    requires forall i: nat :: i < |words| ==> (i in at <==> IsMeaningful(description, words[i]))
    requires |words| !in at
    ensures var after := if IsMeaningful(description, w) then at + [|words|] else at;
            forall i: nat :: i < |words + [w]| ==> (i in after <==> IsMeaningful(description, (words + [w])[i]))
  {
    hide IsMeaningful;
  }

  lemma MeaningfulUnfold(description: string, words: seq<string>)
    ensures words == [] ==> Meaningful(description, words) == []
    ensures words != [] ==>
      var before := Meaningful(description, words[..|words| - 1]);
      Meaningful(description, words)
      == if IsMeaningful(description, words[|words| - 1]) then before + [words[|words| - 1]] else before
  {
    hide IsMeaningful;
  }

  lemma PickNone()
    ensures PickedAt([], [], [])
  {}

  lemma PickMore(words: seq<string>, w: string, r: seq<string>, at: seq<nat>)
    requires PickedAt(words, r, at)
    ensures PickedAt(words + [w], r, at) && PickedAt(words + [w], r + [w], at + [|words|])
    ensures |words| !in at
  {}

  /** How many words the suffix has: up to four meaningful ones, three of more; without any, the first three words. */
  lemma SuffixLength(description: string)
    ensures var kept := Meaningful(description, Words(Fold(Echo(description), ' '), ' '));
            var all := Words(Fold(Echo(description), '-'), '-');
            var suffix := SuffixWords(description);
            && (|kept| == 0 ==> suffix <= all && |suffix| == if |all| < 3 then |all| else 3)
            && (1 <= |kept| <= 4 ==> suffix == kept)
            && (|kept| >= 5 ==> suffix == kept[..3])
  {
    CleanWords(description);
    hide Words, Fold, Echo, Meaningful, CleanBranchName;
  }

  method GenerateBranchName(description: string) returns (suffix: string)
    ensures suffix == Join(SuffixWords(description))
  {
    var words := Words(Fold(Echo(description), ' '), ' ');
    var meaningful := SelectWords(description, words);
    if |meaningful| > 0 {
      var maxWords := 3;
      if |meaningful| == 4 { maxWords := 4; }
      FoldedWords(Echo(description), ' ');
      ChosenWords(words, meaningful);
      suffix := JoinFirst(meaningful, maxWords);
    } else {
      suffix := Join(Take(Words(CleanBranchName(description), '-'), 3));
    }
  }

  method SelectWords(description: string, words: seq<string>) returns (meaningful: seq<string>)
    ensures meaningful == Meaningful(description, words)
  {
    meaningful := [];
    for k := 0 to |words|
      invariant meaningful == Meaningful(description, words[..k])
    {
      assert words[..k + 1][..k] == words[..k];
      if words[k] !in STOP_WORDS {
        if |words[k]| >= 3 {
          meaningful := meaningful + [words[k]];
        } else if Mentions(Echo(description), Upper(words[k])) {
          meaningful := meaningful + [words[k]];
        }
      }
    }
    assert words[..|words|] == words;
  }

  method JoinFirst(words: seq<string>, max: nat) returns (result: string)
    requires forall k :: 0 <= k < |words| ==> words[k] != ""
    ensures result == Join(Take(words, max))
  {
    result := "";
    var count := 0;
    while count < |words| && count < max
      invariant count <= |words| && count <= max
      invariant result == Join(words[..count])
      invariant result != "" <==> count > 0
    {
      JoinSnoc(words[..count], words[count]);
      assert words[..count + 1] == words[..count] + [words[count]];
      if result != "" { result := result + "-"; }
      result := result + words[count];
      count := count + 1;
    }
    assert words[..count] == Take(words, max);
  }

  lemma {:induction false} JoinSnoc(words: seq<string>, word: string)
    ensures Join(words + [word]) == if words == [] then word else Join(words) + "-" + word
  {
    if |words| > 0 {
      assert (words + [word])[1..] == words[1..] + [word];
      JoinSnoc(words[1..], word);
    }
  }

  /** The suffix is always a clean name, and empty exactly for a description without letters and digits. */
  lemma SuffixForm(description: string)
    ensures IsClean(Join(SuffixWords(description)))
    ensures Join(SuffixWords(description)) == "" <==> IsBlank(description)
  {
    hide Words, Fold, Echo, Meaningful, IsMeaningful, IsBlank, AreWords, Join, CleanBranchName, Take;
    var all := Words(Fold(Echo(description), ' '), ' ');
    var kept := Meaningful(description, all);
    var clean := Words(CleanBranchName(description), '-');
    FoldedWords(Echo(description), ' ');
    BlankIff(description, ' ');
    CleanWords(description);
    BlankIff(description, '-');
    ChosenWords(all, kept);
    SomeTaken(kept, if |kept| == 4 then 4 else 3);
    SomeTaken(clean, 3);
    KeptOnlyWords(description, all);
    JoinIsClean(SuffixWords(description));
  }

  lemma KeptOnlyWords(description: string, words: seq<string>)
    ensures words == [] ==> Meaningful(description, words) == []
  {}

  lemma SomeTaken(words: seq<string>, n: nat)
    requires AreWords(words) && n > 0
    ensures AreWords(Take(words, n)) && (Take(words, n) == [] <==> words == [])
  {}

  lemma ChosenWords(words: seq<string>, chosen: seq<string>)
    requires AreWords(words)
    ensures (forall w :: w in chosen ==> w in words) ==> AreWords(chosen)
  {
    if forall w :: w in chosen ==> w in words {
      forall k | 0 <= k < |chosen|
        ensures chosen[k] != "" && forall i :: 0 <= i < |chosen[k]| ==> IsAlnum(chosen[k][i])
      {
        assert chosen[k] in words;
      }
    }
  }

  lemma CleanWords(s: string)
    ensures Words(CleanBranchName(s), '-') == Words(Fold(Echo(s), '-'), '-')
    ensures AreWords(Words(CleanBranchName(s), '-'))
  {
    CleanIsJoin(s);
    FoldedWords(Echo(s), '-');
    WordsOfJoin(Words(Fold(Echo(s), '-'), '-'));
  }

  lemma BlankIff(s: string, gap: char)
    requires !IsAlnum(gap)
    ensures Words(Fold(Echo(s), gap), gap) == [] <==> IsBlank(s)
  {
    var folded := Fold(Echo(s), gap);
    NoWordsIff(folded, gap);
    assert forall k :: 0 <= k < |folded| ==> (folded[k] == gap <==> !IsAlnum(LowerChar(Echo(s)[k])));
  }

  /** The suffix cleaned from a given short name is empty exactly for a name without letters and digits. */
  lemma CleanIsEmptyIff(s: string)
    ensures CleanBranchName(s) == "" <==> IsBlank(s)
  {
    CleanIsJoin(s);
    FoldedWords(Echo(s), '-');
    JoinIsClean(Words(Fold(Echo(s), '-'), '-'));
    BlankIff(s, '-');
  }

  lemma {:induction false} NoWordsIff(s: string, gap: char)
    ensures Words(s, gap) == [] <==> forall k :: 0 <= k < |s| ==> s[k] == gap
  {
    if s != "" && s[0] == gap {
      NoWordsIff(s[1..], gap);
      assert forall k :: 1 <= k < |s| ==> s[1..][k - 1] == s[k];
    }
  }

  /** Joining loses nothing: the words can be read back. */
  lemma {:induction false} WordsOfJoin(words: seq<string>)
    requires AreWords(words)
    ensures Words(Join(words), '-') == words
  {
    hide Words;
    if words == [] {
      NoWords();
    } else if |words| == 1 {
      WordsAlone(words[0]);
    } else {
      WordsOfJoin(words[1..]);
      WordsAfter(words[0], Join(words[1..]));
      assert words[0] + "-" + Join(words[1..]) == words[0] + ("-" + Join(words[1..]));
    }
  }

  lemma NoWords()
    ensures Words("", '-') == []
  {}

  lemma WordsAlone(word: string)
    requires word != "" && forall i :: 0 <= i < |word| ==> IsAlnum(word[i])
    ensures Words(word, '-') == [word]
  {
    assert Span(word, '-') == |word| && word[..|word|] == word && word[|word|..] == "";
  }

  lemma WordsAfter(word: string, rest: string)
    requires word != "" && forall i :: 0 <= i < |word| ==> IsAlnum(word[i])
    ensures Words(word + ("-" + rest), '-') == [word] + Words(rest, '-')
  {
    var s := word + ("-" + rest);
    SpanOfWord(word, "-" + rest);
    assert s[0] == word[0] && s[..|word|] == word && s[|word|..] == "-" + rest;
    assert ("-" + rest)[1..] == rest;
    assert Words("-" + rest, '-') == Words(rest, '-');
  }

  lemma {:induction false} SpanOfWord(word: string, rest: string)
    requires forall i :: 0 <= i < |word| ==> IsAlnum(word[i])
    requires rest != "" && rest[0] == '-'
    ensures Span(word + rest, '-') == |word|
  {
    if word == "" {
      assert word + rest == rest;
    } else {
      assert (word + rest)[0] == word[0] && (word + rest)[1..] == word[1..] + rest;
      SpanOfWord(word[1..], rest);
    }
  }

  // ---- number, hyphen, suffix, and the length limit ----

  const MAX_BRANCH_LENGTH: nat := 244

  function BranchName(number: string, suffix: string): string
    requires |number| < MAX_BRANCH_LENGTH
  {
    if |number + "-" + suffix| > MAX_BRANCH_LENGTH
    then number + "-" + StripTail(suffix[..MAX_BRANCH_LENGTH - (|number| + 1)])
    else number + "-" + suffix
  }

  /**
   A name fits the limit, starts with its whole number and a hyphen, goes on with a clean beginning of
   the suffix, and ends in a hyphen only when there was no suffix to begin with.
   */
  lemma BranchNameFits(number: string, suffix: string)
    requires |number| < MAX_BRANCH_LENGTH - 1 && IsClean(suffix)
    ensures var name := BranchName(number, suffix);
            && |name| <= 244
            && |name| > |number| && name[..|number| + 1] == number + "-"
            && IsClean(name[|number| + 1..])
            && name <= number + "-" + suffix
            && (name[|name| - 1] == '-' <==> suffix == "")
            && (name == number + "-" + suffix <==> |number| + 1 + |suffix| <= 244)
            && (|number| + 1 + |suffix| > 244 ==> 243 <= |name|)
  {
    var name := BranchName(number, suffix);
    var max := MAX_BRANCH_LENGTH - (|number| + 1);
    var kept := if |suffix| > max then StripTail(suffix[..max]) else suffix;
    assert name == number + "-" + kept;
    assert name[|number| + 1..] == kept;
    assert kept <= suffix;
    assert kept != "" ==> name[|name| - 1] == kept[|kept| - 1];
  }
}
