/**
 * The category slug derived from an execution's objective: the chain of string
 * operations, an independent reading of it as the first five alphanumeric words,
 * and the normal form it reaches. Letters are lower-cased in ASCII.
 */
module Slug {
  predicate IsAlnum(c: char) {
    'a' <= c <= 'z' || '0' <= c <= '9'
  }

  function Lower(c: char): char {
    if 'A' <= c <= 'Z' then (c as int + 32) as char else c
  }

  function LowerAll(s: string): (r: string)
    ensures |r| == |s| && forall i :: 0 <= i < |s| ==> r[i] == Lower(s[i])
  {
    if s == [] then [] else [Lower(s[0])] + LowerAll(s[1..])
  }

  // ----- The chain of operations ---------------------------------------------

  /** replace(/[^a-z0-9]+/g, '-') */
  function ReplaceRuns(s: string): string {
    if s == [] then []
    else if IsAlnum(s[0]) then [s[0]] + ReplaceRuns(s[1..])
    else if |s| > 1 && !IsAlnum(s[1]) then ReplaceRuns(s[1..])
    else ['-'] + ReplaceRuns(s[1..])
  }

  /** replace(/-+/g, '-') */
  function Collapse(s: string): string {
    if s == [] then []
    else if s[0] != '-' then [s[0]] + Collapse(s[1..])
    else if |s| > 1 && s[1] == '-' then Collapse(s[1..])
    else ['-'] + Collapse(s[1..])
  }

  /** replace(/^-+|-+$/g, '') */
  function TrimHyphens(s: string): string {
    if s != [] && s[0] == '-' then TrimHyphens(s[1..])
    else if s != [] && s[|s| - 1] == '-' then TrimHyphens(s[..|s| - 1])
    else s
  }

  /** split('-') */
  function Split(s: string): (pieces: seq<string>)
    ensures pieces != []
  {
    if s == [] then [[]]
    else if s[0] == '-' then [[]] + Split(s[1..])
    else
      var rest := Split(s[1..]);
      [[s[0]] + rest[0]] + rest[1..]
  }

  function NonEmpty(pieces: seq<string>): seq<string> {
    if pieces == [] then []
    else (if pieces[0] == [] then [] else [pieces[0]]) + NonEmpty(pieces[1..])
  }

  function Join(words: seq<string>): string {
    if words == [] then []
    else if |words| == 1 then words[0]
    else words[0] + ['-'] + Join(words[1..])
  }

  function Take<T>(s: seq<T>, n: nat): seq<T> {
    if |s| <= n then s else s[..n]
  }

  const MAX_WORDS := 5
  const MAX_LENGTH := 255

  function DeriveObjectiveCategory(objective: string): string {
    var slug := TrimHyphens(Collapse(ReplaceRuns(LowerAll(objective))));
    Take(Join(Take(NonEmpty(Split(slug)), MAX_WORDS)), MAX_LENGTH)
  }

  // ----- An independent reading ------------------------------------------------

  /** The maximal alphanumeric runs of a text. */
  function Words(s: string): (words: seq<string>)
    ensures s != [] && IsAlnum(s[0]) ==> words != []
    ensures |words| <= |s|
  {
    if s == [] then []
    else if !IsAlnum(s[0]) then Words(s[1..])
    else if |s| > 1 && IsAlnum(s[1]) then
      var rest := Words(s[1..]);
      [[s[0]] + rest[0]] + rest[1..]
    else [[s[0]]] + Words(s[1..])
  }

  predicate IsWord(w: string) {
    w != [] && forall i :: 0 <= i < |w| ==> IsAlnum(w[i])
  }

  predicate AreWords(ws: seq<string>) {
    forall i :: 0 <= i < |ws| ==> IsWord(ws[i])
  }

  predicate SlugAlphabet(s: string) {
    forall i :: 0 <= i < |s| ==> IsAlnum(s[i]) || s[i] == '-'
  }

  lemma {:induction false} WordsAreWords(s: string)
    ensures AreWords(Words(s))
  {
    if s != [] {
      WordsAreWords(s[1..]);
    }
  }

  function Concat(words: seq<string>): string {
    if words == [] then [] else words[0] + Concat(words[1..])
  }

  function LetterOrDigit(c: char): string {
    if 'a' <= c <= 'z' || '0' <= c <= '9' then [c]
    else if 'A' <= c <= 'Z' then ["abcdefghijklmnopqrstuvwxyz"[c as int - 'A' as int]]
    else []
  }

  /** The letters and digits of a text, in lower case. */
  function LettersAndDigits(s: string): string {
    if s == [] then [] else LetterOrDigit(s[0]) + LettersAndDigits(s[1..])
  }

  lemma AlphabetInOrder(c: char)
    ensures LetterOrDigit(c) == if IsAlnum(Lower(c)) then [Lower(c)] else []
  {
  }

  /** The words of a text hold exactly its letters and digits, in order. */
  lemma {:induction false} WordsHoldTheLetters(s: string)
    ensures Concat(Words(LowerAll(s))) == LettersAndDigits(s)
  {
    hide IsAlnum, Lower, LetterOrDigit;
    if s != [] {
      var t := LowerAll(s);
      assert t[1..] == LowerAll(s[1..]);
      WordsHoldTheLetters(s[1..]);
      AlphabetInOrder(s[0]);
      FirstLetter(t);
    }
  }

  lemma FirstLetter(t: string)
    requires t != []
    ensures Concat(Words(t)) == (if IsAlnum(t[0]) then [t[0]] else []) + Concat(Words(t[1..]))
  {
    if IsAlnum(t[0]) {
      var rest := Words(t[1..]);
      if |t| > 1 && IsAlnum(t[1]) {
        assert Words(t) == [[t[0]] + rest[0]] + rest[1..];
        LongerWord(t[0], rest);
      } else {
        assert Words(t) == [[t[0]]] + rest;
        hide Words;
        ConcatOf([t[0]], rest);
      }
    }
  }

  lemma LongerWord(c: char, words: seq<string>)
    requires words != []
    ensures Concat([[c] + words[0]] + words[1..]) == [c] + Concat(words)
  {
    assert Concat(words) == words[0] + Concat(words[1..]);
    hide Concat;
    ConcatOf([c] + words[0], words[1..]);
    Regroup([c], words[0], Concat(words[1..]));
  }

  lemma Regroup(a: string, b: string, c: string)
    ensures (a + b) + c == a + (b + c)
  {
  }

  lemma ConcatOf(first: string, others: seq<string>)
    ensures Concat([first] + others) == first + Concat(others)
  {
    assert ([first] + others)[1..] == others;
  }

  lemma {:induction false} ReplaceKeepsWords(s: string)
    ensures Words(ReplaceRuns(s)) == Words(s)
    ensures SlugAlphabet(ReplaceRuns(s))
    ensures s == [] <==> ReplaceRuns(s) == []
    ensures s != [] ==> (IsAlnum(ReplaceRuns(s)[0]) <==> IsAlnum(s[0]))
    ensures s != [] && IsAlnum(s[0]) ==> ReplaceRuns(s)[0] == s[0]
  {
    if s != [] {
      ReplaceKeepsWords(s[1..]);
      if IsAlnum(s[0]) {
        assert ReplaceRuns(s)[1..] == ReplaceRuns(s[1..]);
      } else if !(|s| > 1 && !IsAlnum(s[1])) {
        assert ReplaceRuns(s)[1..] == ReplaceRuns(s[1..]);
      }
    }
  }

  predicate NoDoubleHyphen(s: string) {
    forall i :: 0 <= i < |s| - 1 ==> !(s[i] == '-' && s[i + 1] == '-')
  }

  lemma {:induction false} ReplaceLeavesNoDoubles(s: string)
    ensures NoDoubleHyphen(ReplaceRuns(s))
  {
    if s != [] {
      ReplaceLeavesNoDoubles(s[1..]);
      ReplaceKeepsWords(s[1..]);
    }
  }

  lemma {:induction false} CollapseOfSingles(s: string)
    requires NoDoubleHyphen(s)
    ensures Collapse(s) == s
  {
    if s != [] {
      CollapseOfSingles(s[1..]);
    }
  }

  /** The second replacement never finds anything to do. */
  lemma {:induction false} SecondCollapseIsRedundant(s: string)
    ensures Collapse(ReplaceRuns(s)) == ReplaceRuns(s)
  {
    ReplaceLeavesNoDoubles(s);
    CollapseOfSingles(ReplaceRuns(s));
  }

  lemma {:induction false} TrailingHyphenIsNoWord(s: string)
    ensures Words(s + ['-']) == Words(s)
  {
    if s != [] {
      assert (s + ['-'])[1..] == s[1..] + ['-'];
      TrailingHyphenIsNoWord(s[1..]);
      if |s| == 1 {
        assert s + ['-'] == [s[0], '-'];
        assert Words(['-']) == [];
      }
    }
  }

  lemma {:induction false} TrimKeepsWords(s: string)
    requires SlugAlphabet(s)
    ensures Words(TrimHyphens(s)) == Words(s) && SlugAlphabet(TrimHyphens(s))
  {
    if s != [] && s[0] == '-' {
      TrimKeepsWords(s[1..]);
    } else if s != [] && s[|s| - 1] == '-' {
      TrimKeepsWords(s[..|s| - 1]);
      TrailingHyphenIsNoWord(s[..|s| - 1]);
      assert s == s[..|s| - 1] + ['-'];
    }
  }

  lemma {:induction false} SplitGivesWords(s: string)
    requires SlugAlphabet(s)
    ensures NonEmpty(Split(s)) == Words(s)
    ensures Split(s)[0] != [] <==> s != [] && IsAlnum(s[0])
  {
    if s != [] {
      SplitGivesWords(s[1..]);
      var rest := Split(s[1..]);
      if s[0] == '-' {
        assert Split(s)[1..] == rest;
      } else {
        assert Split(s)[1..] == rest[1..];
        var words := Words(s[1..]);
        if rest[0] != [] {
          assert words == [rest[0]] + NonEmpty(rest[1..]);
          assert words[1..] == NonEmpty(rest[1..]);
        } else {
          assert words == NonEmpty(rest[1..]);
          assert [s[0]] + rest[0] == [s[0]];
        }
      }
    }
  }

  /** The whole chain: the first five words, joined by hyphens, cut at 255 characters. */
  lemma CategoryIsFirstFiveWords(objective: string)
    ensures DeriveObjectiveCategory(objective)
            == Take(Join(Take(Words(LowerAll(objective)), 5)), 255)
  {
    var lowered := LowerAll(objective);
    SecondCollapseIsRedundant(lowered);
    ReplaceKeepsWords(lowered);
    TrimKeepsWords(ReplaceRuns(lowered));
    SplitGivesWords(TrimHyphens(ReplaceRuns(lowered)));
  }

  // ----- The normal form ---------------------------------------------------------

  predicate NormalForm(s: string) {
    SlugAlphabet(s) && NoDoubleHyphen(s) && (s != [] ==> s[0] != '-')
  }

  lemma {:induction false} JoinIsNormal(ws: seq<string>)
    requires AreWords(ws)
    ensures NormalForm(Join(ws)) && (ws != [] ==> Join(ws) != [])
  {
    if |ws| > 1 {
      JoinIsNormal(ws[1..]);
    }
  }

  lemma JoinCons(w: string, ws: seq<string>)
    ensures Join([w] + ws) == if ws == [] then w else w + ['-'] + Join(ws)
  {
    assert ([w] + ws)[1..] == ws;
  }

  /** A word in front of nothing or of a hyphen is the first word. */
  lemma {:induction false} WordInFront(w: string, t: string)
    requires IsWord(w) && (t == [] || t[0] == '-')
    ensures Words(w + t) == [w] + Words(t)
  {
    var s := w + t;
    if |w| == 1 {
      assert s[1..] == t && [s[0]] == w;
    } else {
      assert s[1..] == w[1..] + t && s[0] == w[0] && s[1] == w[1];
      WordInFront(w[1..], t);
      assert [w[0]] + w[1..] == w;
      assert ([w[1..]] + Words(t))[1..] == Words(t);
    }
  }

  lemma HyphenInFront(t: string)
    ensures Words(['-'] + t) == Words(t)
  {
    assert (['-'] + t)[1..] == t;
  }

  lemma {:induction false} WordsOfJoin(ws: seq<string>)
    requires AreWords(ws)
    ensures Words(Join(ws)) == ws
  {
    hide Words, Join, IsWord;
    NothingJoined();
    NoWords([]);
    if ws != [] {
      var rest := ws[1..];
      assert ws == [ws[0]] + rest;
      JoinCons(ws[0], rest);
      WordsOfJoin(rest);
      if rest == [] {
        WordInFront(ws[0], []);
        assert ws[0] + [] == ws[0];
      } else {
        WordInFront(ws[0], ['-'] + Join(rest));
        HyphenInFront(Join(rest));
        assert ws[0] + (['-'] + Join(rest)) == ws[0] + ['-'] + Join(rest);
      }
    }
  }

  lemma {:induction false} PrefixHasNoMoreWords(s: string, n: nat)
    requires n <= |s|
    ensures |Words(s[..n])| <= |Words(s)|
  {
    if n > 0 {
      assert s[..n][1..] == s[1..][..n - 1];
      PrefixHasNoMoreWords(s[1..], n - 1);
    }
  }

  /** A text in normal form without its trailing hyphen, if it has one. */
  function Stem(s: string): string {
    if s != [] && s[|s| - 1] == '-' then s[..|s| - 1] else s
  }

  lemma WordThenHyphen(s: string)
    requires |s| > 1 && IsAlnum(s[0]) && s[1] == '-'
    ensures Words(s) == [[s[0]]] + Words(s[2..])
  {
    assert s[1..][1..] == s[2..];
  }

  lemma WordGrows(s: string)
    requires |s| > 1 && IsAlnum(s[0]) && IsAlnum(s[1])
    ensures Words(s) != [] && Words(s[1..]) != []
    ensures Words(s) == [[s[0]] + Words(s[1..])[0]] + Words(s[1..])[1..]
  {
  }

  lemma JoinGrows(c: char, ws: seq<string>)
    requires ws != []
    ensures Join([[c] + ws[0]] + ws[1..]) == [c] + Join(ws)
  {
    hide Join;
    JoinCons([c] + ws[0], ws[1..]);
    JoinCons(ws[0], ws[1..]);
    assert [ws[0]] + ws[1..] == ws;
    if ws[1..] != [] {
      assert ([c] + ws[0]) + ['-'] + Join(ws[1..]) == [c] + (ws[0] + ['-'] + Join(ws[1..]));
    }
  }

  lemma StemCons(a: string, s: string)
    requires s != []
    ensures Stem(a + s) == a + Stem(s)
  {
  }

  lemma ShortJoin(s: string)
    requires NormalForm(s) && |s| <= 1
    ensures Join(Words(s)) == Stem(s)
  {
  }

  lemma {:induction false} JoinOfWords(s: string)
    requires NormalForm(s)
    ensures Join(Words(s)) == Stem(s)
  {
    hide Words, Join, Stem;
    if |s| <= 1 {
      ShortJoin(s);
    } else if s[1] == '-' {
      JoinOfWords(s[2..]);
      WordThenHyphen(s);
      JoinCons([s[0]], Words(s[2..]));
      if |s| == 2 {
        NoWords(s[2..]);
        assert Stem(s) == [s[0]] by { StemOfHyphen(s); }
      } else {
        FirstWord(s[2..]);
        assert s == [s[0], '-'] + s[2..];
        StemCons([s[0], '-'], s[2..]);
      }
    } else {
      JoinOfWords(s[1..]);
      WordGrows(s);
      JoinGrows(s[0], Words(s[1..]));
      assert s == [s[0]] + s[1..];
      StemCons([s[0]], s[1..]);
    }
  }

  lemma StemOfHyphen(s: string)
    requires s != [] && s[|s| - 1] == '-'
    ensures Stem(s) == s[..|s| - 1]
  {
  }

  lemma FirstWord(s: string)
    requires s != [] && IsAlnum(s[0])
    ensures Words(s) != []
  {
  }

  lemma NoWords(s: string)
    requires s == []
    ensures Words(s) == []
  {
  }

  /**
   * Every category uses only lower-case letters, digits and single inner
   * hyphens, has at most five words and at most 255 characters.
   */
  lemma CategoryIsNormal(objective: string)
    ensures
      var r := DeriveObjectiveCategory(objective);
      && NormalForm(r) && |r| <= 255 && |Words(r)| <= 5
  {
    hide DeriveObjectiveCategory, Words, Join;
    var words := Words(LowerAll(objective));
    var first := Take(words, MAX_WORDS);
    CategoryIsFirstFiveWords(objective);
    WordsAreWords(LowerAll(objective));
    JoinIsNormal(first);
    WordsOfJoin(first);
    if |Join(first)| > MAX_LENGTH {
      PrefixHasNoMoreWords(Join(first), MAX_LENGTH);
    }
  }

  lemma LowerOfSlug(s: string)
    requires SlugAlphabet(s)
    ensures LowerAll(s) == s
  {
    forall i | 0 <= i < |s|
      ensures LowerAll(s)[i] == s[i]
    {
    }
  }

  /** Deriving a text that has a category's shape only drops a trailing hyphen. */
  lemma DeriveOfNormal(s: string)
    requires NormalForm(s) && |s| <= MAX_LENGTH && |Words(s)| <= MAX_WORDS
    ensures DeriveObjectiveCategory(s) == Stem(s)
  {
    hide DeriveObjectiveCategory, Words, Join;
    LowerOfSlug(s);
    CategoryIsFirstFiveWords(s);
    JoinOfWords(s);
  }

  predicate EndsInHyphen(s: string) {
    s != [] && s[|s| - 1] == '-'
  }

  /** The words that make up the category of an objective. */
  function CategoryWords(objective: string): seq<string> {
    Take(Words(LowerAll(objective)), MAX_WORDS)
  }

  /** The first m of several words take up n characters together. */
  predicate WordEndsAt(ws: seq<string>, n: nat) {
    exists m :: 1 <= m < |ws| && |Join(ws[..m])| == n
  }

  lemma JoinOfPrefix(ws: seq<string>, m: nat)
    requires 1 <= m <= |ws|
    ensures |Join(ws[..m])| == if m == 1 then |ws[0]| else |ws[0]| + 1 + |Join(ws[1..][..m - 1])|
  {
    assert ws[..m] == [ws[0]] + ws[1..][..m - 1];
    JoinCons(ws[0], ws[1..][..m - 1]);
  }

  /** The hyphens of joined words stand where one of them, but the last, ends. */
  lemma {:induction false} HyphensEndWords(ws: seq<string>, i: nat)
    requires AreWords(ws) && i < |Join(ws)|
    ensures Join(ws)[i] == '-' <==> WordEndsAt(ws, i)
  {
    hide Join, IsWord;
    NothingJoined();
    assert ws == [ws[0]] + ws[1..];
    JoinCons(ws[0], ws[1..]);
    WordHasNoHyphen(ws[0]);
    forall m | 1 <= m < |ws|
      ensures |Join(ws[..m])| == if m == 1 then |ws[0]| else |ws[0]| + 1 + |Join(ws[1..][..m - 1])|
    {
      JoinOfPrefix(ws, m);
    }
    if i > |ws[0]| {
      var rest, k := ws[1..], i - |ws[0]| - 1;
      HyphensEndWords(rest, k);
      assert Join(ws)[i] == Join(rest)[k];
      if WordEndsAt(rest, k) {
        var m :| 1 <= m < |rest| && |Join(rest[..m])| == k;
        assert |Join(ws[..m + 1])| == i;
      }
      if WordEndsAt(ws, i) {
        var m :| 1 <= m < |ws| && |Join(ws[..m])| == i;
        assert |Join(rest[..m - 1])| == k;
      }
    } else if i == |ws[0]| {
      assert |Join(ws[..1])| == i;
    }
  }

  lemma NothingJoined()
    ensures Join([]) == []
  {
  }

  lemma WordHasNoHyphen(w: string)
    requires IsWord(w)
    ensures w != [] && forall i :: 0 <= i < |w| ==> w[i] != '-'
  {
  }

  /** Joined words do not end in a hyphen, and a proper part of them is shorter. */
  lemma {:induction false} JoinEndsInWord(ws: seq<string>)
    requires AreWords(ws)
    ensures !EndsInHyphen(Join(ws))
    ensures forall m :: 1 <= m < |ws| ==> |Join(ws[..m])| + 1 < |Join(ws)|
  {
    hide Join, IsWord;
    NothingJoined();
    if ws != [] {
      assert ws == [ws[0]] + ws[1..];
      JoinCons(ws[0], ws[1..]);
      WordHasNoHyphen(ws[0]);
      JoinEndsInWord(ws[1..]);
      if |ws| > 1 { FirstIsJoined(ws[1..]); }
      forall m | 1 <= m < |ws|
        ensures |Join(ws[..m])| + 1 < |Join(ws)|
      {
        JoinOfPrefix(ws, m);
      }
    }
  }

  lemma FirstIsJoined(ws: seq<string>)
    requires ws != [] && AreWords(ws)
    ensures Join(ws) != []
  {
    JoinIsNormal(ws);
  }

  /**
   * A category ends in a hyphen exactly when 254 characters are the first few,
   * but not all, of its words: the cut then falls behind the hyphen.
   */
  lemma TrailingHyphenIffWordEnds(objective: string)
    ensures EndsInHyphen(DeriveObjectiveCategory(objective)) <==> WordEndsAt(CategoryWords(objective), 254)
  {
    hide DeriveObjectiveCategory, Words, Join, WordEndsAt;
    var ws := CategoryWords(objective);
    CategoryIsFirstFiveWords(objective);
    WordsAreWords(LowerAll(objective));
    JoinEndsInWord(ws);
    if |Join(ws)| >= MAX_LENGTH {
      HyphensEndWords(ws, MAX_LENGTH - 1);
    } else {
      EndsTooEarly(ws, MAX_LENGTH - 1);
    }
  }

  lemma EndsTooEarly(ws: seq<string>, n: nat)
    requires |Join(ws)| <= n && forall m :: 1 <= m < |ws| ==> |Join(ws[..m])| + 1 < |Join(ws)|
    ensures !WordEndsAt(ws, n)
  {
    hide Join;
  }

  /** Deriving again gives the category back unless it is cut so; deriving once more is always stable. */
  lemma IdempotentIffNoWordEnds(objective: string)
    ensures
      var r := DeriveObjectiveCategory(objective);
      DeriveObjectiveCategory(r) == r <==> !WordEndsAt(CategoryWords(objective), 254)
    ensures
      var r := DeriveObjectiveCategory(DeriveObjectiveCategory(objective));
      DeriveObjectiveCategory(r) == r
  {
    hide DeriveObjectiveCategory, Words, WordEndsAt;
    var r := DeriveObjectiveCategory(objective);
    TrailingHyphenIffWordEnds(objective);
    CategoryIsNormal(objective);
    DeriveOfNormal(r);
    CategoryIsNormal(r);
    DeriveOfNormal(Stem(r));
  }

  /** A trailing hyphen does occur: the cut at 255 falls behind a word of 254 letters. */
  lemma TrailingHyphenOccurs(word: string, other: string)
    requires IsWord(word) && |word| == 254 && IsWord(other)
    ensures DeriveObjectiveCategory(Join([word, other])) == word + ['-']
  {
    hide DeriveObjectiveCategory, Words;
    var objective := Join([word, other]);
    assert [word, other][1..] == [other];
    JoinIsNormal([word, other]);
    LowerOfSlug(objective);
    WordsOfJoin([word, other]);
    CategoryIsFirstFiveWords(objective);
    assert objective == word + ['-'] + other;
  }
}
