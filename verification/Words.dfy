/** Words and whitespace: splitting a text into its words and joining them with single spaces. */
module Words {
  // ---------------------------------------------------------------------------------------------
  // Whitespace

  /** The characters Python's `str.split` and `str.strip` take for whitespace. */
  const WHITESPACE: set<char> :=
    {'\t', '\n', '\U{000B}', '\U{000C}', '\r', '\U{001C}', '\U{001D}', '\U{001E}', '\U{001F}', ' ', '\U{0085}',
     '\U{00A0}', '\U{1680}', '\U{2000}', '\U{2001}', '\U{2002}', '\U{2003}', '\U{2004}', '\U{2005}', '\U{2006}',
     '\U{2007}', '\U{2008}', '\U{2009}', '\U{200A}', '\U{2028}', '\U{2029}', '\U{202F}', '\U{205F}', '\U{3000}'}

  predicate IsSpace(c: char) {
    c in WHITESPACE
  }

  ghost predicate Word(w: string) {
    w != "" && forall i :: 0 <= i < |w| ==> !IsSpace(w[i])
  }

  /** The words of a text: its maximal runs of characters that are not whitespace. */
  function Split(text: string): (words: seq<string>)
    ensures forall i :: 0 <= i < |words| ==> Word(words[i])
    ensures text != "" && !IsSpace(text[|text| - 1]) ==> words != []
  {
    if text == "" then []
    else
      var init, c := text[..|text| - 1], text[|text| - 1];
      var words := Split(init);
      if IsSpace(c) then words
      else if init == "" || IsSpace(init[|init| - 1]) then words + [[c]]
      else words[..|words| - 1] + [words[|words| - 1] + [c]]
  }

  function JoinWords(words: seq<string>): string {
    if words == [] then ""
    else if |words| == 1 then words[0]
    else JoinWords(words[..|words| - 1]) + " " + words[|words| - 1]
  }

  function Normalise(text: string): string {
    JoinWords(Split(text))
  }

  /** The characters that are not whitespace, in order. */
  function Visible(text: string): string {
    if text == "" then ""
    else Visible(text[..|text| - 1]) + if IsSpace(text[|text| - 1]) then "" else [text[|text| - 1]]
  }

  lemma {:induction false} VisibleAppends(a: string, b: string)
    ensures Visible(a + b) == Visible(a) + Visible(b)
  {
    if b == "" {
      assert a + b == a;
    } else {
      VisibleAppends(a, b[..|b| - 1]);
      assert (a + b)[..|a + b| - 1] == a + b[..|b| - 1];
    }
  }

  lemma VisibleOne(c: char)
    ensures Visible([c]) == if IsSpace(c) then "" else [c]
  {
    assert [c][..0] == "";
  }

  lemma {:induction false} VisibleWord(w: string)
    requires forall i :: 0 <= i < |w| ==> !IsSpace(w[i])
    ensures Visible(w) == w
  {
    if w == "" {
    } else {
      VisibleWord(w[..|w| - 1]);
    }
  }

  lemma VisibleJoinMore(words: seq<string>, w: string)
    ensures Visible(JoinWords(words + [w])) == Visible(JoinWords(words)) + Visible(w)
  {
    var more := words + [w];
    assert more[..|more| - 1] == words;
    if words == [] {
      assert JoinWords(more) == w;
    } else {
      VisibleAppends(JoinWords(words) + " ", w);
      VisibleAppends(JoinWords(words), " ");
      VisibleOne(' ');
    }
  }

  lemma LastApart<T>(s: seq<T>)
    requires s != []
    ensures s == s[..|s| - 1] + [s[|s| - 1]]
  {
  }

  lemma Associative<T>(a: seq<T>, b: seq<T>, c: seq<T>)
    ensures a + (b + c) == (a + b) + c
  {
  }

  lemma VisibleLongerWord(words: seq<string>, c: char)
    requires words != []
    ensures Visible(JoinWords(words[..|words| - 1] + [words[|words| - 1] + [c]])) == Visible(JoinWords(words)) + Visible([c])
  {
    var before, last := words[..|words| - 1], words[|words| - 1];
    LastApart(words);
    VisibleJoinMore(before, last);
    VisibleJoinMore(before, last + [c]);
    VisibleAppends(last, [c]);
    Associative(Visible(JoinWords(before)), Visible(last), Visible([c]));
  }

  lemma NormaliseOneMore(init: string, c: char)
    ensures Visible(Normalise(init + [c])) == Visible(Normalise(init)) + Visible([c])
  {
    var text, words := init + [c], Split(init);
    assert text[..|text| - 1] == init && text[|text| - 1] == c;
    VisibleOne(c);
    if !IsSpace(c) {
      if init == "" || IsSpace(init[|init| - 1]) {
        assert Split(text) == words + [[c]];
        VisibleJoinMore(words, [c]);
      } else {
        assert Split(text) == words[..|words| - 1] + [words[|words| - 1] + [c]];
        VisibleLongerWord(words, c);
      }
    } else {
      assert Split(text) == words;
    }
  }

  /** Normalising changes only whitespace. */
  lemma {:induction false} NormaliseKeepsTheVisible(text: string)
    ensures Visible(Normalise(text)) == Visible(text)
  {
    if text == "" {
    } else {
      var init, c := text[..|text| - 1], text[|text| - 1];
      NormaliseKeepsTheVisible(init);
      NormaliseOneMore(init, c);
      VisibleAppends(init, [c]);
      LastApart(text);
    }
  }

  /** Single spaces between words, none at the ends. */
  ghost predicate Normal(text: string) {
    && (text != "" ==> !IsSpace(text[0]) && !IsSpace(text[|text| - 1]))
    && (forall i :: 0 <= i < |text| && IsSpace(text[i]) ==> text[i] == ' ')
    && (forall i :: 0 < i < |text| && IsSpace(text[i]) ==> !IsSpace(text[i - 1]))
  }

  lemma NormalAppend(a: string, w: string)
    requires Normal(a) && a != "" && Word(w)
    ensures Normal(a + " " + w)
  {
    var text := a + " " + w;
    assert forall i :: |a| < i < |text| ==> text[i] == w[i - |a| - 1];
    assert text[|a|] == ' ' && forall i :: 0 <= i < |a| ==> text[i] == a[i];
  }

  lemma {:induction false} JoinedWordsAreNormal(words: seq<string>)
    requires forall i :: 0 <= i < |words| ==> Word(words[i])
    ensures Normal(JoinWords(words)) && (words != [] ==> JoinWords(words) != "")
  {
    if |words| > 1 {
      var init, last := words[..|words| - 1], words[|words| - 1];
      JoinedWordsAreNormal(init);
      var a := JoinWords(init);
      assert Word(last);
      NormalAppend(a, last);
    }
  }

  lemma NormaliseIsNormal(text: string)
    ensures Normal(Normalise(text))
  {
    JoinedWordsAreNormal(Split(text));
  }

  // ---------------------------------------------------------------------------------------------
  // Words

  /** The word stands at this position of the text. */
  ghost predicate Stands(text: string, w: string, at: nat) {
    Word(w) && at + |w| <= |text| && text[at..at + |w|] == w
  }

  ghost predicate Spans(words: seq<string>, at: seq<nat>, i: nat, p: nat) {
    i < |words| && i < |at| && at[i] <= p < at[i] + |words[i]|
  }

  ghost predicate Spanned(words: seq<string>, at: seq<nat>, p: nat) {
    exists i: nat :: Spans(words, at, i, p)
  }

  ghost predicate AllStand(text: string, words: seq<string>, at: seq<nat>)
    requires |at| == |words|
  {
    forall i :: 0 <= i < |words| ==> Stands(text, words[i], at[i])
  }

  ghost predicate Apart(words: seq<string>, at: seq<nat>)
    requires |at| == |words|
  {
    forall i, j :: 0 <= i < j < |words| ==> at[i] + |words[i]| < at[j]
  }

  ghost predicate AllSpanned(text: string, words: seq<string>, at: seq<nat>) {
    forall p: nat :: p < |text| && !IsSpace(text[p]) ==> Spanned(words, at, p)
  }

  /** The words stand at these positions, apart from each other, and every visible character is in one: they
      are the maximal runs of visible characters. */
  ghost predicate WordsAt(text: string, words: seq<string>, at: seq<nat>) {
    |at| == |words| && AllStand(text, words, at) && Apart(words, at) && AllSpanned(text, words, at)
  }

  ghost predicate WordsOf(text: string, words: seq<string>) {
    exists at :: WordsAt(text, words, at)
  }

  lemma StandsInLonger(text: string, more: string, w: string, at: nat)
    requires Stands(text, w, at)
    ensures Stands(text + more, w, at)
  {
    assert (text + more)[at..at + |w|] == text[at..at + |w|];
  }

  lemma SpannedByMore(words: seq<string>, at: seq<nat>, w: string, k: nat, p: nat)
    requires |at| == |words| && (Spanned(words, at, p) || k <= p < k + |w|)
    ensures Spanned(words + [w], at + [k], p)
  {
    if k <= p < k + |w| {
      assert Spans(words + [w], at + [k], |words|, p);
    } else {
      var i: nat :| Spans(words, at, i, p);
      assert Spans(words + [w], at + [k], i, p);
    }
  }

  lemma WordsEndVisibly(text: string, w: string, at: nat)
    requires Stands(text, w, at)
    ensures !IsSpace(text[at + |w| - 1])
  {
    assert text[at..at + |w|][|w| - 1] == text[at + |w| - 1];
  }

  /** The gap keeps the new word apart. */
  lemma GapKeepsApart(text: string, w: string, at: nat, k: nat)
    requires Stands(text, w, at) && |text| <= k
    requires k == |text| ==> text == "" || IsSpace(text[|text| - 1])
    ensures at + |w| < k
  {
    WordsEndVisibly(text, w, at);
  }

  lemma MoreStand(text: string, gap: string, w: string, words: seq<string>, at: seq<nat>, k: nat)
    requires |at| == |words| && AllStand(text, words, at) && Word(w) && k == |text| + |gap|
    ensures AllStand(text + (gap + w), words + [w], at + [k])
  {
    var longer, more, at' := text + (gap + w), words + [w], at + [k];
    forall i | 0 <= i < |more| ensures Stands(longer, more[i], at'[i]) {
      if i < |words| {
        StandsInLonger(text, gap + w, words[i], at[i]);
      } else {
        assert longer[k..k + |w|] == w;
      }
    }
  }

  lemma MoreApart(text: string, w: string, words: seq<string>, at: seq<nat>, k: nat)
    requires |at| == |words| && AllStand(text, words, at) && Apart(words, at) && |text| <= k
    requires k == |text| ==> text == "" || IsSpace(text[|text| - 1])
    ensures Apart(words + [w], at + [k])
  {
    var more, at' := words + [w], at + [k];
    forall i, j | 0 <= i < j < |more| ensures at'[i] + |more[i]| < at'[j] {
      if j == |words| {
        GapKeepsApart(text, words[i], at[i], k);
      }
    }
  }

  lemma MoreSpanned(text: string, gap: string, w: string, words: seq<string>, at: seq<nat>, k: nat)
    requires |at| == |words| && AllSpanned(text, words, at) && k == |text| + |gap|
    requires forall i :: 0 <= i < |gap| ==> IsSpace(gap[i])
    ensures AllSpanned(text + (gap + w), words + [w], at + [k])
  {
    var longer := text + (gap + w);
    assert forall q :: |text| <= q < k ==> longer[q] == gap[q - |text|];
    forall p: nat | p < |longer| && !IsSpace(longer[p]) ensures Spanned(words + [w], at + [k], p) {
      assert p < |text| ==> longer[p] == text[p];
      SpannedByMore(words, at, w, k, p);
    }
  }

  /** A gap and one more word. */
  lemma OneMoreWord(text: string, gap: string, w: string, words: seq<string>, at: seq<nat>, k: nat)
    requires WordsAt(text, words, at) && Word(w) && k == |text| + |gap|
    requires forall i :: 0 <= i < |gap| ==> IsSpace(gap[i])
    requires gap == "" ==> text == "" || IsSpace(text[|text| - 1])
    ensures WordsAt(text + (gap + w), words + [w], at + [k])
  {
    MoreStand(text, gap, w, words, at, k);
    MoreApart(text, w, words, at, k);
    MoreSpanned(text, gap, w, words, at, k);
  }

  lemma SpaceChangesNoWord(init: string, c: char, words: seq<string>, at: seq<nat>)
    requires IsSpace(c) && WordsAt(init, words, at)
    ensures WordsAt(init + [c], words, at)
  {
    forall i | 0 <= i < |words| ensures Stands(init + [c], words[i], at[i]) {
      StandsInLonger(init, [c], words[i], at[i]);
    }
  }

  /** The last visible character is in the last word, which ends with it. */
  lemma LastWordEnds(text: string, words: seq<string>, at: seq<nat>)
    requires WordsAt(text, words, at) && text != "" && !IsSpace(text[|text| - 1])
    ensures words != [] && at[|words| - 1] + |words[|words| - 1]| == |text|
  {
    var p: nat := |text| - 1;
    assert Spanned(words, at, p);
    var i: nat :| Spans(words, at, i, p);
    var n := |words| - 1;
    assert i < n ==> at[i] + |words[i]| < at[n];
    assert Stands(text, words[n], at[n]);
  }

  /** One more visible character makes the last word longer. */
  lemma LongerLastWord(init: string, c: char, before: seq<string>, w: string, at: seq<nat>)
    requires WordsAt(init, before + [w], at) && !IsSpace(c) && at[|before|] + |w| == |init|
    ensures WordsAt(init + [c], before + [w + [c]], at)
  {
    var words, more, text, n := before + [w], before + [w + [c]], init + [c], |before|;
    forall i | 0 <= i < |more| ensures Stands(text, more[i], at[i]) {
      assert Stands(init, words[i], at[i]);
      if i < n {
        StandsInLonger(init, [c], words[i], at[i]);
      } else {
        assert text[at[n]..at[n] + |w| + 1] == init[at[n]..at[n] + |w|] + [c];
      }
    }
    forall i, j | 0 <= i < j < |more| ensures at[i] + |more[i]| < at[j] {
      assert at[i] + |words[i]| < at[j];
    }
    forall p: nat | p < |text| && !IsSpace(text[p]) ensures Spanned(more, at, p) {
      if p < |init| {
        assert text[p] == init[p] && Spanned(words, at, p);
        var i: nat :| Spans(words, at, i, p);
        assert Spans(more, at, i, p);
      } else {
        assert Spans(more, at, n, p);
      }
    }
  }

  lemma SplitOneMore(init: string, c: char)
    ensures var words := Split(init);
            Split(init + [c]) ==
            if IsSpace(c) then words
            else if init == "" || IsSpace(init[|init| - 1]) then words + [[c]]
            else words[..|words| - 1] + [words[|words| - 1] + [c]]
  {
    var text := init + [c];
    assert text[..|text| - 1] == init && text[|text| - 1] == c;
  }

  lemma NewWord(init: string, c: char, words: seq<string>, at: seq<nat>)
    requires WordsAt(init, words, at) && !IsSpace(c) && (init == "" || IsSpace(init[|init| - 1]))
    ensures WordsAt(init + [c], words + [[c]], at + [|init|])
  {
    assert Word([c]);
    OneMoreWord(init, "", [c], words, at, |init|);
    assert "" + [c] == [c];
  }

  lemma SameWord(init: string, c: char, words: seq<string>, at: seq<nat>)
    requires WordsAt(init, words, at) && !IsSpace(c) && init != "" && !IsSpace(init[|init| - 1])
    ensures words != [] && WordsAt(init + [c], words[..|words| - 1] + [words[|words| - 1] + [c]], at)
  {
    LastWordEnds(init, words, at);
    LastApart(words);
    LongerLastWord(init, c, words[..|words| - 1], words[|words| - 1], at);
  }

  /** Splitting finds the words. */
  lemma {:induction false} SplitFindsWords(text: string) returns (at: seq<nat>)
    ensures WordsAt(text, Split(text), at)
  {
    if text == "" {
      at := [];
    } else {
      var init, c := text[..|text| - 1], text[|text| - 1];
      at := SplitFindsWords(init);
      LastApart(text);
      SplitOneMore(init, c);
      if IsSpace(c) {
        SpaceChangesNoWord(init, c, Split(init), at);
      } else if init == "" || IsSpace(init[|init| - 1]) {
        NewWord(init, c, Split(init), at);
        at := at + [|init|];
      } else {
        SameWord(init, c, Split(init), at);
      }
    }
  }

  lemma StandsInShorter(init: string, c: char, w: string, at: nat)
    requires Stands(init + [c], w, at) && at + |w| <= |init|
    ensures Stands(init, w, at)
  {
    assert init[at..at + |w|] == (init + [c])[at..at + |w|];
  }

  lemma SpaceHoldsNoWord(init: string, c: char, words: seq<string>, at: seq<nat>)
    requires IsSpace(c) && WordsAt(init + [c], words, at)
    ensures WordsAt(init, words, at)
  {
    forall i | 0 <= i < |words| ensures Stands(init, words[i], at[i]) {
      WordsEndVisibly(init + [c], words[i], at[i]);
      StandsInShorter(init, c, words[i], at[i]);
    }
    forall p: nat | p < |init| && !IsSpace(init[p]) ensures Spanned(words, at, p) {
      assert (init + [c])[p] == init[p];
    }
  }

  /** The words before the last one are those of any shorter text they stand in. */
  lemma WordsBefore(text: string, words: seq<string>, at: seq<nat>, n: nat, i: nat, init: string, c: char)
    requires text == init + [c] && WordsAt(text, words, at) && |words| == n + 1 && i < n && at[n] <= |init|
    ensures Stands(init, words[i], at[i])
  {
    assert at[i] + |words[i]| < at[n];
    StandsInShorter(init, c, words[i], at[i]);
  }

  lemma LastLetter(init: string, c: char, w: string, at: nat)
    requires Stands(init + [c], w, at) && at + |w| == |init| + 1
    ensures w == w[..|w| - 1] + [c]
  {
    assert (init + [c])[at..at + |w|][|w| - 1] == c;
  }

  lemma LastWordOfOne(init: string, c: char, words: seq<string>, at: seq<nat>, n: nat)
    requires WordsAt(init + [c], words, at) && |words| == n + 1 && at[n] == |init| && |words[n]| == 1
    ensures WordsAt(init, words[..n], at[..n]) && words[n] == [c]
    ensures init == "" || IsSpace(init[|init| - 1])
  {
    var text := init + [c];
    forall i | 0 <= i < n ensures Stands(init, words[..n][i], at[..n][i]) {
      WordsBefore(text, words, at, n, i, init, c);
    }
    forall p: nat | p < |init| && !IsSpace(init[p]) ensures Spanned(words[..n], at[..n], p) && p + 1 < |init| {
      assert text[p] == init[p] && Spanned(words, at, p);
      var i: nat :| Spans(words, at, i, p);
      assert at[i] + |words[i]| < at[n];
      assert Spans(words[..n], at[..n], i, p);
    }
    assert Stands(text, words[n], at[n]);
    LastLetter(init, c, words[n], at[n]);
    assert words[n][..0] == [];
  }

  lemma ShorterStands(init: string, c: char, w: string, at: nat)
    requires Stands(init + [c], w + [c], at) && at + |w| == |init| && w != ""
    ensures Stands(init, w, at)
  {
    var longer := w + [c];
    forall k | 0 <= k < |w| ensures init[at + k] == w[k] && !IsSpace(w[k]) {
      assert (init + [c])[at..at + |longer|][k] == (init + [c])[at + k] && longer[k] == w[k];
    }
  }

  lemma LastWordOfMore(init: string, c: char, words: seq<string>, at: seq<nat>, n: nat, w: string)
    requires WordsAt(init + [c], words, at) && |words| == n + 1 && words[n] == w + [c] && w != ""
    requires at[n] + |w| == |init|
    ensures WordsAt(init, words[..n] + [w], at) && !IsSpace(init[|init| - 1])
  {
    var text, fewer := init + [c], words[..n] + [w];
    assert Stands(text, words[n], at[n]);
    ShorterStands(init, c, w, at[n]);
    WordsEndVisibly(init, w, at[n]);
    forall i | 0 <= i < |fewer| ensures Stands(init, fewer[i], at[i]) {
      if i < n {
        WordsBefore(text, words, at, n, i, init, c);
      }
    }
    forall i, j | 0 <= i < j < |fewer| ensures at[i] + |fewer[i]| < at[j] {
      assert at[i] + |words[i]| < at[j];
    }
    forall p: nat | p < |init| && !IsSpace(init[p]) ensures Spanned(fewer, at, p) {
      assert text[p] == init[p] && Spanned(words, at, p);
      var i: nat :| Spans(words, at, i, p);
      assert Spans(fewer, at, i, p);
    }
  }

  lemma NoWordInNothing(words: seq<string>, at: seq<nat>)
    requires WordsAt("", words, at)
    ensures words == []
  {
    assert words != [] ==> Stands("", words[0], at[0]);
  }

  /** The words of a text are what splitting finds. */
  lemma {:induction false} WordsAreTheSplit(text: string, words: seq<string>, at: seq<nat>)
    requires WordsAt(text, words, at)
    ensures words == Split(text)
    decreases |text|
  {
    if text == "" {
      NoWordInNothing(words, at);
    } else {
      var init, c := text[..|text| - 1], text[|text| - 1];
      LastApart(text);
      SplitOneMore(init, c);
      if IsSpace(c) {
        SpaceHoldsNoWord(init, c, words, at);
        WordsAreTheSplit(init, words, at);
      } else {
        LastWordEnds(text, words, at);
        var n := |words| - 1;
        LastLetter(init, c, words[n], at[n]);
        LastApart(words);
        if |words[n]| == 1 {
          LastWordOfOne(init, c, words, at, n);
          WordsAreTheSplit(init, words[..n], at[..n]);
        } else {
          LastWordOfMore(init, c, words, at, n, words[n][..|words[n]| - 1]);
          WordsAreTheSplit(init, words[..n] + [words[n][..|words[n]| - 1]], at);
        }
      }
    }
  }

  /** Splitting yields exactly the maximal runs of visible characters, in order. */
  lemma SplitIsTheWords(text: string, words: seq<string>)
    ensures words == Split(text) <==> WordsOf(text, words)
  {
    if words == Split(text) {
      var at := SplitFindsWords(text);
    }
    if at :| WordsAt(text, words, at) {
      WordsAreTheSplit(text, words, at);
    }
  }

  lemma OneWordStands(w: string)
    requires Word(w)
    ensures WordsAt(w, [w], [0])
  {
    forall p: nat | p < |w| ensures Spanned([w], [0], p) {
      assert Spans([w], [0], 0, p);
    }
  }

  lemma {:induction false} JoinedWordsStand(words: seq<string>) returns (at: seq<nat>)
    requires forall i :: 0 <= i < |words| ==> Word(words[i])
    ensures WordsAt(JoinWords(words), words, at)
  {
    if words == [] {
      at := [];
    } else if |words| == 1 {
      at := [0];
      OneWordStands(words[0]);
      assert words == [words[0]];
    } else {
      var init, last := words[..|words| - 1], words[|words| - 1];
      at := JoinedWordsStand(init);
      OneMoreWord(JoinWords(init), " ", last, init, at, |JoinWords(init)| + 1);
      at := at + [|JoinWords(init)| + 1];
      LastApart(words);
      Associative(JoinWords(init), " ", last);
    }
  }

  /** Normalising keeps the words. */
  lemma NormaliseKeepsTheWords(text: string)
    ensures Split(Normalise(text)) == Split(text) && WordsOf(Normalise(text), Split(text))
  {
    var at := JoinedWordsStand(Split(text));
    SplitIsTheWords(Normalise(text), Split(text));
  }
}
