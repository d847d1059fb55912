/** The overlapping text chunker. Whitespace is normalised first; a loop then moves a window over the text,
    ends it at a word boundary where it can, and starts the next window so that the two overlap. */
module TextChunker {
  import opened Words
  import opened Wrappers

  // ---------------------------------------------------------------------------------------------
  // Stripping

  /** The first position at or after `i` that is not whitespace. */
  function FirstVisible(text: string, i: nat): (k: nat)
    requires i <= |text|
    ensures i <= k <= |text| && (k < |text| ==> !IsSpace(text[k])) && forall j :: i <= j < k ==> IsSpace(text[j])
    decreases |text| - i
  {
    if i == |text| || !IsSpace(text[i]) then i else FirstVisible(text, i + 1)
  }

  /** The end of what is left of the first `n` characters without trailing whitespace. */
  function LastVisible(text: string, n: nat): (k: nat)
    requires n <= |text|
    ensures k <= n && (k > 0 ==> !IsSpace(text[k - 1])) && forall j :: k <= j < n ==> IsSpace(text[j])
  {
    if n == 0 || !IsSpace(text[n - 1]) then n else LastVisible(text, n - 1)
  }

  function Strip(text: string): string {
    var lo, hi := FirstVisible(text, 0), LastVisible(text, |text|);
    if lo < hi then text[lo..hi] else ""
  }

  // ---------------------------------------------------------------------------------------------
  // Windows

  datatype Window = Window(start: nat, end: nat)

  ghost predicate ValidSettings(size: int, overlap: int) {
    size >= 64 && 0 <= overlap < size
  }

  /** The settings the constructor accepts. */
  method CheckSettings(size: int, overlap: int) returns (ok: bool)
    ensures ok <==> ValidSettings(size, overlap)
    ensures ok <==> size >= 64 && 0 <= overlap && overlap < size
  {
    if size < 64 { return false; }
    if overlap < 0 || overlap >= size { return false; }
    return true;
  }

  /** Python's `text.rfind(" ", lo, hi)`: the last space in the range, or -1. */
  function LastSpace(text: string, lo: nat, hi: nat): (i: int)
    requires hi <= |text|
    ensures i == -1 || (lo <= i < hi && text[i] == ' ')
    ensures forall j :: lo <= j < hi && j > i ==> text[j] != ' '
    decreases hi
  {
    if hi <= lo then -1
    else if text[hi - 1] == ' ' then hi - 1
    else LastSpace(text, lo, hi - 1)
  }

  /** Where the window that starts at `start` ends. */
  function EndOf(text: string, size: nat, start: nat): (end: nat)
    requires size >= 64 && start < |text|
    ensures start < end <= |text| && end - start <= size
  {
    var hard := Min(|text|, start + size);
    if hard == |text| then hard
    else
      var boundary := LastSpace(text, start + size / 2, hard);
      if boundary > start then boundary else hard
  }

  /** A window reaches the end of the text if its size allows, and otherwise ends at the last space of its second
      half, or at its full size when there is none. */
  lemma EndsAtTheLastSpace(text: string, size: nat, start: nat)
    requires size >= 64 && start < |text|
    ensures var end := EndOf(text, size, start);
            if |text| - start <= size then end == |text|
            else
              && start + size / 2 <= end && (end == start + size || text[end] == ' ')
              && forall j :: start + size / 2 <= j < start + size && text[j] == ' ' ==> j <= end < start + size
  {
  }

  /** Where the window after `w` starts. */
  function NextStart(w: Window, overlap: nat): nat {
    Max(w.start + 1, w.end - overlap)
  }

  /** The window ends where its start says. */
  ghost predicate Fits(text: string, size: nat, w: Window)
    requires size >= 64
  {
    w.start < |text| && w.end == EndOf(text, size, w.start)
  }

  ghost predicate Follows(v: Window, w: Window, length: nat, overlap: nat) {
    v.end < length && w.start == NextStart(v, overlap)
  }

  /** The first windows the loop moves through: from the start of the text, each following the one
      before, which does not reach the end of the text. */
  ghost predicate Slides(text: string, size: nat, overlap: nat, windows: seq<Window>)
    requires size >= 64
  {
    && (windows != [] ==> windows[0].start == 0)
    && (forall i :: 0 <= i < |windows| ==> Fits(text, size, windows[i]))
    && (forall i, j :: 0 <= i < |windows| && j == i + 1 < |windows| ==> Follows(windows[i], windows[j], |text|, overlap))
  }

  lemma SlidesMore(text: string, size: nat, overlap: nat, windows: seq<Window>, w: Window)
    requires size >= 64 && Slides(text, size, overlap, windows) && Fits(text, size, w)
    requires if windows == [] then w.start == 0 else Follows(windows[|windows| - 1], w, |text|, overlap)
    ensures Slides(text, size, overlap, windows + [w])
  {
    var more := windows + [w];
    forall i | 0 <= i < |more| ensures Fits(text, size, more[i]) {
      assert i < |windows| ==> more[i] == windows[i];
    }
    forall i, j | 0 <= i < |more| && j == i + 1 < |more| ensures Follows(more[i], more[j], |text|, overlap) {
      assert more[i] == windows[i] && (j < |windows| ==> more[j] == windows[j]);
    }
  }

  /** All of them. */
  ghost predicate SlidesThrough(text: string, size: nat, overlap: nat, windows: seq<Window>)
    requires size >= 64
  {
    && Slides(text, size, overlap, windows)
    && (if text == "" then windows == [] else windows != [] && windows[|windows| - 1].end == |text|)
  }

  /** The next window starts at `start`. */
  ghost predicate SlidesTo(text: string, size: nat, overlap: nat, windows: seq<Window>, start: nat)
    requires size >= 64
  {
    && Slides(text, size, overlap, windows)
    && (if windows == [] then start == 0
        else windows[|windows| - 1].end < |text| && start == NextStart(windows[|windows| - 1], overlap))
  }

  lemma SlidesOn(text: string, size: nat, overlap: nat, windows: seq<Window>, start: nat)
    requires size >= 64 && SlidesTo(text, size, overlap, windows, start) && start < |text|
    ensures var w := Window(start, EndOf(text, size, start));
            if w.end < |text| then SlidesTo(text, size, overlap, windows + [w], NextStart(w, overlap))
            else SlidesThrough(text, size, overlap, windows + [w])
  {
    SlidesMore(text, size, overlap, windows, Window(start, EndOf(text, size, start)));
  }

  datatype Chunk = Chunk(index: nat, text: string)

  /** The chunks of some windows: what is left of each after stripping, numbered, empty ones left out. */
  function Pieces(text: string, windows: seq<Window>): seq<Chunk>
    requires forall i :: 0 <= i < |windows| ==> windows[i].start <= windows[i].end <= |text|
  {
    if windows == [] then []
    else
      var before, last := Pieces(text, windows[..|windows| - 1]), windows[|windows| - 1];
      var piece := Strip(text[last.start..last.end]);
      before + if piece == "" then [] else [Chunk(|before|, piece)]
  }

  /** No gap, progress, bounded size, and the full overlap unless that would stop progress, from a start
      to the end of the text. */
  ghost predicate Covers(windows: seq<Window>, start: nat, length: nat, size: nat, overlap: nat) {
    && windows != [] && windows[0].start == start && windows[|windows| - 1].end == length
    && (forall i :: 0 <= i < |windows| ==>
          windows[i].start < windows[i].end <= length && windows[i].end - windows[i].start <= size)
    && (forall i :: 0 < i < |windows| ==>
          && windows[i - 1].start < windows[i].start <= windows[i - 1].end
          && windows[i - 1].end - windows[i].start <= overlap
          && (windows[i - 1].end - windows[i].start == overlap || windows[i].start == windows[i - 1].start + 1))
  }

  lemma WindowsCover(text: string, size: nat, overlap: nat, windows: seq<Window>)
    requires ValidSettings(size, overlap) && text != "" && SlidesThrough(text, size, overlap, windows)
    ensures Covers(windows, 0, |text|, size, overlap)
  {
    forall i | 0 <= i < |windows|
      ensures windows[i].start < windows[i].end <= |text| && windows[i].end - windows[i].start <= size
    {
      assert Fits(text, size, windows[i]);
    }
    forall i | 0 < i < |windows|
      ensures windows[i - 1].start < windows[i].start <= windows[i - 1].end
      ensures windows[i - 1].end - windows[i].start <= overlap
      ensures windows[i - 1].end - windows[i].start == overlap || windows[i].start == windows[i - 1].start + 1
    {
      assert Follows(windows[i - 1], windows[i], |text|, overlap);
      assert Fits(text, size, windows[i - 1]);
    }
  }

  /** Every position lies in some window: from one that starts before it, go on to the next until one
      reaches it. */
  lemma {:induction false} SomeWindowContains(
      windows: seq<Window>, start: nat, length: nat, size: nat, overlap: nat, p: nat, k: nat)
    requires Covers(windows, start, length, size, overlap) && k < |windows| && windows[k].start <= p < length
    ensures exists i :: 0 <= i < |windows| && windows[i].start <= p < windows[i].end
    decreases |windows| - k
  {
    if p >= windows[k].end {
      var next := k + 1;
      assert windows[next - 1].start < windows[next].start <= windows[next - 1].end;
      SomeWindowContains(windows, start, length, size, overlap, p, next);
    }
  }

  ghost predicate Occurs(text: string, part: string, at: nat) {
    at + |part| <= |text| && part == text[at..at + |part|]
  }

  /** The chunk is a stretch of the text around the position. */
  ghost predicate Holds(text: string, chunk: Chunk, p: nat) {
    exists at: nat :: Occurs(text, chunk.text, at) && at <= p < at + |chunk.text|
  }

  lemma SliceOfSlice(text: string, a: nat, b: nat, lo: nat, hi: nat)
    requires a <= b <= |text| && lo <= hi <= b - a
    ensures text[a..b][lo..hi] == text[a + lo..a + hi]
  {
    var part := text[a..b];
    assert forall i :: lo <= i < hi ==> part[i] == text[a + i];
    assert forall i :: 0 <= i < hi - lo ==> part[lo..hi][i] == part[lo + i] && text[a + lo..a + hi][i] == text[a + lo + i];
  }

  lemma StrippedWindowHolds(text: string, w: Window, index: nat, p: nat)
    requires w.start <= p < w.end <= |text| && !IsSpace(text[p])
    ensures Strip(text[w.start..w.end]) != "" && Holds(text, Chunk(index, Strip(text[w.start..w.end])), p)
  {
    var part := text[w.start..w.end];
    assert part[p - w.start] == text[p];
    var lo, hi := FirstVisible(part, 0), LastVisible(part, |part|);
    assert lo <= p - w.start < hi;
    SliceOfSlice(text, w.start, w.end, lo, hi);
    assert Occurs(text, part[lo..hi], w.start + lo);
  }

  ghost predicate InRange(windows: seq<Window>, length: nat) {
    forall i :: 0 <= i < |windows| ==> windows[i].start <= windows[i].end <= length
  }

  lemma {:induction false} PiecesHold(text: string, windows: seq<Window>, k: nat, p: nat)
    requires InRange(windows, |text|) && k < |windows| && windows[k].start <= p < windows[k].end && !IsSpace(text[p])
    ensures exists c :: c in Pieces(text, windows) && Holds(text, c, p)
  {
    var init, last := windows[..|windows| - 1], windows[|windows| - 1];
    if k == |windows| - 1 {
      StrippedWindowHolds(text, last, |Pieces(text, init)|, p);
      var c := Chunk(|Pieces(text, init)|, Strip(text[last.start..last.end]));
      assert c in Pieces(text, windows);
    } else {
      PiecesHold(text, init, k, p);
      var c :| c in Pieces(text, init) && Holds(text, c, p);
      assert c in Pieces(text, windows);
    }
  }

  lemma StripIsTight(s: string)
    ensures |Strip(s)| <= |s|
    ensures Strip(s) != "" ==> !IsSpace(Strip(s)[0]) && !IsSpace(Strip(s)[|Strip(s)| - 1])
  {
  }

  lemma OneMorePiece(text: string, done: seq<Window>, w: Window)
    requires InRange(done, |text|) && w.start <= w.end <= |text|
    ensures InRange(done + [w], |text|)
    ensures var before, piece := Pieces(text, done), Strip(text[w.start..w.end]);
            Pieces(text, done + [w]) == before + if piece == "" then [] else [Chunk(|before|, piece)]
  {
    assert (done + [w])[..|done|] == done;
  }

  /** Numbered in order, neither empty nor too long, without whitespace at its ends. */
  ghost predicate Tidy(chunk: Chunk, k: nat, size: nat) {
    && chunk.index == k && 0 < |chunk.text| <= size
    && !IsSpace(chunk.text[0]) && !IsSpace(chunk.text[|chunk.text| - 1])
  }

  ghost predicate AllTidy(chunks: seq<Chunk>, size: nat) {
    forall k :: 0 <= k < |chunks| ==> Tidy(chunks[k], k, size)
  }

  lemma NextIsTidy(before: seq<Chunk>, piece: string, size: nat)
    requires AllTidy(before, size) && Tidy(Chunk(|before|, piece), |before|, size)
    ensures AllTidy(before + [Chunk(|before|, piece)], size)
  {
  }

  lemma StripIsTidy(s: string, index: nat, size: nat)
    requires |s| <= size && Strip(s) != ""
    ensures Tidy(Chunk(index, Strip(s)), index, size)
  {
    StripIsTight(s);
  }

  lemma {:induction false} PiecesAreTidy(text: string, windows: seq<Window>, size: nat)
    requires InRange(windows, |text|) && forall i :: 0 <= i < |windows| ==> windows[i].end - windows[i].start <= size
    ensures AllTidy(Pieces(text, windows), size)
  {
    if windows == [] {
    } else {
      var init, last := windows[..|windows| - 1], windows[|windows| - 1];
      PiecesAreTidy(text, init, size);
      var before, part := Pieces(text, init), text[last.start..last.end];
      LastApart(windows);
      OneMorePiece(text, init, last);
      if Strip(part) != "" {
        StripIsTidy(part, |before|, size);
        NextIsTidy(before, Strip(part), size);
      }
    }
  }

  lemma StripOccurs(text: string, w: Window)
    requires w.start <= w.end <= |text|
    ensures exists at: nat :: Occurs(text, Strip(text[w.start..w.end]), at)
  {
    var part := text[w.start..w.end];
    var lo, hi := FirstVisible(part, 0), LastVisible(part, |part|);
    if lo < hi {
      SliceOfSlice(text, w.start, w.end, lo, hi);
      assert Strip(part) == part[lo..hi];
      assert Occurs(text, Strip(part), w.start + lo);
    } else {
      assert Occurs(text, Strip(part), 0);
    }
  }

  /** Nothing is made up: every chunk is a stretch of the text. */
  lemma {:induction false} PiecesOccur(text: string, windows: seq<Window>, c: Chunk)
    requires InRange(windows, |text|) && c in Pieces(text, windows)
    ensures exists at: nat :: Occurs(text, c.text, at)
  {
    var init, last := windows[..|windows| - 1], windows[|windows| - 1];
    if c in Pieces(text, init) {
      PiecesOccur(text, init, c);
    } else {
      StripOccurs(text, last);
    }
  }

  // ---------------------------------------------------------------------------------------------
  // The loop

  method FindEnd(text: string, size: nat, start: nat) returns (end: nat)
    requires size >= 64 && start < |text|
    ensures end == EndOf(text, size, start)
  {
    var hardEnd := Min(|text|, start + size);
    end := hardEnd;
    if hardEnd < |text| {
      var boundary := LastSpace(text, start + size / 2, hardEnd);
      if boundary > start {
        end := boundary;
      }
    }
  }

  method AppendPiece(text: string, start: nat, end: nat, chunks: seq<Chunk>, index: nat, ghost done: seq<Window>)
    returns (more: seq<Chunk>, next: nat)
    requires start <= end <= |text| && InRange(done, |text|) && chunks == Pieces(text, done) && index == |chunks|
    ensures InRange(done + [Window(start, end)], |text|)
    ensures more == Pieces(text, done + [Window(start, end)]) && next == |more|
  {
    more, next := chunks, index;
    var piece := Strip(text[start..end]);
    if piece != "" {
      more := more + [Chunk(next, piece)];
      next := next + 1;
    }
    OneMorePiece(text, done, Window(start, end));
  }

  ghost predicate ChunkedBy(text: string, size: nat, overlap: nat, windows: seq<Window>, chunks: seq<Chunk>)
    requires size >= 64
  {
    SlidesThrough(text, size, overlap, windows) && InRange(windows, |text|) && chunks == Pieces(text, windows)
  }

  /** The chunks are the stripped contents of the windows that slide through the text. */
  ghost predicate IsChunking(text: string, size: nat, overlap: nat, chunks: seq<Chunk>)
    requires size >= 64
  {
    exists windows :: ChunkedBy(text, size, overlap, windows, chunks)
  }

  /** Where the loop is before the window that starts at `start`. */
  ghost predicate Progress(
      text: string, size: nat, overlap: nat, windows: seq<Window>, start: nat, chunks: seq<Chunk>, index: nat)
    requires size >= 64
  {
    && SlidesTo(text, size, overlap, windows, start) && InRange(windows, |text|)
    && chunks == Pieces(text, windows) && index == |chunks|
  }

  /** After a window that does not reach the end, the next one starts before the end. */
  lemma StartsInside(text: string, size: nat, overlap: nat, windows: seq<Window>, start: nat)
    requires size >= 64 && SlidesTo(text, size, overlap, windows, start)
    ensures windows != [] ==> start < |text|
  {
    if windows != [] {
      assert Fits(text, size, windows[|windows| - 1]);
    }
  }

  method TakeWindow(
      text: string, size: nat, overlap: nat, start: nat, chunks: seq<Chunk>, index: nat, ghost windows: seq<Window>)
    returns (end: nat, more: seq<Chunk>, next: nat)
    requires ValidSettings(size, overlap) && start < |text| && Progress(text, size, overlap, windows, start, chunks, index)
    ensures start < end <= |text|
    ensures var w := Window(start, end);
            if end < |text| then Progress(text, size, overlap, windows + [w], NextStart(w, overlap), more, next)
            else ChunkedBy(text, size, overlap, windows + [w], more)
  {
    end := FindEnd(text, size, start);
    more, next := AppendPiece(text, start, end, chunks, index, windows);
    SlidesOn(text, size, overlap, windows, start);
  }

  method ChunkText(text: string, size: nat, overlap: nat) returns (chunks: seq<Chunk>)
    requires ValidSettings(size, overlap)
    ensures IsChunking(text, size, overlap, chunks)
  {
    chunks := [];
    ghost var windows: seq<Window> := [];
    var start, index := 0, 0;
    while start < |text|
      invariant Progress(text, size, overlap, windows, start, chunks, index)
      decreases |text| - start
    {
      var end;
      end, chunks, index := TakeWindow(text, size, overlap, start, chunks, index, windows);
      windows := windows + [Window(start, end)];
      if end >= |text| {
        return;
      }
      start := Max(start + 1, end - overlap);
    }
    StartsInside(text, size, overlap, windows, start);
    assert ChunkedBy(text, size, overlap, windows, chunks);
  }

  ghost predicate Held(text: string, chunks: seq<Chunk>, p: nat) {
    exists c :: c in chunks && Holds(text, c, p)
  }

  ghost predicate ChunkOk(text: string, size: nat, chunk: Chunk, k: nat) {
    Tidy(chunk, k, size) && exists at: nat :: Occurs(text, chunk.text, at)
  }

  /** What the chunks of a text are: every visible character is in one of them, none is empty or longer
      than the chunk size, each is a stretch of the text, and they are numbered from 0. */
  ghost predicate Chunks(text: string, size: nat, chunks: seq<Chunk>) {
    && (forall p: nat :: p < |text| && !IsSpace(text[p]) ==> Held(text, chunks, p))
    && (forall k :: 0 <= k < |chunks| ==> ChunkOk(text, size, chunks[k], k))
  }

  lemma VisibleIsHeld(text: string, size: nat, overlap: nat, windows: seq<Window>, p: nat)
    requires Covers(windows, 0, |text|, size, overlap) && InRange(windows, |text|)
    requires p < |text| && !IsSpace(text[p])
    ensures Held(text, Pieces(text, windows), p)
  {
    SomeWindowContains(windows, 0, |text|, size, overlap, p, 0);
    var k :| 0 <= k < |windows| && windows[k].start <= p < windows[k].end;
    PiecesHold(text, windows, k, p);
  }

  lemma PiecesAreChunks(text: string, windows: seq<Window>, size: nat, k: nat)
    requires InRange(windows, |text|) && k < |Pieces(text, windows)|
    requires forall i :: 0 <= i < |windows| ==> windows[i].end - windows[i].start <= size
    ensures ChunkOk(text, size, Pieces(text, windows)[k], k)
  {
    PiecesAreTidy(text, windows, size);
    PiecesOccur(text, windows, Pieces(text, windows)[k]);
  }

  lemma ChunksHoldEverything(text: string, size: nat, overlap: nat, windows: seq<Window>)
    requires ValidSettings(size, overlap) && SlidesThrough(text, size, overlap, windows) && InRange(windows, |text|)
    ensures Chunks(text, size, Pieces(text, windows))
  {
    if text != "" {
      WindowsCover(text, size, overlap, windows);
      forall p: nat | p < |text| && !IsSpace(text[p]) ensures Held(text, Pieces(text, windows), p) {
        VisibleIsHeld(text, size, overlap, windows, p);
      }
      forall k | 0 <= k < |Pieces(text, windows)| ensures ChunkOk(text, size, Pieces(text, windows)[k], k) {
        PiecesAreChunks(text, windows, size, k);
      }
    }
  }

  method ChunkDocument(document: string, size: nat, overlap: nat) returns (chunks: seq<Chunk>)
    requires ValidSettings(size, overlap)
    ensures Chunks(Normalise(document), size, chunks)
    ensures Normal(Normalise(document)) && Visible(Normalise(document)) == Visible(document)
    ensures exists words :: WordsOf(document, words) && WordsOf(Normalise(document), words)
  {
    NormaliseKeepsTheWords(document);
    SplitIsTheWords(document, Split(document));
    NormaliseKeepsTheVisible(document);
    NormaliseIsNormal(document);
    var text := Normalise(document);
    chunks := ChunkText(text, size, overlap);
    ghost var windows :| ChunkedBy(text, size, overlap, windows, chunks);
    ChunksHoldEverything(text, size, overlap, windows);
  }
}
