/** chunk_words: overlapping windows of words (core.py:82-100,
    qna_bm_core.py:82-95). */
module Chunker {
  import opened Text
  import opened Settings

  /** A chunk's text and its span [start, end) in word offsets. */
  datatype Chunk = Chunk(text: string, start: int, end: int)

  /** The advance between window starts, max(1, size - overlap). */
  function Step(size: int, overlap: int): (step: int)
    ensures step >= 1
    ensures size >= 1 && overlap >= 0 ==> step <= size
  {
    Max(1, size - overlap)
  }

  /** The window starting at word i, as the source builds it. */
  function Window(words: seq<string>, size: int, i: nat): seq<string> {
    Slice(words, i, i + size)
  }

  /** The chunks from start i on. core.py skips an empty window and goes on;
      qna_bm_core.py (stopOnEmpty) ends at the first empty window. */
  function ChunksFrom(words: seq<string>, size: int, step: int, i: nat, stopOnEmpty: bool): seq<Chunk>
    requires step >= 1
    decreases |words| - i
  {
    if i >= |words| then []
    else
      if Window(words, size, i) == [] then
        if stopOnEmpty then [] else ChunksFrom(words, size, step, i + step, stopOnEmpty)
      else
        [WindowChunk(words, size, i)] + ChunksFrom(words, size, step, i + step, stopOnEmpty)
  }

  /** The tuple chunk_words records for the window at i: its words joined
      by single spaces, i, and min(i + size, n). */
  function WindowChunk(words: seq<string>, size: int, i: nat): Chunk {
    Chunk(Join(Window(words, size, i), " "), i, Min(i + size, |words|))
  }

  /** What chunk_words returns for a text whose split() is `words`. */
  function ChunksOf(v: Variant, words: seq<string>, size: int, overlap: int): seq<Chunk> {
    if words == [] then [] else ChunksFrom(words, size, Step(size, overlap), 0, v == QnaBm)
  }

  /** What chunk_words returns for a text. */
  function Chunks(v: Variant, text: string, size: int, overlap: int): seq<Chunk> {
    ChunksOf(v, Words(text), size, overlap)
  }

  /** chunk_words, as the variant's module loops. */
  method ChunkWords(v: Variant, text: string, size: int, overlap: int) returns (chunks: seq<Chunk>)
    ensures chunks == Chunks(v, text, size, overlap)
  {
    var words := Words(text);
    if words == [] {
      return [];
    }
    if v == Core {
      chunks := ChunkWordsWhile(words, size, overlap);
    } else {
      chunks := ChunkWordsRange(words, size, overlap);
    }
  }

  /** core.py's loop: a while loop that skips an empty window and re-checks
      `i >= len(words)` after each advance. */
  method ChunkWordsWhile(words: seq<string>, size: int, overlap: int) returns (chunks: seq<Chunk>)
    ensures chunks == ChunksFrom(words, size, Step(size, overlap), 0, false)
  {
    chunks := [];
    var step := Step(size, overlap);
    var i: nat := 0;
    while i < |words|
      invariant ChunksFrom(words, size, step, 0, false) == chunks + ChunksFrom(words, size, step, i, false)
      decreases |words| - i
    {
      var window := Window(words, size, i);
      ChunksFromUnfold(words, size, step, i, false);
      ghost var rest := ChunksFrom(words, size, step, i + step, false);
      if window != [] {
        var c := WindowChunk(words, size, i);
        assert ChunksFrom(words, size, step, i, false) == [c] + rest;
        AppendOne(chunks, c, rest);
        chunks := chunks + [c];
      } else {
        assert ChunksFrom(words, size, step, i, false) == rest;
      }
      assert ChunksFrom(words, size, step, 0, false) == chunks + rest;
      i := i + step;
      if i >= |words| {
        break;
      }
    }
  }

  /** qna_bm_core.py's loop: over range(0, len(words), step), leaving at the
      first empty window. */
  method ChunkWordsRange(words: seq<string>, size: int, overlap: int) returns (chunks: seq<Chunk>)
    ensures chunks == ChunksFrom(words, size, Step(size, overlap), 0, true)
  {
    chunks := [];
    var step := Step(size, overlap);
    var i: nat := 0;
    while i < |words|
      invariant ChunksFrom(words, size, step, 0, true) == chunks + ChunksFrom(words, size, step, i, true)
      decreases |words| - i
    {
      var window := Window(words, size, i);
      ChunksFromUnfold(words, size, step, i, true);
      if window == [] {
        break;
      }
      var c := WindowChunk(words, size, i);
      ghost var rest := ChunksFrom(words, size, step, i + step, true);
      assert ChunksFrom(words, size, step, i, true) == [c] + rest;
      AppendOne(chunks, c, rest);
      chunks := chunks + [c];
      i := i + step;
    }
  }

  /** Appending one element, then the rest, regroups. */
  lemma AppendOne<T>(a: seq<T>, x: T, rest: seq<T>)
    ensures a + ([x] + rest) == (a + [x]) + rest
  {
  }

  /** One round of either loop: the window at i, then the chunks after it. */
  lemma ChunksFromUnfold(words: seq<string>, size: int, step: int, i: nat, stop: bool)
    requires step >= 1 && i < |words|
    ensures ChunksFrom(words, size, step, i, stop) ==
        if Window(words, size, i) == [] then (if stop then [] else ChunksFrom(words, size, step, i + step, stop))
        else [WindowChunk(words, size, i)] + ChunksFrom(words, size, step, i + step, stop)
  {
  }

  /** A window that starts inside the text is words[i:min(i + size, n)]. */
  lemma WindowIsSlice(words: seq<string>, size: int, i: nat)
    requires size >= 1 && i < |words|
    ensures i < Min(i + size, |words|) <= |words|
    ensures Window(words, size, i) == words[i..Min(i + size, |words|)]
  {
  }

  /** From a start i, the chunks still to come number c with
      i + (c - 1) * step < n <= i + c * step: ceil((n - i) / step). */
  lemma {:induction false} ChunksFromCount(words: seq<string>, size: int, step: int, i: nat, stop: bool)
    requires size >= 1 && step >= 1
    ensures var c := |ChunksFrom(words, size, step, i, stop)|;
      i + c * step >= |words| && (i < |words| ==> c >= 1 && i + (c - 1) * step < |words|)
    decreases |words| - i
  {
    if i < |words| {
      assert Window(words, size, i) != [];
      ChunksFromCount(words, size, step, i + step, stop);
      var c' := |ChunksFrom(words, size, step, i + step, stop)|;
      MulSucc(c', step);
    }
  }

  /** The k-th chunk from start i is the window at i + k * step. */
  lemma {:induction false} ChunksFromAt(words: seq<string>, size: int, step: int, i: nat, stop: bool, k: nat)
    requires size >= 1 && step >= 1
    requires k < |ChunksFrom(words, size, step, i, stop)|
    ensures 0 <= k * step && i + k * step < |words|
    ensures ChunksFrom(words, size, step, i, stop)[k] == WindowChunk(words, size, i + k * step)
    decreases k
  {
    assert i < |words|;
    WindowIsSlice(words, size, i);
    if k > 0 {
      ChunksFromAt(words, size, step, i + step, stop, k - 1);
      MulSucc(k - 1, step);
    }
  }

  /** The shape of chunk_words with a positive window: ceil(n / step)
      chunks (the count c with (c - 1) * step < n <= c * step); the k-th one
      starts at k * step, ends at min(k * step + size, n) and holds those
      words joined by single spaces. */
  lemma ChunkShape(v: Variant, words: seq<string>, size: int, overlap: int)
    requires size >= 1
    ensures var step, cs := Step(size, overlap), ChunksOf(v, words, size, overlap);
      |cs| * step >= |words| && (|words| > 0 ==> |cs| >= 1 && (|cs| - 1) * step < |words|) &&
      forall k :: 0 <= k < |cs| ==> ChunkIsWindow(cs[k], words, size, k * step)
  {
    var step := Step(size, overlap);
    var cs := ChunksOf(v, words, size, overlap);
    if words != [] {
      ChunksFromCount(words, size, step, 0, v == QnaBm);
      forall k | 0 <= k < |cs| ensures ChunkIsWindow(cs[k], words, size, k * step) {
        ChunkAtIsWindow(words, size, step, v == QnaBm, k);
      }
    }
  }

  /** The k-th chunk is the chunk of the window at k * step. */
  lemma ChunkAtIsWindow(words: seq<string>, size: int, step: int, stop: bool, k: nat)
    requires size >= 1 && step >= 1
    requires k < |ChunksFrom(words, size, step, 0, stop)|
    ensures ChunkIsWindow(ChunksFrom(words, size, step, 0, stop)[k], words, size, k * step)
  {
    ChunksFromAt(words, size, step, 0, stop, k);
    WindowIsSlice(words, size, k * step);
  }

  /** c is the chunk of the window at i: span [i, min(i + size, n)), inside
      the text, and text those words joined by single spaces. */
  predicate ChunkIsWindow(c: Chunk, words: seq<string>, size: int, i: int) {
    var end := Min(i + size, |words|);
    0 <= i < end <= |words| && c.start == i && c.end == end && c.text == Join(words[i..end], " ")
  }

  /** The two modules' chunkers agree whenever the window is positive. */
  lemma ChunkersAgree(words: seq<string>, size: int, overlap: int)
    requires size >= 1
    ensures ChunksOf(Core, words, size, overlap) == ChunksOf(QnaBm, words, size, overlap)
  {
    var step := Step(size, overlap);
    var a, b := ChunksOf(Core, words, size, overlap), ChunksOf(QnaBm, words, size, overlap);
    if words != [] {
      ChunksFromCount(words, size, step, 0, false);
      ChunksFromCount(words, size, step, 0, true);
      MulSucc(|a| - 1, step);
      MulSucc(|b| - 1, step);
      LessTimes(|a| - 1, |b|, step);
      LessTimes(|b| - 1, |a|, step);
      forall k | 0 <= k < |a| ensures a[k] == b[k] {
        ChunksFromAt(words, size, step, 0, false, k);
        ChunksFromAt(words, size, step, 0, true, k);
      }
    }
  }

  /** (x * step < y * step) with a positive step means x < y. */
  lemma LessTimes(x: int, y: int, step: int)
    requires step >= 1 && x * step < y * step
    ensures x < y
  {
    assert y * step - x * step == (y - x) * step;
  }

  /** Empty or blank text has no chunks. */
  lemma BlankTextNoChunks(v: Variant, text: string, size: int, overlap: int)
    requires AllSpace(text)
    ensures Chunks(v, text, size, overlap) == []
  {
    WordsEmptyIffBlank(text);
  }

  /** With a positive window and a non-negative overlap the chunks cover every
      word: the first starts at 0, each starts no later than the previous one
      ends, and the last ends at the word count. */
  lemma ChunkCoverage(v: Variant, words: seq<string>, size: int, overlap: int)
    requires size >= 1 && overlap >= 0 && words != []
    ensures var cs := ChunksOf(v, words, size, overlap);
      |cs| > 0 && cs[0].start == 0 && cs[|cs| - 1].end == |words| &&
      forall k :: 0 <= k < |cs| - 1 ==> cs[k + 1].start <= cs[k].end
  {
    var step := Step(size, overlap);
    var stop := v == QnaBm;
    var cs := ChunksOf(v, words, size, overlap);
    ChunksFromCount(words, size, step, 0, stop);
    var last := |cs| - 1;
    ChunksFromAt(words, size, step, 0, stop, 0);
    ChunksFromAt(words, size, step, 0, stop, last);
    MulSucc(last, step);
    forall k | 0 <= k < |cs| - 1 ensures cs[k + 1].start <= cs[k].end {
      ChunksFromAt(words, size, step, 0, stop, k);
      ChunksFromAt(words, size, step, 0, stop, k + 1);
      MulSucc(k, step);
    }
  }

  /** A chunk's text splits back into exactly the words of its span, so the
      50-word guards see end - start words. */
  lemma ChunkWordCount(c: Chunk, words: seq<string>, size: int, i: int)
    requires ChunkIsWindow(c, words, size, i)
    requires forall j :: 0 <= j < |words| ==> IsWord(words[j])
    ensures |Words(c.text)| == c.end - c.start
  {
    var ws := words[c.start..c.end];
    forall j | 0 <= j < |ws| ensures IsWord(ws[j]) {
      assert ws[j] == words[c.start + j];
    }
    WordsOfJoin(ws);
  }

  /** 1000 words, window 800, overlap 100: two chunks, [0, 800) and [700, 1000). */
  lemma ThousandWordsTwoChunks(v: Variant, words: seq<string>)
    requires |words| == 1000
    ensures var cs := ChunksOf(v, words, 800, 100);
      |cs| == 2 && cs[0].start == 0 && cs[0].end == 800 && cs[1].start == 700 && cs[1].end == 1000
  {
    var cs := ChunksOf(v, words, 800, 100);
    ChunksFromCount(words, 800, 700, 0, v == QnaBm);
    ChunksFromAt(words, 800, 700, 0, v == QnaBm, 0);
    ChunksFromAt(words, 800, 700, 0, v == QnaBm, 1);
  }
}
