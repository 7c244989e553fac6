/**
 * `PDFProcessor._chunk_text`: split a document's text into words and group
 * consecutive words into windows of `chunk_size` words, each window joined
 * with single spaces.
 */
module Chunker {
  import opened PyText

  /** The default `chunk_size`, the only one the ingestion passes. */
  const ChunkSize: nat := 500

  function Min(a: int, b: int): int {
    if a <= b then a else b
  }

  /** `c` is `ceil(n / size)`: the number of values `range(0, n, size)` produces. */
  predicate IsCeilDiv(c: nat, n: nat, size: nat) {
    c * size - size < n <= c * size
  }

  /** `[words[i:i+size] for i in range(0, len(words), size)]` */
  function Windows<T>(words: seq<T>, size: nat): seq<seq<T>>
    requires size > 0
    decreases |words|
  {
    if words == [] then []
    else
      var m := Min(size, |words|);
      [words[..m]] + Windows(words[m..], size)
  }

  /** `" ".join(window)` for each window, in order. */
  function JoinEach(windows: seq<seq<string>>): (chunks: seq<string>)
    ensures |chunks| == |windows|
  {
    if windows == [] then [] else [Join(" ", windows[0])] + JoinEach(windows[1..])
  }

  lemma {:induction false} JoinEachAt(windows: seq<seq<string>>, j: nat)
    requires j < |windows|
    ensures JoinEach(windows)[j] == Join(" ", windows[j])
  {
    if j > 0 {
      JoinEachAt(windows[1..], j - 1);
    }
  }

  /** `_chunk_text(text, size)`: each window of words of `text.split()` joined by single spaces. */
  function ChunkText(text: string, size: nat): seq<string>
    requires size > 0
  {
    JoinEach(Windows(Split(text), size))
  }

  /** Concatenation of a sequence of sequences. */
  function Flatten<T>(ss: seq<seq<T>>): seq<T> {
    if ss == [] then [] else ss[0] + Flatten(ss[1..])
  }

  /** There are `ceil(N / size)` windows, as many as `range(0, N, size)` has values. */
  lemma {:induction false} WindowsCount<T>(words: seq<T>, size: nat)
    requires size > 0
    ensures IsCeilDiv(|Windows(words, size)|, |words|, size)
    decreases |words|
  {
    if |words| > size {
      var c := |Windows(words[size..], size)|;
      WindowsCount(words[size..], size);
      assert (c + 1) * size == c * size + size;
    } else if words != [] {
      assert words[|words|..] == [];
    }
  }

  /** `j * size`, built by repeated addition so that proofs about windows stay linear. */
  function Offset(j: nat, size: nat): nat {
    if j == 0 then 0 else Offset(j - 1, size) + size
  }

  lemma {:induction false} OffsetIsProduct(j: nat, size: nat)
    ensures Offset(j, size) == j * size
  {
    if j > 0 {
      OffsetIsProduct(j - 1, size);
      MulSucc(j, size);
    }
  }

  lemma MulSucc(j: nat, size: nat)
    requires j > 0
    ensures j * size == (j - 1) * size + size
  {
  }

  lemma SliceOfSuffix<T>(s: seq<T>, m: nat, a: nat, b: nat)
    requires m <= |s| && a <= b <= |s| - m
    ensures s[m..][a..b] == s[m + a .. m + b]
  {
  }

  /** The first window is the first `size` words, or all of them. */
  lemma WindowsHead<T>(words: seq<T>, size: nat)
    requires size > 0 && words != []
    ensures Windows(words, size)[0] == words[0 .. Min(size, |words|)]
  {
    var m := Min(size, |words|);
    assert words[..m] == words[0..m];
  }

  /** A later window is a window of the words after the first `size`. */
  lemma WindowsTail<T>(words: seq<T>, size: nat, j: nat)
    requires size > 0
    requires 0 < j < |Windows(words, size)|
    ensures size < |words|
    ensures Windows(words, size)[j] == Windows(words[size..], size)[j - 1]
    ensures j - 1 < |Windows(words[size..], size)|
  {
    var m := Min(size, |words|);
    assert Windows(words, size) == [words[..m]] + Windows(words[m..], size);
    assert words[m..] != [];
  }

  /** `words[a..b]` of the words after the first `size` is `words[size + a .. size + b]`, with `a` offsets. */
  lemma OffsetStep<T>(words: seq<T>, size: nat, j: nat, w: seq<T>)
    requires 0 < j && size < |words|
    requires Offset(j - 1, size) < |words| - size
    requires w == words[size..][Offset(j - 1, size) .. Min(Offset(j - 1, size) + size, |words| - size)]
    ensures Offset(j, size) < |words|
    ensures w == words[Offset(j, size) .. Min(Offset(j, size) + size, |words|)]
  {
    var a := Offset(j - 1, size);
    var b := Min(a + size, |words| - size);
    SliceOfSuffix(words, size, a, b);
  }

  /** Window `j` starts `Offset(j, size)` words in and holds the next `size` words, or the rest. */
  lemma {:induction false} WindowAtOffset<T>(words: seq<T>, size: nat, j: nat)
    requires size > 0
    requires j < |Windows(words, size)|
    ensures Offset(j, size) < |words|
    ensures Windows(words, size)[j] == words[Offset(j, size) .. Min(Offset(j, size) + size, |words|)]
    decreases |words|
  {
    if j == 0 {
      WindowsHead(words, size);
    } else {
      WindowsTail(words, size, j);
      WindowAtOffset(words[size..], size, j - 1);
      OffsetStep(words, size, j, Windows(words, size)[j]);
    }
  }

  /** Window `j` is `words[j*size : j*size + size]`, the slice the comprehension takes at `i = j*size`. */
  lemma WindowAt<T>(words: seq<T>, size: nat, j: nat)
    requires size > 0
    requires j < |Windows(words, size)|
    ensures j * size < |words|
    ensures Windows(words, size)[j] == words[j * size .. Min(j * size + size, |words|)]
  {
    WindowAtOffset(words, size, j);
    OffsetIsProduct(j, size);
  }

  /** Every window but the last holds exactly `size` words; the last holds between 1 and `size`. */
  lemma {:induction false} WindowSizes<T>(words: seq<T>, size: nat)
    requires size > 0
    ensures var ws := Windows(words, size);
      && (forall j :: 0 <= j < |ws| - 1 ==> |ws[j]| == size)
      && (ws != [] ==> 1 <= |ws[|ws| - 1]| <= size)
    decreases |words|
  {
    if words != [] {
      var m := Min(size, |words|);
      WindowSizes(words[m..], size);
    }
  }

  /** Concatenating the windows in order gives back the words: no word is lost, repeated or moved. */
  lemma {:induction false} FlattenWindows<T>(words: seq<T>, size: nat)
    requires size > 0
    ensures Flatten(Windows(words, size)) == words
    decreases |words|
  {
    if words != [] {
      var m := Min(size, |words|);
      FlattenWindows(words[m..], size);
      assert Windows(words, size)[1..] == Windows(words[m..], size);
      assert words == words[..m] + words[m..];
    }
  }

  /** Window `j` of the words of `text` is made of words of `text`. */
  lemma WindowWords(text: string, size: nat, j: nat)
    requires size > 0
    requires j < |Windows(Split(text), size)|
    ensures forall x :: 0 <= x < |Windows(Split(text), size)[j]| ==> IsWord(Windows(Split(text), size)[j][x])
  {
    WindowAt(Split(text), size, j);
    SplitYieldsWords(text);
  }

  /** Re-splitting chunk `j` gives exactly window `j` of the words of `text`. */
  lemma ResplitChunk(text: string, size: nat, j: nat)
    requires size > 0
    requires j < |ChunkText(text, size)|
    ensures Split(ChunkText(text, size)[j]) == Windows(Split(text), size)[j]
  {
    WindowWords(text, size, j);
    JoinEachAt(Windows(Split(text), size), j);
    SplitJoin(Windows(Split(text), size)[j]);
  }

  /** Flattening the words of all chunks, in order, reproduces `text.split()` exactly. */
  lemma ChunksReproduceWords(text: string, size: nat)
    requires size > 0
    ensures var chunks := ChunkText(text, size);
      Flatten(seq(|chunks|, j requires 0 <= j < |chunks| => Split(chunks[j]))) == Split(text)
  {
    var chunks := ChunkText(text, size);
    var resplit := seq(|chunks|, j requires 0 <= j < |chunks| => Split(chunks[j]));
    forall j | 0 <= j < |chunks| ensures resplit[j] == Windows(Split(text), size)[j] {
      ResplitChunk(text, size, j);
    }
    assert resplit == Windows(Split(text), size);
    FlattenWindows(Split(text), size);
  }

  /**
   * `_chunk_text` returns `ceil(N / size)` chunks for `N` words; every chunk but the
   * last holds `size` words and the last between 1 and `size`, so no chunk is empty.
   */
  lemma ChunkWordCounts(text: string, size: nat)
    requires size > 0
    ensures var chunks := ChunkText(text, size);
      && IsCeilDiv(|chunks|, |Split(text)|, size)
      && (forall j :: 0 <= j < |chunks| - 1 ==> |Split(chunks[j])| == size)
      && (chunks != [] ==> 1 <= |Split(chunks[|chunks| - 1])| <= size)
  {
    var chunks := ChunkText(text, size);
    WindowsCount(Split(text), size);
    WindowSizes(Split(text), size);
    forall j | 0 <= j < |chunks| ensures Split(chunks[j]) == Windows(Split(text), size)[j] {
      ResplitChunk(text, size, j);
    }
  }

  /** Empty or whitespace-only text yields no chunks, and only such text does. */
  lemma ChunksEmptyIffBlank(text: string, size: nat)
    requires size > 0
    ensures ChunkText(text, size) == [] <==> IsBlank(text)
  {
    SplitEmptyIffBlank(text);
    WindowsCount(Split(text), size);
  }

  /** A chunk is words joined by single spaces, so it holds no newline. */
  lemma ChunkAvoidsNewline(text: string, size: nat, j: nat)
    requires size > 0
    requires j < |ChunkText(text, size)|
    ensures '\n' !in ChunkText(text, size)[j]
  {
    var w := Windows(Split(text), size)[j];
    WindowWords(text, size, j);
    JoinEachAt(Windows(Split(text), size), j);
    forall x | 0 <= x < |w| ensures '\n' !in w[x] {
      WordAvoidsNewline(w[x]);
    }
    JoinAvoids('\n', " ", w);
  }

  /** Any single chunk holds between 1 and `size` words and no newline. */
  lemma ChunkShape(text: string, size: nat, j: nat)
    requires size > 0
    requires j < |ChunkText(text, size)|
    ensures 1 <= |Split(ChunkText(text, size)[j])| <= size
    ensures '\n' !in ChunkText(text, size)[j]
  {
    ChunkWordCounts(text, size);
    ChunkAvoidsNewline(text, size, j);
  }
}
