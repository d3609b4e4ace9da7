/** The word-window chunker of rag/indexer.py (class DocSplitter).

    A document is cut on the single space character into words; windows of
    `chunkSize` words start at every multiple of `step = chunkSize -
    chunkOverlap` below the word count, and each window is joined back with
    single spaces. */
module Indexer {
  import opened Wrappers
  import opened PyText

  /** `text.split(" ")`: never empty, so every document has a word 0. */
  function Words(text: string): (words: seq<string>)
    ensures |words| >= 1
  {
    Split(text, ' ')
  }

  /** The chunk whose first word is word `a`: `" ".join(words[a:a + chunkSize])`.
      For a non-negative size the slice is the words from `a` up to `a +
      chunkSize`, clamped to the end; a negative size makes the upper bound
      count from the end, as a Python slice does (`ChunkSliceIsWindow`). */
  function WindowText(words: seq<string>, chunkSize: int, a: nat): string
    requires a < |words|
  {
    if chunkSize >= 0 then Join(words[a..Min(a + chunkSize, |words|)], ' ')
    else
      var e := ClampIndex(a + chunkSize, |words|);
      if a < e then Join(words[a..e], ' ') else ""
  }

  /** The chunk the loop builds from `words[i:i + chunkSize]` is the window at `i`. */
  lemma ChunkSliceIsWindow(words: seq<string>, chunkSize: int, i: nat)
    requires i < |words|
    ensures Join(PySlice(words, i, i + chunkSize), ' ') == WindowText(words, chunkSize, i)
  {
  }

  /** The chunks emitted for start indices `start, start + step, ...` below
      `|words|`, one window at each start. */
  function Windows(words: seq<string>, chunkSize: int, step: int, start: nat): seq<string>
    requires step > 0
    decreases |words| - start
  {
    if start >= |words| then []
    else [WindowText(words, chunkSize, start)] + Windows(words, chunkSize, step, start + step)
  }

  /** The distance between the first words of adjacent windows. */
  function Step(chunkSize: int, chunkOverlap: int): int {
    chunkSize - chunkOverlap
  }

  /** The chunks of one document. `range(0, N, step)` raises on a zero
      step (excluded by the precondition) and is empty for a negative one. */
  function ChunkText(text: string, chunkSize: int, chunkOverlap: int): seq<string>
    requires chunkSize != chunkOverlap
  {
    var step := Step(chunkSize, chunkOverlap);
    if step < 0 then [] else Windows(Words(text), chunkSize, step, 0)
  }

  /** The settings `_split_docs` accepts for `data`: the step is only used,
      and `range` only raises on a zero step, once there is a document. */
  predicate Splittable(data: map<string, string>, chunkSize: int, chunkOverlap: int) {
    chunkSize != chunkOverlap || data == map[]
  }

  /** `content` maps each document of `data`, and nothing else, to its
      chunks; each document is chunked on its own. */
  ghost predicate IsChunking(content: map<string, seq<string>>, data: map<string, string>,
                             chunkSize: int, chunkOverlap: int)
    requires Splittable(data, chunkSize, chunkOverlap)
  {
    && content.Keys == data.Keys
    && forall f :: f in content ==> content[f] == ChunkText(data[f], chunkSize, chunkOverlap)
  }

  /** The body of `_split_docs` for one document: split it into words and
      cut the windows. A negative step makes `range` empty. */
  method SplitFile(text: string, chunkSize: int, chunkOverlap: int) returns (chunks: seq<string>)
    requires chunkSize != chunkOverlap
    ensures chunks == ChunkText(text, chunkSize, chunkOverlap)
  {
    var words := Words(text);
    var step := Step(chunkSize, chunkOverlap);
    chunks := [];
    if step > 0 {
      chunks := CutWindows(words, chunkSize, step);
    }
  }

  /** The loop over `range(0, len(words), step)`, appending
      `" ".join(words[i:i + chunkSize])` at each start `i`. */
  method CutWindows(words: seq<string>, chunkSize: int, step: int) returns (chunks: seq<string>)
    requires step > 0
    ensures chunks == Windows(words, chunkSize, step, 0)
  {
    chunks := [];
    var i: nat := 0;
    while i < |words|
      invariant chunks + Windows(words, chunkSize, step, i) == Windows(words, chunkSize, step, 0)
      decreases |words| - i
    {
      var chunk := PySlice(words, i, i + chunkSize);
      ChunkSliceIsWindow(words, chunkSize, i);
      WindowsStep(words, chunkSize, step, i, chunks);
      chunks := chunks + [Join(chunk, ' ')];
      i := i + step;
    }
  }

  /** One turn of the loop over `range(0, N, step)`: emitting the window at
      `i` and moving on to `i + step` keeps the emitted chunks a prefix of
      all chunks. */
  lemma WindowsStep(words: seq<string>, chunkSize: int, step: int, i: nat, done: seq<string>)
    requires step > 0 && i < |words|
    requires done + Windows(words, chunkSize, step, i) == Windows(words, chunkSize, step, 0)
    ensures (done + [WindowText(words, chunkSize, i)]) + Windows(words, chunkSize, step, i + step)
         == Windows(words, chunkSize, step, 0)
  {
    var w := WindowText(words, chunkSize, i);
    var rest := Windows(words, chunkSize, step, i + step);
    assert Windows(words, chunkSize, step, i) == [w] + rest;
    assert (done + [w]) + rest == done + ([w] + rest);
  }

  /** Splits a set of documents into chunks once, at construction. */
  class DocSplitter {
    var data: map<string, string>
    var chunkSize: int
    var chunkOverlap: int
    var chunks: map<string, seq<string>>

    /** The stored chunks are those of the stored documents. */
    ghost predicate Valid()
      reads this
    {
      Splittable(data, chunkSize, chunkOverlap) && IsChunking(chunks, data, chunkSize, chunkOverlap)
    }

    /** `DocSplitter(data, chunk_size=500, chunk_overlap=150)`. */
    constructor (data: map<string, string>, chunkSize: int := 500, chunkOverlap: int := 150)
      requires Splittable(data, chunkSize, chunkOverlap)
      ensures Valid()
      ensures this.data == data && this.chunkSize == chunkSize && this.chunkOverlap == chunkOverlap
    {
      this.data := data;
      this.chunkSize := chunkSize;
      this.chunkOverlap := chunkOverlap;
      new;
      chunks := ComputeChunks();
    }

    /** `_split_docs`: chunk every stored document. The dictionary's
        iteration order does not affect the result. */
    method ComputeChunks() returns (content: map<string, seq<string>>)
      requires Splittable(data, chunkSize, chunkOverlap)
      ensures IsChunking(content, data, chunkSize, chunkOverlap)
    {
      content := map[];
      var pending := data.Keys;
      while pending != {}
        invariant pending <= data.Keys
        invariant content.Keys == data.Keys - pending
        invariant forall f :: f in content ==> content[f] == ChunkText(data[f], chunkSize, chunkOverlap)
        decreases |pending|
      {
        var f :| f in pending;
        var fileChunks := SplitFile(data[f], chunkSize, chunkOverlap);
        content := content[f := fileChunks];
        pending := pending - {f};
      }
    }

    /** `split_docs`: recomputes the chunks, which equal the stored ones. */
    method SplitDocs() returns (content: map<string, seq<string>>)
      requires Valid()
      ensures content == chunks
    {
      content := ComputeChunks();
      ChunkingUnique(content, chunks, data, chunkSize, chunkOverlap);
    }

    /** `get_file_chunks`: the chunks of a stored document, or
        `ValueError("File <name> not found in data")`. */
    method GetFileChunks(fileName: string) returns (r: Result<seq<string>>)
      requires Valid()
      ensures fileName in data ==> r == Ok(ChunkText(data[fileName], chunkSize, chunkOverlap))
      ensures fileName !in data ==> r == Err(ValueError("File " + fileName + " not found in data"))
    {
      if fileName !in chunks {
        return Err(ValueError("File " + fileName + " not found in data"));
      }
      return Ok(chunks[fileName]);
    }
  }

  // -----------------------------------------------------------------------
  // Properties of the chunking
  // -----------------------------------------------------------------------

  /** There is only one chunking of a given set of documents. */
  lemma {:induction false} ChunkingUnique(a: map<string, seq<string>>, b: map<string, seq<string>>,
                       data: map<string, string>, chunkSize: int, chunkOverlap: int)
    requires Splittable(data, chunkSize, chunkOverlap)
    requires IsChunking(a, data, chunkSize, chunkOverlap)
    requires IsChunking(b, data, chunkSize, chunkOverlap)
    ensures a == b
  {
  }

  /** Without documents the only chunking is the empty dictionary, whatever
      the settings, a zero step included. */
  lemma EmptyDataChunks(content: map<string, seq<string>>, chunkSize: int, chunkOverlap: int)
    requires IsChunking(content, map[], chunkSize, chunkOverlap)
    ensures content == map[]
  {
  }

  /** `(c - 1) * step < n <= c * step`, i.e. `c == ceil(n / step)`. */
  ghost predicate IsCeilDiv(c: int, n: int, step: int) {
    (c - 1) * step < n <= c * step
  }

  /** The windows from `start` number `ceil((|words| - start) / step)`. */
  lemma {:induction false} WindowsCount(words: seq<string>, chunkSize: int, step: int, start: nat)
    requires step > 0
    ensures start >= |words| ==> |Windows(words, chunkSize, step, start)| == 0
    ensures start < |words| ==> IsCeilDiv(|Windows(words, chunkSize, step, start)|, |words| - start, step)
    decreases |words| - start
  {
    if start < |words| {
      var c := |Windows(words, chunkSize, step, start + step)|;
      WindowsCount(words, chunkSize, step, start + step);
      MulSucc(c, step);
      MulSucc(c - 1, step);
    }
  }

  /** The index of the first word of window `k`, that is `k * step`
      (`WindowStartIsProduct`), written as repeated addition. */
  function WindowStart(k: nat, step: nat): nat
    decreases k
  {
    if k == 0 then 0 else WindowStart(k - 1, step) + step
  }

  /** Window `k` begins at word `k * step`. */
  lemma {:induction false} WindowStartIsProduct(k: nat, step: nat)
    ensures WindowStart(k, step) == k * step
    decreases k
  {
    if k > 0 {
      WindowStartIsProduct(k - 1, step);
      MulSucc(k - 1, step);
    }
  }

  /** Window `k` from `start` is the one whose first word is word `b =
      start + WindowStart(k, step)`, which is below `|words|`. */
  lemma {:induction false} WindowAt(words: seq<string>, chunkSize: int, step: int, start: nat, k: nat, b: nat)
    requires step > 0
    requires k < |Windows(words, chunkSize, step, start)|
    requires b == start + WindowStart(k, step)
    ensures b < |words|
    ensures Windows(words, chunkSize, step, start)[k] == WindowText(words, chunkSize, b)
    decreases k
  {
    var w := Windows(words, chunkSize, step, start);
    var rest := Windows(words, chunkSize, step, start + step);
    assert w == [WindowText(words, chunkSize, start)] + rest;
    if k > 0 {
      assert w[k] == rest[k - 1];
      WindowAt(words, chunkSize, step, start + step, k - 1, b);
    }
  }

  lemma {:induction false} MulSucc(k: int, step: int)
    ensures (k + 1) * step == k * step + step
  {
  }

  /** Ceiling division agrees with Python's `ceil(n / step)` formula. */
  lemma {:induction false} CeilDivIsFormula(c: int, n: int, step: int)
    requires step > 0 && n > 0
    requires IsCeilDiv(c, n, step)
    ensures c == (n + step - 1) / step
  {
    var q := (n + step - 1) / step;
    assert q * step <= n + step - 1 < (q + 1) * step by { MulSucc(q, step); }
    MulSucc(c - 1, step);
    MulSucc(c, step);
    MulMono(q + 1, c, step);
    MulMono(c + 1, q, step);
  }

  lemma {:induction false} MulMono(a: int, b: int, step: int)
    requires step > 0
    ensures a <= b ==> a * step <= b * step
  {
    assert b * step - a * step == (b - a) * step;
  }

  /** Every document has `ceil(N / step)` chunks, where `N` is its number of
      words; in particular, at least one. */
  lemma {:induction false} ChunkCount(text: string, chunkSize: int, chunkOverlap: int)
    requires chunkOverlap < chunkSize
    ensures var n := |Words(text)|;
            var step := Step(chunkSize, chunkOverlap);
            |ChunkText(text, chunkSize, chunkOverlap)| == (n + step - 1) / step
            && |ChunkText(text, chunkSize, chunkOverlap)| >= 1
  {
    var words := Words(text);
    var step := Step(chunkSize, chunkOverlap);
    WindowsCount(words, chunkSize, step, 0);
    CeilDivIsFormula(|Windows(words, chunkSize, step, 0)|, |words|, step);
  }


  /** No word holds the separator, as is the case for the parts of a split. */
  predicate NoSpaces(words: seq<string>) {
    forall i :: 0 <= i < |words| ==> ' ' !in words[i]
  }

  /** The words of a document hold no space. */
  lemma WordsNoSpaces(text: string)
    ensures NoSpaces(Words(text))
  {
    SplitPartsFree(text, ' ');
  }

  /** A slice of separator-free words is separator-free. */
  lemma NoSpacesSlice(words: seq<string>, a: nat, e: nat)
    requires NoSpaces(words) && a <= e <= |words|
    ensures NoSpaces(words[a..e])
  {
    forall i | 0 <= i < e - a ensures ' ' !in words[a..e][i] {
      assert words[a..e][i] == words[a + i];
    }
  }

  /** A window of non-negative size is the clamped slice of words joined.
      This is the first branch of `WindowText`, kept as a lemma so that its
      callers need not unfold `WindowText` themselves, which is costly. */
  lemma WindowTextSlice(words: seq<string>, chunkSize: int, a: nat)
    requires 0 <= chunkSize && a < |words|
    ensures WindowText(words, chunkSize, a) == Join(words[a..Min(a + chunkSize, |words|)], ' ')
  {
  }

  /** Splitting the window that starts at word `b` gives back its words:
      between 1 and `chunkSize` of them. */
  lemma {:induction false} WindowTextWords(words: seq<string>, chunkSize: int, b: nat)
    requires NoSpaces(words) && 0 < chunkSize && b < |words|
    ensures Split(WindowText(words, chunkSize, b), ' ') == words[b..Min(b + chunkSize, |words|)]
    ensures 1 <= |Split(WindowText(words, chunkSize, b), ' ')| <= chunkSize
  {
    var e := Min(b + chunkSize, |words|);
    NoSpacesSlice(words, b, e);
    SplitJoin(words[b..e], ' ');
  }

  /** Window `k + 1` starts `step` words after window `k`. */
  lemma WindowStartSucc(k: nat, step: nat)
    ensures WindowStart(k + 1, step) == WindowStart(k, step) + step
  {
  }

  /** The last `n` of the `chunkSize` words from `a` (`left`) are the
      first `n` words of a slice starting `chunkSize - n` words later
      (`right`). */
  lemma SliceOverlap(words: seq<string>, left: seq<string>, right: seq<string>,
                     a: nat, b: nat, e: nat, chunkSize: int, n: nat)
    requires n <= chunkSize && a + chunkSize <= |words|
    requires b == a + (chunkSize - n) && b + n <= e <= |words|
    requires left == words[a..Min(a + chunkSize, |words|)] && right == words[b..e]
    ensures |left| == chunkSize && |right| >= n && left[chunkSize - n..] == right[..n]
  {
    assert left[chunkSize - n..] == words[b..b + n];
  }

  /** The elements of a slice starting at `a` from its `m`-th one on. */
  lemma SuffixOfSlice(words: seq<string>, a: nat, e: nat, m: nat)
    requires a + m <= e <= |words|
    ensures words[a..e][m..] == words[a + m..e]
  {
  }

  /** Chunk `k` of a document is the window starting at word `a`, the
      `k`-th value of the range, which is below the word count. */
  lemma {:induction false} ChunkIsWindow(text: string, chunkSize: int, chunkOverlap: int, k: nat, a: nat)
    requires chunkOverlap < chunkSize
    requires k < |ChunkText(text, chunkSize, chunkOverlap)|
    requires a == WindowStart(k, Step(chunkSize, chunkOverlap))
    ensures a < |Words(text)|
    ensures ChunkText(text, chunkSize, chunkOverlap)[k] == WindowText(Words(text), chunkSize, a)
  {
    assert ChunkText(text, chunkSize, chunkOverlap) == Windows(Words(text), chunkSize, Step(chunkSize, chunkOverlap), 0);
    WindowAt(Words(text), chunkSize, Step(chunkSize, chunkOverlap), 0, k, a);
  }

  /** Chunk `k` of a document, whose first word is word `a = k * step`, is
      `" ".join(words[a : min(a + chunkSize, N)])`, and `a` is below `N`. */
  lemma {:induction false} ChunkAt(text: string, chunkSize: int, chunkOverlap: int, k: nat, a: nat)
    requires 0 <= chunkSize && chunkOverlap < chunkSize
    requires k < |ChunkText(text, chunkSize, chunkOverlap)|
    requires a == k * Step(chunkSize, chunkOverlap)
    ensures var words := Words(text);
            a < |words| &&
            ChunkText(text, chunkSize, chunkOverlap)[k] == Join(words[a..Min(a + chunkSize, |words|)], ' ')
  {
    WindowStartIsProduct(k, Step(chunkSize, chunkOverlap));
    ChunkIsWindow(text, chunkSize, chunkOverlap, k, a);
    WindowTextSlice(Words(text), chunkSize, a);
  }

  /** The words of chunk `k` (first word `a`) are exactly its window of the
      document's words: between 1 and `chunkSize` of them. */
  lemma {:induction false} ChunkWords(text: string, chunkSize: int, chunkOverlap: int, k: nat, a: nat)
    requires 0 < chunkSize && chunkOverlap < chunkSize
    requires k < |ChunkText(text, chunkSize, chunkOverlap)|
    requires a == k * Step(chunkSize, chunkOverlap)
    ensures var words := Words(text);
            var chunkWords := Split(ChunkText(text, chunkSize, chunkOverlap)[k], ' ');
            && a < |words|
            && chunkWords == words[a..Min(a + chunkSize, |words|)]
            && 1 <= |chunkWords| <= chunkSize
  {
    WindowStartIsProduct(k, Step(chunkSize, chunkOverlap));
    ChunkWordsAt(text, chunkSize, chunkOverlap, k, a);
  }

  /** `ChunkWords` for the first word reached by repeated addition. It is
      kept beside `ChunkWords` because `NextChunkWords` steps `a` by
      addition, which is much cheaper to prove than stepping `k * step`. */
  lemma {:induction false} ChunkWordsAt(text: string, chunkSize: int, chunkOverlap: int, k: nat, a: nat)
    requires 0 < chunkSize && chunkOverlap < chunkSize
    requires k < |ChunkText(text, chunkSize, chunkOverlap)|
    requires a == WindowStart(k, Step(chunkSize, chunkOverlap))
    ensures var words := Words(text);
            var chunkWords := Split(ChunkText(text, chunkSize, chunkOverlap)[k], ' ');
            && a < |words|
            && chunkWords == words[a..Min(a + chunkSize, |words|)]
            && 1 <= |chunkWords| <= chunkSize
  {
    ChunkIsWindow(text, chunkSize, chunkOverlap, k, a);
    WordsNoSpaces(text);
    WindowTextWords(Words(text), chunkSize, a);
  }

  /** Adjacent chunks overlap: when chunk `k` (first word `a`) is
      full-length, its last `chunkOverlap` words are the first
      `chunkOverlap` words of chunk `k+1`. */
  lemma {:induction false} ChunkOverlap(text: string, chunkSize: int, chunkOverlap: int, k: nat, a: nat)
    requires 0 <= chunkOverlap < chunkSize
    requires k + 1 < |ChunkText(text, chunkSize, chunkOverlap)|
    requires a == k * Step(chunkSize, chunkOverlap) && a + chunkSize <= |Words(text)|
    ensures var chunks := ChunkText(text, chunkSize, chunkOverlap);
            var left := Split(chunks[k], ' ');
            var right := Split(chunks[k + 1], ' ');
            |left| == chunkSize && |right| >= chunkOverlap &&
            left[chunkSize - chunkOverlap..] == right[..chunkOverlap]
  {
    WindowStartIsProduct(k, Step(chunkSize, chunkOverlap));
    var words := Words(text);
    var step := Step(chunkSize, chunkOverlap);
    var chunks := ChunkText(text, chunkSize, chunkOverlap);
    ChunkWordsAt(text, chunkSize, chunkOverlap, k, a);
    NextChunkWords(text, chunkSize, chunkOverlap, k, a);
    SliceOverlap(words, Split(chunks[k], ' '), Split(chunks[k + 1], ' '),
                 a, a + step, Min(a + step + chunkSize, |words|), chunkSize, chunkOverlap);
  }

  /** The words of chunk `k + 1`, whose first word is `a + step` when
      chunk `k` starts at `a`. */
  lemma {:induction false} NextChunkWords(text: string, chunkSize: int, chunkOverlap: int, k: nat, a: nat)
    requires 0 <= chunkOverlap < chunkSize
    requires k + 1 < |ChunkText(text, chunkSize, chunkOverlap)|
    requires a == WindowStart(k, Step(chunkSize, chunkOverlap))
    ensures var words := Words(text);
            var b := a + Step(chunkSize, chunkOverlap);
            && b < |words|
            && Split(ChunkText(text, chunkSize, chunkOverlap)[k + 1], ' ') == words[b..Min(b + chunkSize, |words|)]
  {
    WindowStartSucc(k, Step(chunkSize, chunkOverlap));
    ChunkWordsAt(text, chunkSize, chunkOverlap, k + 1, a + Step(chunkSize, chunkOverlap));
  }

  /** The tail chunk can repeat the previous one: once chunk `k` (first word
      `a`) reaches the last word, chunk `k+1` consists of its words from
      index `step` on. */
  lemma {:induction false} TailChunkIsSuffix(text: string, chunkSize: int, chunkOverlap: int, k: nat, a: nat)
    requires 0 <= chunkOverlap < chunkSize
    requires k + 1 < |ChunkText(text, chunkSize, chunkOverlap)|
    requires a == k * Step(chunkSize, chunkOverlap) && a + chunkSize >= |Words(text)|
    ensures var chunks := ChunkText(text, chunkSize, chunkOverlap);
            && |Split(chunks[k], ' ')| > Step(chunkSize, chunkOverlap)
            && Split(chunks[k + 1], ' ') == Split(chunks[k], ' ')[Step(chunkSize, chunkOverlap)..]
  {
    WindowStartIsProduct(k, Step(chunkSize, chunkOverlap));
    ChunkWordsAt(text, chunkSize, chunkOverlap, k, a);
    NextChunkWords(text, chunkSize, chunkOverlap, k, a);
    assert Min(a + chunkSize, |Words(text)|) == |Words(text)|;
    assert Min(a + Step(chunkSize, chunkOverlap) + chunkSize, |Words(text)|) == |Words(text)|;
    SuffixOfSlice(Words(text), a, |Words(text)|, Step(chunkSize, chunkOverlap));
  }

  /** A document of exactly `chunkSize` words, with `0 < 2 * chunkOverlap <=
      chunkSize`, has two chunks: the whole text, then its words from
      `step` on again, because the range still has the value `step`. */
  lemma {:induction false} FullDocumentTwoChunks(text: string, chunkSize: int, chunkOverlap: int)
    requires 0 < chunkOverlap && 2 * chunkOverlap <= chunkSize && |Words(text)| == chunkSize
    ensures var chunks := ChunkText(text, chunkSize, chunkOverlap);
            && |chunks| == 2
            && Split(chunks[1], ' ') == Words(text)[Step(chunkSize, chunkOverlap)..]
  {
    var words := Words(text);
    var step := Step(chunkSize, chunkOverlap);
    var chunks := ChunkText(text, chunkSize, chunkOverlap);
    assert chunks == Windows(words, chunkSize, step, 0);
    assert Windows(words, chunkSize, step, step + step) == [];
    assert Windows(words, chunkSize, step, step) == [WindowText(words, chunkSize, step)];
    assert |chunks| == 2;
    ChunkWords(text, chunkSize, chunkOverlap, 0, 0);
    TailChunkIsSuffix(text, chunkSize, chunkOverlap, 0, 0);
    assert words[0..Min(chunkSize, |words|)] == words;
  }

  /** When one window covers the whole document, chunk 0 is the document. */
  lemma {:induction false} SingleWindowRoundTrip(text: string, chunkSize: int, chunkOverlap: int)
    requires chunkOverlap < chunkSize
    requires chunkSize >= |Words(text)|
    ensures |ChunkText(text, chunkSize, chunkOverlap)| >= 1
    ensures ChunkText(text, chunkSize, chunkOverlap)[0] == text
  {
    ChunkCount(text, chunkSize, chunkOverlap);
    ChunkAt(text, chunkSize, chunkOverlap, 0, 0);
    var words := Words(text);
    assert words[0..|words|] == words;
    JoinSplit(text, ' ');
  }

  /** An empty document yields the single empty chunk, since `"".split(" ")`
      is `[""]`. */
  lemma {:induction false} EmptyTextChunks(chunkSize: int, chunkOverlap: int)
    requires chunkOverlap < chunkSize
    ensures ChunkText("", chunkSize, chunkOverlap) == [""]
  {
    var step := Step(chunkSize, chunkOverlap);
    assert Words("") == [""];
    assert Windows([""], chunkSize, step, step) == [];
    assert WindowText([""], chunkSize, 0) == "" by {
      if chunkSize >= 0 {
        assert [""][0..Min(chunkSize, 1)] == [] || [""][0..Min(chunkSize, 1)] == [""];
      } else {
        assert PySlice([""], 0, chunkSize) == [];
      }
    }
  }

  /** An overlap larger than the chunk size makes the range empty: no chunks. */
  lemma {:induction false} NegativeStepChunks(text: string, chunkSize: int, chunkOverlap: int)
    requires chunkSize < chunkOverlap
    ensures ChunkText(text, chunkSize, chunkOverlap) == []
  {
  }

  /** `("word " * 200).strip()` with chunk size 50 and overlap 10: five
      chunks, at words 0-50, 40-90 and 160-200, and the last ten words of
      chunk 0 are the first ten words of chunk 1 under `split()`. */
  lemma {:induction false} SampleScenario()
    ensures var words := seq(200, _ => "word");
            var text := Join(words, ' ');
            var chunks := ChunkText(text, 50, 10);
            && Words(text) == words
            && |chunks| == 5
            && chunks[0] == Join(words[0..50], ' ')
            && chunks[1] == Join(words[40..90], ' ')
            && chunks[4] == Join(words[160..200], ' ')
            && |Tokens(chunks[0])| == 50 && |Tokens(chunks[1])| == 50
            && Tokens(chunks[0])[40..] == Tokens(chunks[1])[..10]
  {
    var words := seq(200, _ => "word");
    var text := Join(words, ' ');
    assert "word" == ['w', 'o', 'r', 'd'];
    assert ' ' !in "word";
    SplitJoin(words, ' ');
    ChunkCount(text, 50, 10);
    var chunks := ChunkText(text, 50, 10);
    ChunkAt(text, 50, 10, 0, 0);
    ChunkAt(text, 50, 10, 1, 40);
    ChunkAt(text, 50, 10, 4, 160);
    assert IsWord("word");
    TokensOfJoin(words[0..50]);
    TokensOfJoin(words[40..90]);
    assert words[0..50][40..] == words[40..90][..10];
  }
}
