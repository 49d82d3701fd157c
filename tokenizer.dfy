/** src/hurag_webui/fts/tokenizer.py: the text normalisation used before
    indexing and querying, and the tokenisation of a corpus, either in one
    pass or in fixed-size chunks whose results are joined in chunk order.
    jieba's `cut_for_search` is the parameter `cut`, and `cpu_count()` the
    parameter `cpus`; the worker pool is not modelled, only which chunks
    it is handed and the order in which their results are joined. */
module Tokenizer {
  import opened Wrappers
  import opened Text

  type Tokens = seq<string>

  /** `cleanup`: `text.strip().lower()`. */
  function Cleanup(text: string): (r: string)
    ensures IsStripped(r) && |r| <= |text|
    ensures forall i :: 0 <= i < |r| ==> !('A' <= r[i] <= 'Z')
  {
    var s := Strip(text);
    StripSpec(text);
    if s == [] then Lower(s)
    else
      LowerKeepsSpace(s[0]);
      LowerKeepsSpace(s[|s| - 1]);
      Lower(s)
  }

  /** Cleaning twice is cleaning once, so indexing and querying may both
      clean the same text. */
  lemma CleanupIdempotent(text: string)
    ensures Cleanup(Cleanup(text)) == Cleanup(text)
  {
    var c := Cleanup(text);
    StripOfStripped(c);
    assert Strip(c) == c;
    assert Cleanup(c) == Lower(c);
    LowerIdempotent(Strip(text));
  }

  /** `tokenize(corpus)`: one token list per text, in corpus order. */
  function Tokenize(corpus: seq<string>, cut: string -> Tokens): seq<Tokens> {
    seq(|corpus|, i requires 0 <= i < |corpus| => cut(Cleanup(corpus[i])))
  }

  /** Python's `xs[i:j]`. */
  function Slice<T>(xs: seq<T>, i: int, j: int): (r: seq<T>)
    ensures 0 <= i <= j ==> r == xs[SliceIndex(i, |xs|)..SliceIndex(j, |xs|)]
  {
    var a := SliceIndex(i, |xs|);
    var b := SliceIndex(j, |xs|);
    if a <= b then xs[a..b] else []
  }

  /** `_tokenize_chunk((start, size, corpus))`. */
  function TokenizeChunk(start: int, size: int, corpus: seq<string>, cut: string -> Tokens): seq<Tokens> {
    Tokenize(Slice(corpus, start, start + size), cut)
  }

  /** Python's `a // b`, which rounds toward negative infinity. */
  function FloorDiv(a: int, b: int): int
    requires b != 0
  {
    if b > 0 then a / b else (-a) / (-b)
  }

  /** Python's `a % b`, which takes the sign of `b`. */
  function FloorMod(a: int, b: int): int
    requires b != 0
  {
    a - b * FloorDiv(a, b)
  }

  function Min(a: int, b: int): int {
    if a <= b then a else b
  }

  function Max(a: int, b: int): int {
    if a >= b then a else b
  }

  /** `len(corpus) // chunk_size + (len(corpus) % chunk_size != 0)`. */
  function ChunkCount(n: nat, chunkSize: int): int
    requires chunkSize != 0
  {
    FloorDiv(n, chunkSize) + (if FloorMod(n, chunkSize) != 0 then 1 else 0)
  }

  /** The `processes` handed to the pool. */
  function ProcessCount(cpus: int, n: nat, chunkSize: int): int
    requires chunkSize != 0
  {
    Min(Max(1, cpus - 1), ChunkCount(n, chunkSize))
  }

  /** The pool refuses fewer than one process. */
  const TooFewProcesses := ValueError("Number of processes must be at least 1")

  /** The results of the first `k` chunks, joined in chunk order. */
  function Chunked(corpus: seq<string>, chunkSize: nat, cut: string -> Tokens, k: nat): seq<Tokens> {
    if k == 0 then []
    else Chunked(corpus, chunkSize, cut, k - 1) + TokenizeChunk((k - 1) * chunkSize, chunkSize, corpus, cut)
  }

  /** `parallel_tokenize(corpus, chunk_size)`: `None` for an empty corpus,
      one pass for a corpus shorter than a chunk, the chunked tokenisation
      otherwise. A zero chunk size divides by zero, and a negative one
      asks the pool for no process. */
  function ParallelTokenized(corpus: seq<string>, chunkSize: int, cpus: int, cut: string -> Tokens)
    : Result<Option<seq<Tokens>>>
  {
    if corpus == [] then Ok(None)
    else if |corpus| < chunkSize then Ok(Some(Tokenize(corpus, cut)))
    else if chunkSize == 0 then Err(ZeroDivisionError)
    else if ProcessCount(cpus, |corpus|, chunkSize) < 1 then Err(TooFewProcesses)
    else Ok(Some(Chunked(corpus, chunkSize, cut, ChunkCount(|corpus|, chunkSize))))
  }

  /** `parallel_tokenize`, with the chunk generator and the loop that
      extends `result` with each chunk's tokens as they arrive. */
  method ParallelTokenize(corpus: seq<string>, chunkSize: int, cpus: int, cut: string -> Tokens)
    returns (r: Result<Option<seq<Tokens>>>)
    ensures r == ParallelTokenized(corpus, chunkSize, cpus, cut)
  {
    if corpus == [] {
      return Ok(None);
    }
    if |corpus| < chunkSize {
      return Ok(Some(Tokenize(corpus, cut)));
    }
    if chunkSize == 0 {
      return Err(ZeroDivisionError);
    }
    if chunkSize < 0 {
      NegativeChunkSizeRaises(corpus, chunkSize, cpus, cut);
    }
    var processes := ProcessCount(cpus, |corpus|, chunkSize);
    if processes < 1 {
      return Err(TooFewProcesses);
    }
    var count := ChunkCount(|corpus|, chunkSize);
    var result: seq<Tokens> := [];
    var k := 0;
    while k < count
      invariant 0 <= k <= count
      invariant result == Chunked(corpus, chunkSize, cut, k)
    {
      result := result + TokenizeChunk(k * chunkSize, chunkSize, corpus, cut);
      k := k + 1;
    }
    r := Ok(Some(result));
  }

  /** For a positive chunk size the count is the ceiling of `n / size`:
      the chunks before the last start inside the corpus and the last one
      reaches its end. */
  lemma ChunkCountSpec(n: nat, chunkSize: int)
    requires chunkSize > 0 && n > 0
    ensures ChunkCount(n, chunkSize) >= 1
    ensures (ChunkCount(n, chunkSize) - 1) * chunkSize < n <= ChunkCount(n, chunkSize) * chunkSize
  {
    var q := n / chunkSize;
    var m := n % chunkSize;
    assert n == q * chunkSize + m;
    if m != 0 {
      assert (q + 1) * chunkSize == q * chunkSize + chunkSize;
    } else {
      assert q >= 1;
      assert (q - 1) * chunkSize == q * chunkSize - chunkSize;
    }
  }

  /** A chunk starts inside the corpus exactly when it is one of the
      counted chunks. */
  lemma ChunkBefore(n: nat, chunkSize: int, k: nat)
    requires chunkSize > 0 && n > 0
    ensures k * chunkSize < n <==> k < ChunkCount(n, chunkSize)
  {
    var count := ChunkCount(n, chunkSize);
    ChunkCountSpec(n, chunkSize);
    if k < count {
      MulMonotone(k, count - 1, chunkSize);
    } else {
      MulMonotone(count, k, chunkSize);
    }
  }

  lemma MulMonotone(a: nat, b: nat, c: nat)
    requires a <= b
    ensures a * c <= b * c
  {
  }

  /** Tokenising two parts is tokenising their concatenation. */
  lemma TokenizeAppend(a: seq<string>, b: seq<string>, cut: string -> Tokens)
    ensures Tokenize(a, cut) + Tokenize(b, cut) == Tokenize(a + b, cut)
  {
  }

  /** The first `k` chunks tokenise the first `k * size` texts (or all of
      them), once each and in order. */
  lemma {:induction false} ChunkedPrefix(corpus: seq<string>, chunkSize: nat, cut: string -> Tokens, k: nat)
    requires chunkSize > 0
    ensures Chunked(corpus, chunkSize, cut, k) == Tokenize(corpus[..Min(k * chunkSize, |corpus|)], cut)
  {
    if k > 0 {
      ChunkedPrefix(corpus, chunkSize, cut, k - 1);
      var p := Min((k - 1) * chunkSize, |corpus|);
      var q := Min(k * chunkSize, |corpus|);
      assert (k - 1) * chunkSize + chunkSize == k * chunkSize;
      assert Slice(corpus, (k - 1) * chunkSize, (k - 1) * chunkSize + chunkSize) == corpus[p..q];
      TokenizeAppend(corpus[..p], corpus[p..q], cut);
      assert corpus[..p] + corpus[p..q] == corpus[..q];
    }
  }

  /** The chunked tokenisation is the one-pass tokenisation: one token
      list per text, aligned index by index with the corpus. */
  lemma ChunksCoverCorpus(corpus: seq<string>, chunkSize: nat, cut: string -> Tokens)
    requires chunkSize > 0 && corpus != []
    ensures Chunked(corpus, chunkSize, cut, ChunkCount(|corpus|, chunkSize)) == Tokenize(corpus, cut)
  {
    var count := ChunkCount(|corpus|, chunkSize);
    ChunkCountSpec(|corpus|, chunkSize);
    ChunkedPrefix(corpus, chunkSize, cut, count);
    assert corpus[..Min(count * chunkSize, |corpus|)] == corpus;
  }

  /** Chunk `k`, for each `k` whose start lies inside the corpus, holds
      the texts from `k * size` on: `size` of them, except the last
      counted chunk, which holds what is left and ends the corpus. */
  lemma ChunkBoundaries(corpus: seq<string>, chunkSize: nat, cut: string -> Tokens, k: nat)
    requires chunkSize > 0 && k * chunkSize < |corpus|
    ensures var start := k * chunkSize;
      var stop := Min(start + chunkSize, |corpus|);
      var count := ChunkCount(|corpus|, chunkSize);
      && k < count
      && TokenizeChunk(start, chunkSize, corpus, cut) == Tokenize(corpus[start..stop], cut)
      && (k < count - 1 ==> stop == start + chunkSize)
      && (k == count - 1 ==> stop == |corpus|)
  {
    ChunkBefore(|corpus|, chunkSize, k);
    ChunkBefore(|corpus|, chunkSize, k + 1);
    assert (k + 1) * chunkSize == k * chunkSize + chunkSize;
  }

  /** Whatever the chunk size, a non-empty corpus that the pool accepts is
      tokenised text by text, in order; an empty one gives `None`. */
  lemma ParallelTokenizeAligns(corpus: seq<string>, chunkSize: int, cpus: int, cut: string -> Tokens)
    ensures corpus == [] <==> ParallelTokenized(corpus, chunkSize, cpus, cut) == Ok(None)
    ensures chunkSize > 0 && corpus != [] ==> ParallelTokenized(corpus, chunkSize, cpus, cut) == Ok(Some(Tokenize(corpus, cut)))
  {
    if chunkSize > 0 && corpus != [] && |corpus| >= chunkSize {
      ChunkCountSpec(|corpus|, chunkSize);
      ChunksCoverCorpus(corpus, chunkSize, cut);
    }
  }

  /** A positive chunk size never leaves the pool without a process, and
      never starts more processes than there are chunks or than the CPUs
      less one (but at least one). */
  lemma ProcessCountBounds(cpus: int, n: nat, chunkSize: int)
    requires chunkSize > 0 && n > 0
    ensures 1 <= ProcessCount(cpus, n, chunkSize) <= ChunkCount(n, chunkSize)
    ensures ProcessCount(cpus, n, chunkSize) <= Max(1, cpus - 1)
  {
    ChunkCountSpec(n, chunkSize);
  }

  /** A negative chunk size passes the size test, and the floor division
      then leaves no process for the pool. */
  lemma NegativeChunkSizeRaises(corpus: seq<string>, chunkSize: int, cpus: int, cut: string -> Tokens)
    requires chunkSize < 0 && corpus != []
    ensures ParallelTokenized(corpus, chunkSize, cpus, cut) == Err(TooFewProcesses)
  {
    var n := |corpus|;
    var d := -chunkSize;
    assert FloorDiv(n, chunkSize) == (-n) / d;
    assert (-n) / d <= -1 by {
      assert -n == d * ((-n) / d) + (-n) % d;
    }
    assert ChunkCount(n, chunkSize) <= 0;
  }
}
