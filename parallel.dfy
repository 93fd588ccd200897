/**
 * The chunked, batched evaluation behind `MoleculeTable.papply`: the rows are cut into
 * contiguous chunks of `chunk_size`, the chunks into batches of `n_cpus`, every chunk is
 * evaluated separately and the per-chunk results are concatenated in chunk order.
 */
module ParallelApply {
  import opened Errors
  import opened Seqs

  /** `[s[i:i + size] for i in range(0, len(s), size)]` for a positive `size`. */
  function Chunks<T>(s: seq<T>, size: nat): (cs: seq<seq<T>>)
    requires size > 0
    ensures cs == [] <==> s == []
    ensures forall i :: 0 <= i < |cs| ==> 0 < |cs[i]| <= size
    ensures forall i :: 0 <= i < |cs| - 1 ==> |cs[i]| == size
    decreases |s|
  {
    if s == [] then []
    else if |s| <= size then [s]
    else [s[..size]] + Chunks(s[size..], size)
  }

  /** The chunks, concatenated in order, are the original rows. */
  lemma {:induction false} ChunksFlatten<T>(s: seq<T>, size: nat)
    requires size > 0
    ensures Flatten(Chunks(s, size)) == s
  {
    if s != [] && |s| > size {
      ChunksFlatten(s[size..], size);
      assert Chunks(s, size)[1..] == Chunks(s[size..], size);
      assert s == s[..size] + s[size..];
    }
  }

  /** There are exactly ⌈|s| / size⌉ chunks: the least count whose capacity holds every row. */
  lemma {:induction false} ChunksCount<T>(s: seq<T>, size: nat)
    requires size > 0
    ensures |Chunks(s, size)| * size - size < |s| <= |Chunks(s, size)| * size
  {
    if s != [] && |s| > size {
      var k := |Chunks(s[size..], size)|;
      ChunksCount(s[size..], size);
      assert |Chunks(s, size)| == k + 1;
      assert (k + 1) * size == k * size + size;
    }
  }

  /**
   * The pool's work: every chunk of every batch evaluated row by row, the chunk results
   * collected batch after batch, chunk after chunk.
   */
  method RunBatches<T, R>(batches: seq<seq<seq<T>>>, f: T -> R) returns (results: seq<seq<R>>)
    ensures results == Flatten(Map(batches, MapWith(MapWith(f))))
  {
    results := [];
    var b := 0;
    while b < |batches|
      invariant 0 <= b <= |batches|
      invariant results == Flatten(Map(batches[..b], MapWith(MapWith(f))))
    {
      var batch := batches[b];
      var j := 0;
      while j < |batch|
        invariant 0 <= j <= |batch|
        invariant results == Flatten(Map(batches[..b], MapWith(MapWith(f)))) + Map(batch[..j], MapWith(f))
      {
        assert batch[..j + 1] == batch[..j] + [batch[j]];
        MapAppend(batch[..j], batch[j], MapWith(f));
        results := results + [Map(batch[j], f)];
        j := j + 1;
      }
      assert batch[..j] == batch;
      assert batches[..b + 1] == batches[..b] + [batch];
      MapAppend(batches[..b], batch, MapWith(MapWith(f)));
      FlattenAppend(Map(batches[..b], MapWith(MapWith(f))), Map(batch, MapWith(f)));
      b := b + 1;
    }
    assert batches[..b] == batches;
  }

  /** There are as many chunk results as chunks. */
  lemma BatchResultsCount<T, R>(chunks: seq<seq<T>>, n: nat, f: T -> R)
    requires n > 0
    ensures Flatten(Map(Chunks(chunks, n), MapWith(MapWith(f)))) == Map(chunks, MapWith(f))
  {
    FlattenMap(Chunks(chunks, n), MapWith(f));
    ChunksFlatten(chunks, n);
  }

  /**
   * The value of `papply` once `n_cpus` is known: `range(0, n, 0)` raises, a pool of no
   * workers raises, and with no chunks at all `pd.concat([])` raises; otherwise the chunk
   * results, batch by batch and chunk by chunk, concatenated.
   */
  function ChunkedApply<T, R>(rows: seq<T>, f: T -> R, nCpus: int, chunkSize: int): Result<seq<R>> {
    if chunkSize == 0 then Err(ValueError(ZeroStep))
    else if nCpus <= 0 then Err(ValueError(NoWorkers))
    else if chunkSize < 0 || rows == [] then Err(ValueError(NothingToConcatenate))
    else Ok(Flatten(Flatten(Map(Chunks(Chunks(rows, chunkSize), nCpus), MapWith(MapWith(f))))))
  }

  /**
   * Chunked evaluation gives the same rows, in the same order, as evaluating every row in
   * one pass; it fails exactly on a zero or negative chunk size, no workers, or no rows.
   */
  lemma ChunkedApplyIsMap<T, R>(rows: seq<T>, f: T -> R, nCpus: int, chunkSize: int)
    ensures ChunkedApply(rows, f, nCpus, chunkSize).Ok? <==> chunkSize > 0 && nCpus > 0 && rows != []
    ensures ChunkedApply(rows, f, nCpus, chunkSize).Ok? ==> ChunkedApply(rows, f, nCpus, chunkSize).value == Map(rows, f)
    ensures ChunkedApply(rows, f, nCpus, chunkSize).Err? ==> ChunkedApply(rows, f, nCpus, chunkSize).error.ValueError?
  {
    if chunkSize > 0 && nCpus > 0 && rows != [] {
      var chunks := Chunks(rows, chunkSize);
      var batches := Chunks(chunks, nCpus);
      FlattenMap(batches, MapWith(f));
      ChunksFlatten(chunks, nCpus);
      FlattenMap(chunks, f);
      ChunksFlatten(rows, chunkSize);
    }
  }
}
