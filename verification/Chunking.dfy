/** How a file is cut into 1 MiB chunks: how many there are, where each one starts and how
    long it is (vendored-from-bore/transfer.rs:3435-3446).

    The chunk count is stored in 32 bits. `CoversIffFits` is the exact consequence: the chunks
    of a file reach every one of its bytes precisely when the file has at most 2^32 - 1 chunks. */
module Chunking {

  const CHUNK_SIZE: nat := 1024 * 1024
  const TWO_TO_THE_32: nat := 0x1_0000_0000

  /** The largest file whose chunk count survives the conversion to 32 bits. */
  const MAX_FILE_SIZE: nat := (TWO_TO_THE_32 - 1) * CHUNK_SIZE

  predicate Fits(size: nat) {
    size <= MAX_FILE_SIZE
  }

  /** `size.div_ceil(CHUNK_SIZE) as u32`: the conversion drops the high bits. */
  function ChunkCountFor(size: nat): (count: nat)
    ensures count < TWO_TO_THE_32
    ensures size == 0 ==> count == 0
  {
    if size == 0 then 0 else ((size + CHUNK_SIZE - 1) / CHUNK_SIZE) % TWO_TO_THE_32
  }

  function ChunkOffset(index: nat): nat {
    index * CHUNK_SIZE
  }

  /** `size.saturating_sub(offset).min(CHUNK_SIZE)` */
  function ChunkLen(size: nat, index: nat): (len: nat)
    ensures len <= CHUNK_SIZE
    ensures ChunkOffset(index) <= size ==> ChunkOffset(index) + len <= size
  {
    var left := if size >= ChunkOffset(index) then size - ChunkOffset(index) else 0;
    if left < CHUNK_SIZE then left else CHUNK_SIZE
  }

  /** Byte `k` of a file of `size` bytes belongs to chunk `index`. */
  predicate InChunk(size: nat, index: nat, k: nat) {
    ChunkOffset(index) <= k < ChunkOffset(index) + ChunkLen(size, index)
  }

  /** Every chunk below the count is non-empty and ends inside the file. */
  lemma ChunkInsideFile(size: nat, index: nat)
    requires index < ChunkCountFor(size)
    ensures 0 < ChunkLen(size, index)
    ensures ChunkOffset(index) + ChunkLen(size, index) <= size
  {
    var q := (size + CHUNK_SIZE - 1) / CHUNK_SIZE;
    assert ChunkCountFor(size) <= q;
    assert ChunkOffset(index) <= ChunkOffset(q - 1) < size;
  }

  /** A chunk holds exactly the bytes whose quotient by the chunk size is its index. */
  lemma InChunkIsQuotient(size: nat, index: nat, k: nat)
    requires k < size
    ensures InChunk(size, index, k) <==> index == k / CHUNK_SIZE
  {
    var q := k / CHUNK_SIZE;
    assert ChunkOffset(q) <= k < ChunkOffset(q) + CHUNK_SIZE;
    if index < q {
      assert ChunkOffset(index) + CHUNK_SIZE <= ChunkOffset(q);
    } else if q < index {
      assert ChunkOffset(q) + CHUNK_SIZE <= ChunkOffset(index);
    }
  }

  /** No byte belongs to two chunks. */
  lemma ChunksDisjoint(size: nat, i: nat, j: nat, k: nat)
    requires i != j
    ensures !(InChunk(size, i, k) && InChunk(size, j, k))
  {
    if k < size {
      InChunkIsQuotient(size, i, k);
      InChunkIsQuotient(size, j, k);
    }
  }

  ghost predicate Covered(size: nat, k: nat) {
    exists i: nat :: i < ChunkCountFor(size) && InChunk(size, i, k)
  }

  ghost predicate Covers(size: nat) {
    forall k: nat :: k < size ==> Covered(size, k)
  }

  lemma CountWhenFits(size: nat)
    requires Fits(size)
    ensures ChunkCountFor(size) == (size + CHUNK_SIZE - 1) / CHUNK_SIZE
    ensures forall k: nat :: k < size ==> k / CHUNK_SIZE < ChunkCountFor(size)
  {
    var q := (size + CHUNK_SIZE - 1) / CHUNK_SIZE;
    assert q < TWO_TO_THE_32;
    forall k: nat | k < size
      ensures k / CHUNK_SIZE < q
    {
      assert (k / CHUNK_SIZE) * CHUNK_SIZE <= k;
    }
  }

  /** Every byte of the file is in some chunk if and only if the count fits 32 bits. */
  lemma CoversIffFits(size: nat)
    ensures Covers(size) <==> Fits(size)
  {
    if Fits(size) {
      CountWhenFits(size);
      forall k: nat | k < size
        ensures Covered(size, k)
      {
        InChunkIsQuotient(size, k / CHUNK_SIZE, k);
        assert InChunk(size, k / CHUNK_SIZE, k);
      }
    } else {
      var k := size - 1;
      assert k / CHUNK_SIZE >= TWO_TO_THE_32 - 1;
      forall i: nat | i < ChunkCountFor(size)
        ensures !InChunk(size, i, k)
      {
        InChunkIsQuotient(size, i, k);
        LastChunkMissed(size);
      }
      assert !Covered(size, k);
    }
  }

  lemma LastChunkMissed(size: nat)
    requires !Fits(size)
    ensures ChunkCountFor(size) <= (size - 1) / CHUNK_SIZE
  {
    var q := (size + CHUNK_SIZE - 1) / CHUNK_SIZE;
    assert q >= TWO_TO_THE_32;
    assert ChunkCountFor(size) < TWO_TO_THE_32 <= q;
    assert (size - 1) / CHUNK_SIZE == q - 1;
  }

  /** The lengths of the first `n` chunks, added up. */
  function SumOfLens(size: nat, n: nat): nat {
    if n == 0 then 0 else SumOfLens(size, n - 1) + ChunkLen(size, n - 1)
  }

  /** The first `n` chunks amount to the first `n` MiB of the file. */
  lemma {:induction false} SumOfLensIsPrefix(size: nat, n: nat)
    ensures SumOfLens(size, n) == if n * CHUNK_SIZE < size then n * CHUNK_SIZE else size
  {
    if n > 0 {
      SumOfLensIsPrefix(size, n - 1);
    }
  }

  /** Conservation for one file: its chunks carry its bytes, no more and no fewer, exactly when
      the count fits. */
  lemma ChunksSumToSize(size: nat)
    ensures SumOfLens(size, ChunkCountFor(size)) == size <==> Fits(size)
  {
    SumOfLensIsPrefix(size, ChunkCountFor(size));
    if Fits(size) {
      CountWhenFits(size);
    } else {
      LastChunkMissed(size);
      assert ChunkCountFor(size) * CHUNK_SIZE <= size - 1;
    }
  }
}
