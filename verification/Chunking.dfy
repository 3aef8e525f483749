/** Cutting content into chunks of a fixed size, the last one possibly shorter. */
module Chunking {
  import opened Wire

  /** The number of chunks of size c that cover size bytes. */
  function NumChunks(size: nat, c: nat): nat
    requires 0 < c
  {
    if size == 0 then 0 else if size <= c then 1 else 1 + NumChunks(size - c, c)
  }

  /** The number of bytes in chunk i of content with the given size. */
  function ChunkLen(size: nat, c: nat, i: nat): nat
    requires i * c <= size
  {
    if size - i * c < c then size - i * c else c
  }

  /** The number of content bytes in the first k chunks. */
  function Covered(size: nat, c: nat, k: nat): (r: nat)
    ensures r <= size
  {
    if k * c < size then k * c else size
  }

  function Slice(data: seq<Byte>, c: nat, i: nat): (r: seq<Byte>)
    requires i * c <= |data|
    ensures |r| == ChunkLen(|data|, c, i)
  {
    data[i * c..i * c + ChunkLen(|data|, c, i)]
  }

  function Flatten(chunks: seq<seq<Byte>>): seq<Byte> {
    if chunks == [] then [] else Flatten(chunks[..|chunks| - 1]) + chunks[|chunks| - 1]
  }

  /** A started chunk has a number no larger than its position. */
  lemma Positions(k: nat, c: nat)
    requires 0 < c
    ensures k <= k * c
  {}

  /** Chunk i exists exactly when it starts before the end of the content. */
  lemma {:induction false} ChunkExists(size: nat, c: nat, i: nat)
    requires 0 < c
    ensures i < NumChunks(size, c) <==> i * c < size
    decreases i
  {
    if i == 0 || size <= c {
      if i > 0 { assert i * c >= c; }
    } else {
      ChunkExists(size - c, c, i - 1);
      assert (i - 1) * c == i * c - c;
    }
  }

  /** A started chunk has a number below the size, and ends within the content. */
  lemma ChunkBounds(size: nat, c: nat, k: nat)
    requires 0 < c && k * c < size
    ensures k < size && k * c + ChunkLen(size, c, k) <= size && 0 < ChunkLen(size, c, k) <= c
  {
    Positions(k, c);
  }

  /** The last chunk, and only the last one, reaches the end of the content. */
  lemma {:induction false} LastChunk(size: nat, c: nat, i: nat)
    requires 0 < c && i * c < size
    ensures i * c + ChunkLen(size, c, i) == size <==> i + 1 == NumChunks(size, c)
    ensures i * c + ChunkLen(size, c, i) == Covered(size, c, i + 1)
    ensures 0 < ChunkLen(size, c, i) <= c
  {
    ChunkExists(size, c, i);
    ChunkExists(size, c, i + 1);
    assert (i + 1) * c == i * c + c;
  }

  /** The chunk count is the size divided by the chunk size, rounded up. */
  lemma {:induction false} NumChunksIsCeiling(size: nat, c: nat)
    requires 0 < c
    ensures (NumChunks(size, c) - 1) * c < size <= NumChunks(size, c) * c || (size == 0 && NumChunks(size, c) == 0)
  {
    var n := NumChunks(size, c);
    ChunkExists(size, c, n);
    if n > 0 { ChunkExists(size, c, n - 1); }
  }

  lemma {:induction false} NumChunksMonotone(a: nat, b: nat, c: nat)
    requires 0 < c && a <= b
    ensures NumChunks(a, c) <= NumChunks(b, c)
  {
    if NumChunks(b, c) < NumChunks(a, c) {
      ChunkExists(a, c, NumChunks(b, c));
      ChunkExists(b, c, NumChunks(b, c));
    }
  }

  /** The first k chunks of some content, joined, are its first bytes; all of them are all of it. */
  lemma {:induction false} FlattenSlices(data: seq<Byte>, c: nat, chunks: seq<seq<Byte>>)
    requires 0 < c && |chunks| <= NumChunks(|data|, c)
    requires forall i :: 0 <= i < |chunks| ==> i * c < |data| && chunks[i] == Slice(data, c, i)
    ensures Flatten(chunks) == data[..Covered(|data|, c, |chunks|)]
    ensures |chunks| == NumChunks(|data|, c) ==> Flatten(chunks) == data
  {
    if chunks != [] {
      var k := |chunks| - 1;
      FlattenSlices(data, c, chunks[..k]);
      assert k * c < |data| && chunks[k] == Slice(data, c, k);
      LastChunk(|data|, c, k);
      assert Covered(|data|, c, k) == k * c;
    }
    ChunkExists(|data|, c, |chunks|);
  }

  /** Chunks of the right lengths carry as many bytes as they cover. */
  lemma {:induction false} FlattenLength(size: nat, c: nat, chunks: seq<seq<Byte>>)
    requires 0 < c && |chunks| <= NumChunks(size, c)
    requires forall i :: 0 <= i < |chunks| ==> i * c < size && |chunks[i]| == ChunkLen(size, c, i)
    ensures |Flatten(chunks)| == Covered(size, c, |chunks|)
    ensures |Flatten(chunks)| == size <==> |chunks| == NumChunks(size, c)
  {
    if chunks != [] {
      var k := |chunks| - 1;
      FlattenLength(size, c, chunks[..k]);
      assert k * c < size && |chunks[k]| == ChunkLen(size, c, k);
      LastChunk(size, c, k);
    }
    ChunkExists(size, c, |chunks|);
  }
}
