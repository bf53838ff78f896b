/**
 * The arithmetic of the client's chunked upload: how many 1 GiB chunks a
 * file of `size` bytes has, and which byte range each covers
 * (`start = i * CHUNK_SIZE`, `end = Math.min(start + CHUNK_SIZE, file.size)`).
 * Sizes are exact integers; the division by a power of two that
 * `Math.ceil(file.size / CHUNK_SIZE)` performs is exact in double precision.
 */
module ChunkPlanner {
  import opened Basics

  const CHUNK_SIZE: nat := 1073741824

  /** `Math.ceil(size / CHUNK_SIZE)`: the least n with n * CHUNK_SIZE >= size. */
  function TotalChunks(size: nat): (n: nat)
    ensures n * CHUNK_SIZE >= size
    ensures n > 0 ==> (n - 1) * CHUNK_SIZE < size
    ensures n == 0 <==> size == 0
  {
    (size + CHUNK_SIZE - 1) / CHUNK_SIZE
  }

  function ChunkStart(i: nat): nat {
    i * CHUNK_SIZE
  }

  function ChunkEnd(i: nat, size: nat): nat {
    if ChunkStart(i) + CHUNK_SIZE <= size then ChunkStart(i) + CHUNK_SIZE else size
  }

  /** Each planned range is a non-empty range of at most CHUNK_SIZE bytes inside the file;
      the first starts at 0, each starts where the previous ended, and the last ends at `size`. */
  lemma ChunkRange(size: nat, i: nat)
    requires i < TotalChunks(size)
    ensures ChunkStart(i) < ChunkEnd(i, size) <= size
    ensures ChunkEnd(i, size) - ChunkStart(i) <= CHUNK_SIZE
    ensures i == 0 ==> ChunkStart(i) == 0
    ensures i + 1 < TotalChunks(size) ==> ChunkEnd(i, size) == ChunkStart(i + 1) && ChunkEnd(i, size) - ChunkStart(i) == CHUNK_SIZE
    ensures i + 1 == TotalChunks(size) ==> ChunkEnd(i, size) == size
  {
  }

  /** Ranges of different chunks do not overlap. */
  lemma ChunksDisjoint(size: nat, i: nat, j: nat)
    requires i < j < TotalChunks(size)
    ensures ChunkEnd(i, size) <= ChunkStart(j)
  {
  }

  /** Every byte of the file lies in exactly one planned range, the one with index `p / CHUNK_SIZE`. */
  lemma ChunksCover(size: nat, p: nat)
    requires p < size
    ensures var i := p / CHUNK_SIZE;
      i < TotalChunks(size) && ChunkStart(i) <= p < ChunkEnd(i, size)
    ensures forall j :: 0 <= j < TotalChunks(size) && ChunkStart(j) <= p < ChunkEnd(j, size) ==> j == p / CHUNK_SIZE
  {
  }

  /** `file.slice(start, end)` for every chunk, in index order. */
  function Slices(data: seq<byte>): (ss: seq<seq<byte>>)
    ensures |ss| == TotalChunks(|data|)
  {
    var n := TotalChunks(|data|);
    seq(n, i requires 0 <= i < n => ChunkRangeIn(data, i))
  }

  function ChunkRangeIn(data: seq<byte>, i: nat): seq<byte>
    requires i < TotalChunks(|data|)
  {
    ChunkRange(|data|, i);
    data[ChunkStart(i)..ChunkEnd(i, |data|)]
  }

  /** The first k slices, concatenated, are the file's first min(k * CHUNK_SIZE, size) bytes. */
  lemma {:induction false} SlicesPrefix(data: seq<byte>, k: nat)
    requires k <= TotalChunks(|data|)
    ensures Concat(Slices(data)[..k]) == data[..Min(ChunkStart(k), |data|)]
  {
    var ss := Slices(data);
    if k > 0 {
      SlicesPrefix(data, k - 1);
      ChunkRange(|data|, k - 1);
      assert ss[..k][..k - 1] == ss[..k - 1];
      var s, e := ChunkStart(k - 1), ChunkEnd(k - 1, |data|);
      assert ss[k - 1] == data[s..e];
      assert Min(s, |data|) == s;
      assert e == Min(ChunkStart(k), |data|);
      assert data[..e] == data[..s] + data[s..e] by {
        assert data[..e][..s] == data[..s];
        assert data[..e][s..] == data[s..e];
      }
    }
  }

  /** Concatenating the slices in index order gives back the file exactly. */
  lemma SlicesReassemble(data: seq<byte>)
    ensures Concat(Slices(data)) == data
  {
    var n := TotalChunks(|data|);
    SlicesPrefix(data, n);
    assert Slices(data)[..n] == Slices(data);
  }
}
