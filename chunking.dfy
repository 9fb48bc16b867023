/**
 * How the uploader cuts a file into fixed-size chunks and which chunk
 * requests a transfer issues (src/useUploaderLogic.js, lines 11, 764 and
 * 800-851).
 */
module Chunking {

  newtype byte = b: int | 0 <= b < 256

  /** A file picked by the user, or a blob restored from the blob store: its name and its bytes (`size` is `|data|`). */
  datatype File = File(name: string, data: seq<byte>)

  /** CHUNK_SIZE = 0.5 * 1024 * 1024 bytes. */
  const ChunkSize: nat := 524288

  function Min(a: int, b: int): int { if a <= b then a else b }

  function Max(a: int, b: int): int { if a <= b then b else a }

  /** `Math.ceil(size / CHUNK_SIZE)` for an integer size (Dafny's `/` by a positive divisor rounds down). */
  function CeilChunks(size: int): (n: int)
    ensures (n - 1) * ChunkSize < size <= n * ChunkSize
  {
    var q := (-size) / ChunkSize;
    assert -size == q * ChunkSize + (-size) % ChunkSize;
    -q
  }

  /** A non-negative size needs no chunks exactly when it is empty, and otherwise a positive number of them. */
  lemma CeilChunksOfSize(size: int)
    ensures size <= 0 ==> CeilChunks(size) <= 0
    ensures size > 0 ==> CeilChunks(size) > 0
    ensures size >= 0 ==> CeilChunks(size) >= 0 && (CeilChunks(size) == 0 <==> size == 0)
  {
  }

  /** First byte of chunk `i`. */
  function ChunkStart(i: int): int { i * ChunkSize }

  /** `Math.min(start + CHUNK_SIZE, size)`: one past the last byte of chunk `i`. */
  function ChunkEnd(i: int, size: int): int { Min(ChunkStart(i) + ChunkSize, size) }

  /** The offset `Blob.slice` uses for `x`: a negative one counts back from the end; both are clamped into `[0, len]`. */
  function SliceOffset(x: int, len: nat): (r: nat)
    ensures r <= len
    ensures 0 <= x <= len ==> r == x
  {
    if x < 0 then Max(len + x, 0) else Min(x, len)
  }

  /** `blob.slice(start, end)` as the File API defines it: an inverted range gives an empty blob. */
  function Slice(data: seq<byte>, start: int, end: int): (r: seq<byte>)
    ensures 0 <= start <= end <= |data| ==> r == data[start..end]
    ensures |r| <= |data|
  {
    var s := SliceOffset(start, |data|);
    var e := SliceOffset(end, |data|);
    if s < e then data[s..e] else []
  }

  /** The payload of chunk `i` of `data`: `slice(i * C, min(i * C + C, size))`. */
  function ChunkOf(data: seq<byte>, i: int): seq<byte>
  {
    Slice(data, ChunkStart(i), ChunkEnd(i, |data|))
  }

  /**
   * Chunks 0 .. CeilChunks(size) - 1 tile [0, size): every chunk is non-empty
   * and at most C bytes, each one ends where the next begins, the first
   * starts at 0 and the last ends at `size`.
   */
  lemma ChunkTiling(size: nat, i: nat)
    requires i < CeilChunks(size)
    ensures 0 <= ChunkStart(i) < ChunkEnd(i, size) <= size
    ensures ChunkEnd(i, size) - ChunkStart(i) <= ChunkSize
    ensures i == 0 ==> ChunkStart(i) == 0
    ensures i + 1 < CeilChunks(size) ==> ChunkEnd(i, size) == ChunkStart(i + 1)
    ensures i + 1 == CeilChunks(size) ==> ChunkEnd(i, size) == size
  {
    var n := CeilChunks(size);
    assert i * ChunkSize <= (n - 1) * ChunkSize;
    if i + 1 < n {
      assert (i + 1) * ChunkSize <= (n - 1) * ChunkSize;
    }
  }

  /** One chunk upload request: the `file`, `fileId` and `chunkIndex` fields of the form data. */
  datatype ChunkRequest = ChunkRequest(fileId: string, chunkIndex: int, payload: seq<byte>)

  /** The requests for chunks `lo`, `lo + 1`, ..., `hi - 1` of `data`, in the order the loop sends them. */
  function Requests(fileId: string, data: seq<byte>, lo: int, hi: int): seq<ChunkRequest>
    decreases Max(0, hi - lo)
  {
    if lo >= hi then [] else [ChunkRequest(fileId, lo, ChunkOf(data, lo))] + Requests(fileId, data, lo + 1, hi)
  }

  /** The run holds one request per chunk from `lo` below `hi`, the `j`-th for chunk `lo + j` carrying that chunk's bytes. */
  lemma {:induction false} RequestsElements(fileId: string, data: seq<byte>, lo: int, hi: int)
    decreases Max(0, hi - lo)
    ensures var r := Requests(fileId, data, lo, hi);
            && |r| == Max(0, hi - lo)
            && forall j :: 0 <= j < |r| ==> r[j] == ChunkRequest(fileId, lo + j, ChunkOf(data, lo + j))
  {
    if lo < hi {
      RequestsElements(fileId, data, lo + 1, hi);
      var rest := Requests(fileId, data, lo + 1, hi);
      var r := [ChunkRequest(fileId, lo, ChunkOf(data, lo))] + rest;
      assert Requests(fileId, data, lo, hi) == r;
      forall j | 1 <= j < |r|
        ensures r[j] == ChunkRequest(fileId, lo + j, ChunkOf(data, lo + j))
      {
        assert r[j] == rest[j - 1];
      }
    }
  }

  /** Issuing one more request extends the run by the request for chunk `hi`. */
  lemma {:induction false} RequestsSnoc(fileId: string, data: seq<byte>, lo: int, hi: int)
    requires lo <= hi
    decreases hi - lo
    ensures Requests(fileId, data, lo, hi + 1) == Requests(fileId, data, lo, hi) + [ChunkRequest(fileId, hi, ChunkOf(data, hi))]
  {
    var last := ChunkRequest(fileId, hi, ChunkOf(data, hi));
    if lo == hi {
      assert Requests(fileId, data, lo, hi + 1) == [last] + Requests(fileId, data, hi + 1, hi + 1);
    } else {
      var first := ChunkRequest(fileId, lo, ChunkOf(data, lo));
      RequestsSnoc(fileId, data, lo + 1, hi);
      calc {
        Requests(fileId, data, lo, hi + 1);
        [first] + Requests(fileId, data, lo + 1, hi + 1);
        [first] + (Requests(fileId, data, lo + 1, hi) + [last]);
        ([first] + Requests(fileId, data, lo + 1, hi)) + [last];
      }
    }
  }

  /** What the server receives, in order: the payloads of `reqs` put end to end. */
  function Joined(reqs: seq<ChunkRequest>): seq<byte>
  {
    if reqs == [] then [] else reqs[0].payload + Joined(reqs[1..])
  }

  /**
   * Sending chunks `from` up to the last one delivers exactly the bytes of
   * the file from chunk `from` on: for `from == 0`, the whole file, in order,
   * without gap or repetition.
   */
  lemma {:induction false} RequestsReassemble(fileId: string, data: seq<byte>, from: nat)
    requires from <= CeilChunks(|data|)
    ensures Joined(Requests(fileId, data, from, CeilChunks(|data|))) == data[Min(ChunkStart(from), |data|)..]
    decreases CeilChunks(|data|) - from
  {
    var n := CeilChunks(|data|);
    var rs := Requests(fileId, data, from, n);
    if from < n {
      ChunkTiling(|data|, from);
      var s, e := ChunkStart(from), ChunkEnd(from, |data|);
      assert rs == [ChunkRequest(fileId, from, ChunkOf(data, from))] + Requests(fileId, data, from + 1, n);
      assert ChunkOf(data, from) == data[s..e];
      RequestsReassemble(fileId, data, from + 1);
      assert e == Min(ChunkStart(from + 1), |data|);
      assert Joined(rs) == data[s..e] + data[e..];
      assert data[s..e] + data[e..] == data[s..];
    }
  }
}
