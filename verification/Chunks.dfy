/** The chunk list of a manifest, and the comparison of a re-encrypted plaintext with it. */
module Chunks {
  import opened IdealCrypto

  const CHUNK_BYTES: int := 4 * 1024 * 1024
  const I32_MAX: int := 0x7FFF_FFFF

  datatype Chunk = Chunk(ordinal: int, offset: int, length: int, digest: Digest)

  function Count(p: Bytes): nat { (|p| + CHUNK_BYTES - 1) / CHUNK_BYTES }

  function EndOfChunk(p: Bytes, i: nat): nat { if (i + 1) * CHUNK_BYTES <= |p| then (i + 1) * CHUNK_BYTES else |p| }

  function ChunkAt(p: Bytes, i: nat): Chunk
    requires i < Count(p)
  {
    Chunk(i, i * CHUNK_BYTES, EndOfChunk(p, i) - i * CHUNK_BYTES, Digest(p[i * CHUNK_BYTES..EndOfChunk(p, i)]))
  }

  // Pieces of four mebibytes, the last one what is left over.
  function ChunksOf(p: Bytes): (chunks: seq<Chunk>)
    ensures |chunks| == Count(p)
  {
    seq(Count(p), i requires 0 <= i < Count(p) => ChunkAt(p, i))
  }

  // The chunk rows as the database keeps them. Ordinals are clamped to 32 bits, and of two rows with
  // the same ordinal the second is not inserted.
  function Stored(chunks: seq<Chunk>): seq<Chunk> {
    if |chunks| <= I32_MAX + 1 then chunks else chunks[..I32_MAX + 1]
  }

  function Clamp(i: int): int { if i <= I32_MAX then i else I32_MAX }

  // ----- Contiguous lists -----

  function End(rows: seq<Chunk>): int { if rows == [] then 0 else End(rows[..|rows| - 1]) + rows[|rows| - 1].length }

  predicate Covers(row: Chunk, offset: int, p: Bytes) {
    && 0 <= row.offset == offset && 0 < row.length && offset + row.length <= |p|
    && Digest(p[offset..offset + row.length]) == row.digest
  }

  predicate RowOk(rows: seq<Chunk>, canonical: seq<Chunk>, p: Bytes, i: nat)
    requires i < |rows| == |canonical|
  {
    rows[i].ordinal == Clamp(i) && canonical[i] == rows[i] && Covers(rows[i], End(rows[..i]), p)
  }

  // The rows are the canonical list and cut the plaintext into consecutive, non-empty, matching pieces.
  predicate Matches(rows: seq<Chunk>, canonical: seq<Chunk>, p: Bytes) {
    && |rows| == |canonical|
    && (forall i | 0 <= i < |rows| :: RowOk(rows, canonical, p, i))
    && End(rows) == |p|
  }

  method VerifyManifestChunks(rows: seq<Chunk>, canonical: seq<Chunk>, plaintext: Bytes) returns (ok: bool)
    ensures ok <==> Matches(rows, canonical, plaintext)
  {
    if |rows| != |canonical| {
      return false;
    }
    var expected, i := 0, 0;
    while i < |rows|
      invariant 0 <= i <= |rows| && expected == End(rows[..i]) && 0 <= expected <= |plaintext|
      invariant forall j | 0 <= j < i :: RowOk(rows, canonical, plaintext, j)
    {
      var row := rows[i];
      assert rows[..i + 1][..i] == rows[..i];
      if row.offset < 0 || row.length < 0 || row.offset + row.length > |plaintext| {
        assert !RowOk(rows, canonical, plaintext, i);
        return false;
      }
      if row.ordinal != Clamp(i) || row.offset != expected || row.length == 0
         || Digest(plaintext[row.offset..row.offset + row.length]) != row.digest || canonical[i] != row {
        assert !RowOk(rows, canonical, plaintext, i);
        return false;
      }
      expected := row.offset + row.length;
      i := i + 1;
    }
    assert rows[..i] == rows;
    assert rows != [] ==> RowOk(rows, canonical, plaintext, 0) && rows[..0] == [];
    return expected == |plaintext| && !(plaintext == [] && rows != []);
  }

  // ----- The list of a plaintext -----

  // Piece `i` is not empty, the pieces cover everything, and position `j` lies in piece `j / CHUNK_BYTES`.
  lemma Arithmetic(length: nat, i: nat, j: nat)
    ensures i < (length + CHUNK_BYTES - 1) / CHUNK_BYTES ==> i * CHUNK_BYTES < length
    ensures length <= (length + CHUNK_BYTES - 1) / CHUNK_BYTES * CHUNK_BYTES
    ensures j / CHUNK_BYTES * CHUNK_BYTES <= j < (j / CHUNK_BYTES + 1) * CHUNK_BYTES
    ensures j < length ==> j / CHUNK_BYTES < (length + CHUNK_BYTES - 1) / CHUNK_BYTES
  {
  }

  lemma {:induction false} EndOfPrefix(p: Bytes, n: nat)
    requires n <= Count(p)
    ensures End(ChunksOf(p)[..n]) == if n * CHUNK_BYTES <= |p| then n * CHUNK_BYTES else |p|
  {
    if n > 0 {
      EndOfPrefix(p, n - 1);
      assert ChunksOf(p)[..n][..n - 1] == ChunksOf(p)[..n - 1];
    }
  }

  // Chunk `i` of `q` covers `p` exactly when the two agree on that piece.
  lemma ChunkCovers(p: Bytes, q: Bytes, i: nat)
    requires i < Count(q) && |p| == |q|
    ensures 0 <= i * CHUNK_BYTES < EndOfChunk(q, i) <= |q|
    ensures Covers(ChunkAt(q, i), i * CHUNK_BYTES, p) <==>
            p[i * CHUNK_BYTES..EndOfChunk(q, i)] == q[i * CHUNK_BYTES..EndOfChunk(q, i)]
  {
    Arithmetic(|q|, i, 0);
  }

  lemma ChunkOffset(q: Bytes, i: nat)
    requires i < Count(q)
    ensures End(ChunksOf(q)[..i]) == i * CHUNK_BYTES
  {
    Arithmetic(|q|, i, 0);
    EndOfPrefix(q, i);
  }

  lemma WholeLength(q: Bytes)
    ensures End(ChunksOf(q)) == |q|
  {
    Arithmetic(|q|, 0, 0);
    EndOfPrefix(q, Count(q));
    assert ChunksOf(q)[..Count(q)] == ChunksOf(q);
  }

  /** The chunk list is an exact, contiguous partition of the plaintext, empty and exact multiples included. */
  lemma ListMatchesItsPlaintext(p: Bytes)
    requires Count(p) <= I32_MAX + 1
    ensures Matches(ChunksOf(p), ChunksOf(p), p)
  {
    var chunks := ChunksOf(p);
    forall i | 0 <= i < |chunks| ensures RowOk(chunks, chunks, p, i) {
      ChunkOffset(p, i);
      ChunkCovers(p, p, i);
      assert chunks[i] == ChunkAt(p, i);
    }
    WholeLength(p);
  }

  lemma SliceAt(p: Bytes, q: Bytes, a: int, b: int, j: int)
    requires 0 <= a <= j < b <= |p| && b <= |q| && p[a..b] == q[a..b]
    ensures p[j] == q[j]
  {
    assert p[j] == p[a..b][j - a] && q[j] == q[a..b][j - a];
  }

  lemma SameAt(p: Bytes, q: Bytes, j: nat)
    requires Matches(ChunksOf(q), ChunksOf(q), p) && |p| == |q| && j < |q|
    ensures p[j] == q[j]
  {
    var chunks, i := ChunksOf(q), j / CHUNK_BYTES;
    Arithmetic(|q|, 0, j);
    assert RowOk(chunks, chunks, p, i) && chunks[i] == ChunkAt(q, i);
    ChunkOffset(q, i);
    ChunkCovers(p, q, i);
    SliceAt(p, q, i * CHUNK_BYTES, EndOfChunk(q, i), j);
  }

  lemma MatchingIsSame(p: Bytes, q: Bytes)
    requires Matches(ChunksOf(q), ChunksOf(q), p)
    ensures p == q
  {
    WholeLength(q);
    forall j | 0 <= j < |q| ensures p[j] == q[j] { SameAt(p, q, j); }
  }

  /** The re-encryption check accepts a plaintext against the stored chunk list of an original exactly when it
      is that original, for every length up to two to the thirty-first chunks, beyond which the stored list is
      cut short and the check accepts nothing. */
  lemma AcceptsIffSame(p: Bytes, original: Bytes)
    ensures Matches(Stored(ChunksOf(original)), ChunksOf(original), p) <==>
              p == original && Count(original) <= I32_MAX + 1
  {
    if Count(original) <= I32_MAX + 1 {
      ListMatchesItsPlaintext(original);
      if Matches(ChunksOf(original), ChunksOf(original), p) { MatchingIsSame(p, original); }
    }
  }
}
