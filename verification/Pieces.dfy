/** How a file is cut into pieces, and which offsets still fit 32 bits
    (client/src/file_handler.rs, the parts that are arithmetic). */
module Pieces {
  import opened Base

  datatype InfoHash = InfoHash(name: string, fileLength: u64, pieceLength: u32, pieces: seq<seq<u8>>)

  function PieceLength(length: u64): (pl: u32)
    ensures pl >= 65_536 && pl <= 1_048_576
  {
    if length <= 67_108_864 then 65_536
    else if length <= 536_870_912 then 262_144
    else if length <= 1_073_741_824 then 524_288
    else 1_048_576
  }

  /** ceil(length / pl) */
  function PieceCount(length: nat, pl: nat): nat
    requires pl > 0
  {
    (length + pl - 1) / pl
  }

  /** Where piece `i` starts, by repeated addition: this keeps products out of the proofs. */
  function Offset(pl: nat, i: nat): nat {
    if i == 0 then 0 else Offset(pl, i - 1) + pl
  }

  lemma {:induction false} OffsetIsProduct(pl: nat, i: nat)
    ensures Offset(pl, i) == i * pl == pl * i
  {
    if i > 0 {
      OffsetIsProduct(pl, i - 1);
      assert i * pl == (i - 1) * pl + pl;
    }
  }

  /** Pieces with different indices are at least one piece length apart. */
  lemma {:induction false} OffsetsApart(pl: nat, i: nat, j: nat)
    ensures i < j ==> Offset(pl, i) + pl <= Offset(pl, j)
    ensures j < i ==> Offset(pl, j) + pl <= Offset(pl, i)
  {
    if i < j {
      OffsetsApart(pl, i, j - 1);
    } else if j < i {
      OffsetsApart(pl, i - 1, j);
    }
  }

  /** Piece `i` of the file; nothing beyond its end. */
  function Chunk(data: seq<u8>, pl: nat, i: nat): (c: seq<u8>)
    ensures Offset(pl, i) <= |data| ==> |c| == Min(pl, |data| - Offset(pl, i))
    ensures forall j :: 0 <= j < |c| ==> Offset(pl, i) + j < |data| && c[j] == data[Offset(pl, i) + j]
  {
    data[Min(Offset(pl, i), |data|)..Min(Offset(pl, i) + pl, |data|)]
  }

  /** An index is below the piece count exactly when its offset lies inside the file. */
  lemma IndexInRange(length: nat, pl: nat, i: nat)
    requires pl > 0
    ensures i < PieceCount(length, pl) <==> Offset(pl, i) < length
  {
    var n := PieceCount(length, pl);
    DivBounds(length + pl - 1, pl);
    OffsetIsProduct(pl, n);
    OffsetsApart(pl, i, n);
  }

  lemma DivBounds(x: nat, d: nat)
    requires d > 0
    ensures (x / d) * d <= x < (x / d) * d + d
  {
  }

  /** The last piece starts inside the file, is not empty and is no longer than the others,
      so the subtraction that computes its length never underflows; all other pieces are full. */
  lemma PieceLengths(length: nat, pl: nat, i: nat)
    requires pl > 0 && i < PieceCount(length, pl)
    ensures Offset(pl, i) < length
    ensures i + 1 < PieceCount(length, pl) ==> Offset(pl, i) + pl < length
    ensures i + 1 == PieceCount(length, pl) ==> 0 < length - pl * i <= pl && pl * i == Offset(pl, i)
  {
    IndexInRange(length, pl, i);
    IndexInRange(length, pl, i + 1);
    OffsetIsProduct(pl, i);
  }

  /** With the program's own piece length, every piece offset of a non-empty file fits 32 bits
      exactly when the file is at most 4 GiB long. */
  lemma OffsetsFit(length: u64)
    requires length > 0
    ensures (forall i: nat :: i < PieceCount(length, PieceLength(length)) ==> Offset(PieceLength(length), i) < U32_SIZE)
            <==> length <= U32_SIZE
  {
    var pl := PieceLength(length);
    if length <= U32_SIZE {
      forall i: nat | i < PieceCount(length, pl) ensures Offset(pl, i) < U32_SIZE {
        IndexInRange(length, pl, i);
      }
    } else {
      OffsetIsProduct(pl, 4096);
      IndexInRange(length, pl, 4096);
      assert 4096 < PieceCount(length, pl) && !(Offset(pl, 4096) < U32_SIZE);
    }
  }

  /** How long a file with at most so many pieces can be, for each of the four sizes of files. */
  predicate FewPieces(length: nat, limit: nat) {
    || (length <= 67_108_864 && length <= limit * 65_536)
    || (67_108_864 < length <= 536_870_912 && length <= limit * 262_144)
    || (536_870_912 < length <= 1_073_741_824 && length <= limit * 524_288)
    || (1_073_741_824 < length <= limit * 1_048_576)
  }

  lemma FewPiecesIff(length: u64, limit: nat)
    ensures PieceCount(length, PieceLength(length)) <= limit <==> FewPieces(length, limit)
  {
    hide Offset;
    var pl := PieceLength(length);
    IndexInRange(length, pl, limit);
    OffsetIsProduct(pl, limit);
  }

  /** For a few hundred pieces: small files, and those just above 64 MiB, where pieces get longer. */
  lemma FewPiecesAre(length: u64, limit: nat)
    requires 256 <= limit <= 1024
    ensures FewPieces(length, limit) <==> length <= limit * 65_536 || 67_108_864 < length <= limit * 262_144
  {
  }

  /** Up to 4 GiB a piece is longer than there are pieces. */
  lemma MoreBytesThanPieces(length: u64)
    requires length <= U32_SIZE
    ensures PieceCount(length, PieceLength(length)) <= PieceLength(length)
  {
  }

  function Chunks(data: seq<u8>, pl: nat): (cs: seq<seq<u8>>)
    requires pl > 0
    ensures |cs| == PieceCount(|data|, pl)
    ensures forall i :: 0 <= i < |cs| ==> cs[i] == Chunk(data, pl, i)
  {
    seq(PieceCount(|data|, pl), i requires i >= 0 => Chunk(data, pl, i))
  }

  function Concat(parts: seq<seq<u8>>): seq<u8> {
    if parts == [] then [] else Concat(parts[..|parts| - 1]) + parts[|parts| - 1]
  }

  lemma PrefixGrows(data: seq<u8>, pl: nat, k: nat)
    ensures data[..Min(Offset(pl, k + 1), |data|)] == data[..Min(Offset(pl, k), |data|)] + Chunk(data, pl, k)
  {
    var lo, hi := Min(Offset(pl, k), |data|), Min(Offset(pl, k + 1), |data|);
    assert data[..hi] == data[..lo] + data[lo..hi];
  }

  /** The first `k` chunks in index order are the first `k * pl` bytes of the file. */
  lemma {:induction false} ChunksPrefix(data: seq<u8>, pl: nat, k: nat)
    requires pl > 0 && k <= PieceCount(|data|, pl)
    ensures Concat(Chunks(data, pl)[..k]) == data[..Min(Offset(pl, k), |data|)]
  {
    var cs := Chunks(data, pl);
    if k == 0 {
      assert cs[..0] == [];
    } else {
      ChunksPrefix(data, pl, k - 1);
      assert cs[..k][..k - 1] == cs[..k - 1];
      PrefixGrows(data, pl, k - 1);
    }
  }

  /** All chunks in index order are the file. */
  lemma ChunksConcat(data: seq<u8>, pl: nat)
    requires pl > 0
    ensures Concat(Chunks(data, pl)) == data
  {
    var n := PieceCount(|data|, pl);
    ChunksPrefix(data, pl, n);
    IndexInRange(|data|, pl, n);
    assert Chunks(data, pl)[..n] == Chunks(data, pl);
    assert data[..|data|] == data;
  }

  /** Reading one piece of a file: the last index has the tail's length, the offset is a 32-bit product. */
  function PieceRead(info: InfoHash, content: seq<u8>, index: u32): Outcome<seq<u8>> {
    var n := |info.pieces|;
    var length := if n - 1 == index then info.fileLength - info.pieceLength * (n - 1) else info.pieceLength;
    var offset := Wrap32(info.pieceLength * index);
    if length < 0 then Panic
    else if length == 0 then Ok([])
    else if offset + length <= |content| then Ok(content[offset..offset + length])
    else Error
  }

  /** The info hash describes this content with the program's own piece length. */
  predicate Describes(info: InfoHash, content: seq<u8>) {
    && |content| < 0x1_0000_0000_0000_0000
    && info.fileLength == |content|
    && info.pieceLength == PieceLength(|content|)
    && |info.pieces| == PieceCount(|content|, info.pieceLength)
  }

  /** Up to 4 GiB every piece read is the chunk with that index. */
  lemma ReadIsChunk(info: InfoHash, content: seq<u8>, index: u32)
    requires Describes(info, content) && index < |info.pieces| && |content| <= U32_SIZE
    ensures PieceRead(info, content, index) == Ok(Chunk(content, info.pieceLength, index))
  {
    PieceLengths(|content|, info.pieceLength, index);
    OffsetIsProduct(info.pieceLength, index);
  }

  /** The reads deliver the chunks of every file of a given length exactly when that length is at most 4 GiB:
      beyond, index 4096 wraps around and returns the file's first piece. */
  lemma ReadsCorrectIff(length: u64, pieces: seq<seq<u8>>, name: string)
    requires |pieces| == PieceCount(length, PieceLength(length))
    ensures
      var info := InfoHash(name, length, PieceLength(length), pieces);
      (forall content: seq<u8>, index: u32 ::
        |content| == length && index < |pieces|
        ==> PieceRead(info, content, index) == Ok(Chunk(content, info.pieceLength, index)))
      <==> length <= U32_SIZE
  {
    var info := InfoHash(name, length, PieceLength(length), pieces);
    if length <= U32_SIZE {
      forall content: seq<u8>, index: u32
        | |content| == length && index < |pieces|
        ensures PieceRead(info, content, index) == Ok(Chunk(content, info.pieceLength, index))
      {
        ReadIsChunk(info, content, index);
      }
    } else {
      var content: seq<u8> := seq(length, i => if i == U32_SIZE then 1 else 0);
      IndexInRange(length, info.pieceLength, 4096);
      OffsetIsProduct(info.pieceLength, 4096);
      var index: u32 := 4096;
      var chunk := Chunk(content, info.pieceLength, index);
      assert chunk[0] == 1;
      var read := PieceRead(info, content, index);
      assert Wrap32(info.pieceLength * index) == 0;
      PieceLengths(length, info.pieceLength, index);
      if read.Ok? {
        assert |read.value| > 0 && read.value[0] == 0;
      }
    }
  }
}
