/** Hashing a file piece by piece through a reader that may return fewer bytes than asked for
    (client/src/file_handler.rs, `get_piece_hashes`). */
module Chunker {
  import opened Base
  import opened Pieces

  /** A file being read. How many bytes each call delivers is up to the operating system: `choice` is any
      function of the number of calls made so far. */
  class Reader {
    const data: seq<u8>
    const choice: nat -> nat
    var pos: nat
    var calls: nat

    constructor (data: seq<u8>, choice: nat -> nat)
      ensures this.data == data && pos == 0
    {
      this.data, this.choice := data, choice;
      pos, calls := 0, 0;
    }

    /** Fills a prefix of `buf[lo..hi]`; delivers nothing only at the end of the file or for an empty range. */
    method Read(buf: array<u8>, lo: nat, hi: nat) returns (n: nat)
      requires lo <= hi <= buf.Length && pos <= |data|
      modifies this`pos, this`calls, buf
      ensures pos == old(pos) + n <= |data| && n <= hi - lo
      ensures n == 0 <==> old(pos) == |data| || lo == hi
      ensures buf[..] == old(buf[..lo]) + data[old(pos)..pos] + old(buf[lo + n..])
    {
      n := Min(Max(1, choice(calls)), Min(hi - lo, |data| - pos));
      forall i | lo <= i < lo + n {
        buf[i] := data[pos + i - lo];
      }
      pos, calls := pos + n, calls + 1;
    }
  }

  /** What the buffer holds when piece `i` is hashed: the piece, and behind a short last piece whatever
      the previous piece, or the zeroed allocation, left there. */
  function HashedBuffer(data: seq<u8>, pl: nat, i: nat): seq<u8> {
    var before := if i == 0 then Zeros(pl) else Chunk(data, pl, i - 1);
    Chunk(data, pl, i) + before[Min(|Chunk(data, pl, i)|, |before|)..]
  }

  /** A full piece is hashed exactly. */
  lemma FullPieceHashed(data: seq<u8>, pl: nat, i: nat)
    requires pl > 0 && i < PieceCount(|data|, pl)
    ensures |HashedBuffer(data, pl, i)| == pl
    ensures |Chunk(data, pl, i)| == pl ==> HashedBuffer(data, pl, i) == Chunk(data, pl, i)
  {
    PieceLengths(|data|, pl, i);
    if i > 0 {
      PieceLengths(|data|, pl, i - 1);
    }
  }

  /** The buffer between two pieces. */
  ghost predicate Leftover(data: seq<u8>, pl: nat, k: nat, buf: seq<u8>) {
    && |buf| == pl
    && (Offset(pl, k) < |data| ==> buf == if k == 0 then Zeros(pl) else Chunk(data, pl, k - 1))
  }

  /** The hashes do not depend on how the reads are split. */
  method GetPieceHashes(reader: Reader, pl: nat, digest: seq<u8> -> Digest) returns (pieces: seq<Digest>)
    requires reader.pos == 0
    modifies reader
    ensures pl == 0 ==> pieces == []
    ensures pl > 0 ==> |pieces| == PieceCount(|reader.data|, pl)
    ensures pl > 0 ==> forall i :: 0 <= i < |pieces| ==> pieces[i] == digest(HashedBuffer(reader.data, pl, i))
  {
    hide HashedBuffer, Leftover, Chunk, PieceCount;
    var buf := new u8[pl](_ => 0);
    pieces := [];
    assert buf[..] == Zeros(pl);
    FreshBuffer(reader.data, pl);
    while true
      invariant fresh(buf) && buf.Length == pl
      invariant reader.pos == Min(Offset(pl, |pieces|), |reader.data|)
      invariant Leftover(reader.data, pl, |pieces|, buf[..])
      invariant pl == 0 ==> pieces == []
      invariant pl > 0 ==> |pieces| <= PieceCount(|reader.data|, pl)
      invariant forall i :: 0 <= i < |pieces| ==> pieces[i] == digest(HashedBuffer(reader.data, pl, i))
      decreases |reader.data| - reader.pos
    {
      ghost var before := buf[..];
      var bytesRead := FillBuffer(reader, buf, |pieces|);
      if bytesRead == 0 {
        break;
      }
      BufferHolds(reader.data, pl, |pieces|, before);
      assert buf[..] == HashedBuffer(reader.data, pl, |pieces|);
      pieces := pieces + [digest(buf[..])];
    }
    if pl > 0 {
      IndexInRange(|reader.data|, pl, |pieces|);
    }
  }

  /** The inner loop: read until the buffer is full or the file ends. */
  method FillBuffer(reader: Reader, buf: array<u8>, ghost k: nat) returns (bytesRead: nat)
    requires reader.pos == Min(Offset(buf.Length, k), |reader.data|)
    modifies reader, buf
    ensures bytesRead == |Chunk(reader.data, buf.Length, k)|
    ensures reader.pos == Min(Offset(buf.Length, k + 1), |reader.data|) == old(reader.pos) + bytesRead
    ensures buf[..] == Chunk(reader.data, buf.Length, k) + old(buf[bytesRead..])
  {
    hide Chunk, Offset;
    bytesRead := 0;
    ghost var start, orig := reader.pos, buf[..];
    assert orig == reader.data[start..start] + orig[0..];
    while bytesRead < buf.Length
      invariant bytesRead <= buf.Length && start <= reader.pos == start + bytesRead <= |reader.data|
      invariant buf[..] == reader.data[start..reader.pos] + orig[bytesRead..]
      decreases buf.Length - bytesRead
    {
      var n := ReadOn(reader, buf, bytesRead, start, orig);
      if n == 0 {
        break;
      }
      bytesRead := bytesRead + n;
    }
    ChunkRead(reader.data, buf.Length, k, start, reader.pos);
  }

  /** One read more behind the bytes already there. */
  method ReadOn(reader: Reader, buf: array<u8>, bytesRead: nat, ghost start: nat, ghost orig: seq<u8>)
    returns (n: nat)
    requires bytesRead < buf.Length == |orig| && start <= reader.pos == start + bytesRead <= |reader.data|
    requires buf[..] == reader.data[start..reader.pos] + orig[bytesRead..]
    modifies reader, buf
    ensures bytesRead + n <= buf.Length && reader.pos == old(reader.pos) + n <= |reader.data|
    ensures n == 0 <==> old(reader.pos) == |reader.data|
    ensures buf[..] == reader.data[start..reader.pos] + orig[bytesRead + n..]
  {
    ghost var before, here := buf[..], reader.pos;
    n := reader.Read(buf, bytesRead, buf.Length);
    assert buf[..] == before[..bytesRead] + reader.data[here..reader.pos] + before[bytesRead + n..];
    Extends(reader.data, start, here, reader.pos, before, orig, buf[..]);
  }

  /** Reading stops at the end of the piece or of the file, so what was read is the piece. */
  lemma ChunkRead(data: seq<u8>, pl: nat, k: nat, start: nat, end: nat)
    requires start == Min(Offset(pl, k), |data|) && start <= end <= |data| && end - start <= pl
    requires end - start == pl || end == |data|
    ensures data[start..end] == Chunk(data, pl, k) && end == Min(Offset(pl, k + 1), |data|)
  {
  }

  lemma Extends(data: seq<u8>, start: nat, here: nat, end: nat, before: seq<u8>, orig: seq<u8>, after: seq<u8>)
    requires start <= here <= end <= |data| && end - start <= |orig|
    requires before == data[start..here] + orig[here - start..]
    requires after == before[..here - start] + data[here..end] + before[end - start..]
    ensures after == data[start..end] + orig[end - start..]
  {
    assert before[end - start..] == orig[end - start..];
    assert data[start..end] == data[start..here] + data[here..end];
  }

  lemma FreshBuffer(data: seq<u8>, pl: nat)
    ensures Leftover(data, pl, 0, Zeros(pl))
  {
  }

  /** A piece has just been read over what the previous one left. */
  lemma BufferHolds(data: seq<u8>, pl: nat, k: nat, before: seq<u8>)
    requires Offset(pl, k) <= |data| && Chunk(data, pl, k) != [] && Leftover(data, pl, k, before)
    ensures pl > 0 && k < PieceCount(|data|, pl)
    ensures HashedBuffer(data, pl, k) == Chunk(data, pl, k) + before[|Chunk(data, pl, k)|..]
    ensures Leftover(data, pl, k + 1, HashedBuffer(data, pl, k))
  {
    IndexInRange(|data|, pl, k);
    FullPieceHashed(data, pl, k);
  }

  /** What stands behind a short last piece: the bytes of the piece before it at the same places, or zeros if there is
      none. */
  lemma StaleTail(data: seq<u8>, pl: nat, i: nat, o: nat)
    requires pl > 0 && i < PieceCount(|data|, pl) && |Chunk(data, pl, i)| <= o < pl
    ensures |HashedBuffer(data, pl, i)| == pl
    ensures i > 0 ==> Offset(pl, i - 1) + o < |data| && HashedBuffer(data, pl, i)[o] == data[Offset(pl, i - 1) + o]
    ensures i == 0 ==> HashedBuffer(data, pl, i)[o] == 0
  {
    FullPieceHashed(data, pl, i);
    PieceLengths(|data|, pl, i);
    if i > 0 {
      PieceLengths(|data|, pl, i - 1);
    }
  }
}
