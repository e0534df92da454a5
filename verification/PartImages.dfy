/** What a part file holds when each piece is written once, with any payload that is no longer than a piece. */
module PartImages {
  import opened Base
  import opened Pieces
  import PartFile

  /** The payload written for each index so far. */
  type Payloads = map<nat, seq<u8>>

  /** The byte at position `o` of slot `k`: the payload's, or a zero behind it. */
  function SlotByte(w: Payloads, k: nat, o: nat): u8 {
    if k in w && o < |w[k]| then w[k][o] else 0
  }

  predicate EndsBy(pl: nat, w: Payloads, k: nat, size: nat)
    requires k in w
  {
    w[k] != [] ==> Offset(pl, k) + |w[k]| <= size
  }

  /** The part file is the image of `w`: its status bytes mark the indices written, its slots hold the payloads, gaps
      are zeros, and it ends where the last of its payloads ends. */
  ghost predicate Image(pl: nat, n: nat, w: Payloads, part: PartFile.Part) {
    && |part.status| == n
    && (forall k: nat :: k < n ==> (k in w <==> part.status[k] == 1))
    && (forall k: nat :: k in w ==> k < n && |w[k]| <= pl && EndsBy(pl, w, k, |part.data|))
    && (part.data == [] || exists k: nat :: k in w && Offset(pl, k) + |w[k]| == |part.data|)
    && (forall k: nat, o: nat :: k < n && o < pl && Offset(pl, k) + o < |part.data| ==>
          part.data[Offset(pl, k) + o] == SlotByte(w, k, o))
  }

  lemma EmptyImage(pl: nat, n: nat)
    ensures Image(pl, n, map[], PartFile.Empty(n))
  {
  }

  lemma WriteImage(pl: nat, n: nat, w: Payloads, part: PartFile.Part, k: nat, p: seq<u8>)
    requires Image(pl, n, w, part) && k < n && k !in w && |p| <= pl && Offset(pl, k) < U32_SIZE
    ensures Image(pl, n, w[k := p], PartFile.WritePiece(pl, part, k, p))
  {
    hide SlotByte, EndsBy, PartFile.WriteAt, Offset;
    var at, w', t := Offset(pl, k), w[k := p], PartFile.WritePiece(pl, part, k, p);
    PartFile.DataApplies(pl, part, k, p);
    assert t.data == PartFile.WriteAt(part.data, at, p);
    WriteEnds(pl, w, part.data, k, p);
    forall i: nat, o: nat | i < n && o < pl && Offset(pl, i) + o < |t.data|
      ensures t.data[Offset(pl, i) + o] == SlotByte(w', i, o)
    {
      WriteByte(pl, w, part.data, k, p, i, o);
    }
  }

  lemma WriteByte(pl: nat, w: Payloads, data: seq<u8>, k: nat, p: seq<u8>, i: nat, o: nat)
    requires o < pl && |p| <= pl && k !in w && (i in w ==> EndsBy(pl, w, i, |data|))
    requires Offset(pl, i) + o < |PartFile.WriteAt(data, Offset(pl, k), p)|
    requires Offset(pl, i) + o < |data| ==> data[Offset(pl, i) + o] == SlotByte(w, i, o)
    ensures PartFile.WriteAt(data, Offset(pl, k), p)[Offset(pl, i) + o] == SlotByte(w[k := p], i, o)
  {
    hide Offset;
    OffsetsApart(pl, i, k);
    if Offset(pl, i) + o >= |data| {
      BehindTheEnd(pl, w, i, o, |data|);
    }
  }

  /** Behind the end of the file there are only zeros. */
  lemma BehindTheEnd(pl: nat, w: Payloads, i: nat, o: nat, size: nat)
    requires i in w ==> EndsBy(pl, w, i, size)
    requires Offset(pl, i) + o >= size
    ensures SlotByte(w, i, o) == 0
  {
  }

  lemma WriteEnds(pl: nat, w: Payloads, data: seq<u8>, k: nat, p: seq<u8>)
    requires k !in w && forall i: nat :: i in w ==> EndsBy(pl, w, i, |data|)
    requires data == [] || exists i: nat :: i in w && Offset(pl, i) + |w[i]| == |data|
    ensures
      var w', d := w[k := p], PartFile.WriteAt(data, Offset(pl, k), p);
      && (forall i: nat :: i in w' ==> EndsBy(pl, w', i, |d|))
      && (d == [] || exists i: nat :: i in w' && Offset(pl, i) + |w'[i]| == |d|)
  {
    var w', d := w[k := p], PartFile.WriteAt(data, Offset(pl, k), p);
    forall i: nat | i in w' ensures EndsBy(pl, w', i, |d|) {
      assert i != k ==> EndsBy(pl, w, i, |data|);
    }
    if |d| == |data| {
      if i: nat :| i in w && Offset(pl, i) + |w[i]| == |data| {
        assert i in w' && w'[i] == w[i];
      }
    } else {
      assert k in w' && Offset(pl, k) + |w'[k]| == |d|;
    }
  }

  /** Every payload is its chunk up to zeros that are missing at its end, the last one exactly. */
  ghost predicate Right(pl: nat, file: seq<u8>, w: Payloads)
    requires pl > 0
  {
    forall k: nat :: k < PieceCount(|file|, pl) ==>
      k in w && if k + 1 == PieceCount(|file|, pl) then w[k] == Chunk(file, pl, k)
                else |w[k]| <= pl && w[k] + Zeros(pl - |w[k]|) == Chunk(file, pl, k)
  }

  /** A complete part file is the file exactly if the payloads are right. */
  lemma ImageIsFileIff(pl: nat, file: seq<u8>, w: Payloads, part: PartFile.Part)
    requires pl > 0 && |file| > 0 && Image(pl, PieceCount(|file|, pl), w, part) && PartFile.AllOnes(part.status)
    ensures part.data == file <==> Right(pl, file, w)
  {
    hide Image, Right, SlotByte;
    if Right(pl, file, w) {
      RightIsFile(pl, file, w, part);
    }
    if part.data == file {
      FileIsRight(pl, file, w, part);
    }
  }

  lemma RightIsFile(pl: nat, file: seq<u8>, w: Payloads, part: PartFile.Part)
    requires pl > 0 && |file| > 0 && Image(pl, PieceCount(|file|, pl), w, part) && PartFile.AllOnes(part.status)
    requires Right(pl, file, w)
    ensures part.data == file
  {
    hide Image, Right;
    RightSize(pl, file, w, part);
    forall i | 0 <= i < |file| ensures part.data[i] == file[i] {
      RightPosition(pl, file, w, part, i);
    }
  }

  lemma RightPosition(pl: nat, file: seq<u8>, w: Payloads, part: PartFile.Part, i: nat)
    requires pl > 0 && Image(pl, PieceCount(|file|, pl), w, part) && Right(pl, file, w)
    requires i < |file| == |part.data|
    ensures part.data[i] == file[i]
  {
    hide Right, SlotByte, Offset, PieceCount;
    var k := i / pl;
    DivBounds(i, pl);
    OffsetIsProduct(pl, k);
    IndexInRange(|file|, pl, k);
    var o := i - Offset(pl, k);
    RightByte(pl, file, w, k, o);
    assert part.data[Offset(pl, k) + o] == SlotByte(w, k, o);
  }

  lemma RightByte(pl: nat, file: seq<u8>, w: Payloads, k: nat, o: nat)
    requires pl > 0 && Right(pl, file, w) && o < pl && Offset(pl, k) + o < |file|
    ensures SlotByte(w, k, o) == file[Offset(pl, k) + o]
  {
    IndexInRange(|file|, pl, k);
    PieceLengths(|file|, pl, k);
    var c := Chunk(file, pl, k);
    assert c[o] == file[Offset(pl, k) + o];
    if k + 1 < PieceCount(|file|, pl) {
      assert (w[k] + Zeros(pl - |w[k]|))[o] == c[o];
    }
  }

  /** The last payload sets the size. */
  lemma RightSize(pl: nat, file: seq<u8>, w: Payloads, part: PartFile.Part)
    requires pl > 0 && |file| > 0 && Image(pl, PieceCount(|file|, pl), w, part) && Right(pl, file, w)
    ensures |part.data| == |file|
  {
    hide SlotByte, Chunk, Offset, PieceCount;
    var n := PieceCount(|file|, pl);
    LastChunk(pl, file);
    assert EndsBy(pl, w, n - 1, |part.data|);
    var k: nat :| k in w && Offset(pl, k) + |w[k]| == |part.data|;
    OffsetsApart(pl, k, n - 1);
  }

  lemma LastChunk(pl: nat, file: seq<u8>)
    requires pl > 0 && |file| > 0
    ensures
      var n := PieceCount(|file|, pl);
      n > 0 && Offset(pl, n - 1) < |file| && |Chunk(file, pl, n - 1)| == |file| - Offset(pl, n - 1) > 0
  {
    IndexInRange(|file|, pl, 0);
    PieceLengths(|file|, pl, PieceCount(|file|, pl) - 1);
  }

  lemma FileIsRight(pl: nat, file: seq<u8>, w: Payloads, part: PartFile.Part)
    requires pl > 0 && |file| > 0 && Image(pl, PieceCount(|file|, pl), w, part) && PartFile.AllOnes(part.status)
    requires part.data == file
    ensures Right(pl, file, w)
  {
    hide SlotByte, Chunk;
    forall k: nat | k < PieceCount(|file|, pl)
      ensures k in w && if k + 1 == PieceCount(|file|, pl) then w[k] == Chunk(file, pl, k)
                        else |w[k]| <= pl && w[k] + Zeros(pl - |w[k]|) == Chunk(file, pl, k)
    {
      assert part.status[k] == 1;
      if k + 1 == PieceCount(|file|, pl) {
        LastIsRight(pl, file, w, part, k);
      } else {
        InnerIsRight(pl, file, w, part, k);
      }
    }
  }

  lemma InnerIsRight(pl: nat, file: seq<u8>, w: Payloads, part: PartFile.Part, k: nat)
    requires pl > 0 && |file| > 0 && Image(pl, PieceCount(|file|, pl), w, part) && part.data == file
    requires k + 1 < PieceCount(|file|, pl) && k in w
    ensures |w[k]| <= pl && w[k] + Zeros(pl - |w[k]|) == Chunk(file, pl, k)
  {
    PieceLengths(|file|, pl, k);
    var padded := w[k] + Zeros(pl - |w[k]|);
    forall o | 0 <= o < pl ensures padded[o] == Chunk(file, pl, k)[o] {
      assert part.data[Offset(pl, k) + o] == SlotByte(w, k, o);
    }
  }

  lemma LastIsRight(pl: nat, file: seq<u8>, w: Payloads, part: PartFile.Part, k: nat)
    requires pl > 0 && |file| > 0 && Image(pl, PieceCount(|file|, pl), w, part) && part.data == file
    requires k + 1 == PieceCount(|file|, pl) && k in w
    ensures w[k] == Chunk(file, pl, k)
  {
    LastChunk(pl, file);
    var i: nat :| i in w && Offset(pl, i) + |w[i]| == |part.data|;
    OffsetsApart(pl, i, k);
    assert i == k;
    forall o | 0 <= o < |w[k]| ensures w[k][o] == Chunk(file, pl, k)[o] {
      assert part.data[Offset(pl, k) + o] == SlotByte(w, k, o);
    }
  }
}
