/** The sparse `.part` file and its `.info` status bytes as values: what a sequence of piece writes
    leaves behind, in any order, with repeats, and stopped between any two steps. */
module PartFile {
  import opened Base
  import opened Pieces

  datatype Part = Part(data: seq<u8>, status: seq<u8>)

  /** One piece write is two file writes: first the data, then the status byte. */
  datatype Op = Data(index: nat, payload: seq<u8>) | Mark(index: nat)

  /** Seek and write: a gap left by seeking beyond the end reads as zeros, an empty write changes nothing. */
  function WriteAt(f: seq<u8>, offset: nat, d: seq<u8>): (r: seq<u8>)
    ensures |r| == if d == [] then |f| else Max(|f|, offset + |d|)
    ensures forall i :: 0 <= i < |r| ==>
      r[i] == if offset <= i < offset + |d| then d[i - offset] else if i < |f| then f[i] else 0
  {
    if d == [] then f
    else
      var padded := f + Zeros(Max(0, offset + |d| - |f|));
      padded[..offset] + d + padded[offset + |d|..]
  }

  function Empty(n: nat): Part {
    Part([], Zeros(n))
  }

  /** Offsets are 32-bit products. */
  function Apply(pl: nat, st: Part, op: Op): Part {
    match op
    case Data(k, p) => st.(data := WriteAt(st.data, Wrap32(k * pl), p))
    case Mark(k) => st.(status := WriteAt(st.status, k, [1]))
  }

  /** Both file writes of one piece. */
  function WritePiece(pl: nat, st: Part, k: nat, p: seq<u8>): Part {
    Apply(pl, Apply(pl, st, Data(k, p)), Mark(k))
  }

  function Run(pl: nat, n: nat, ops: seq<Op>): Part {
    if ops == [] then Empty(n) else Apply(pl, Run(pl, n, ops[..|ops| - 1]), ops[|ops| - 1])
  }

  predicate AllOnes(status: seq<u8>) {
    forall k :: 0 <= k < |status| ==> status[k] == 1
  }

  predicate OffsetsInRange(pl: nat, n: nat) {
    forall k: nat :: k < n ==> Offset(pl, k) < U32_SIZE
  }

  /** In-range writes, payloads no longer than a piece, only the last index short, data before status. */
  ghost predicate Legal(pl: nat, n: nat, ops: seq<Op>) {
    ops == [] ||
    var front, op := ops[..|ops| - 1], ops[|ops| - 1];
    && Legal(pl, n, front)
    && op.index < n
    && (op.Data? ==> |op.payload| <= pl && (op.index + 1 < n ==> |op.payload| == pl))
    && (op.Mark? ==> LastPayload(front, op.index).Some?)
  }

  function LastPayload(ops: seq<Op>, k: nat): Option<seq<u8>> {
    if ops == [] then None
    else if ops[|ops| - 1].Data? && ops[|ops| - 1].index == k then Some(ops[|ops| - 1].payload)
    else LastPayload(ops[..|ops| - 1], k)
  }

  /** The bytes of `p` stand at `offset`. */
  predicate Holds(data: seq<u8>, offset: nat, p: seq<u8>) {
    p == [] || (offset + |p| <= |data| && forall i :: offset <= i < offset + |p| ==> data[i] == p[i - offset])
  }

  /** Within 4 GiB the product does not wrap. */
  lemma DataApplies(pl: nat, st: Part, k: nat, p: seq<u8>)
    requires Offset(pl, k) < U32_SIZE
    ensures Apply(pl, st, Data(k, p)) == st.(data := WriteAt(st.data, Offset(pl, k), p))
  {
    hide WriteAt;
    NoWrap(pl, k);
  }

  lemma NoWrap(pl: nat, k: nat)
    requires Offset(pl, k) < U32_SIZE
    ensures Wrap32(k * pl) == Offset(pl, k)
  {
    OffsetIsProduct(pl, k);
    hide Offset;
  }

  /** Slots that do not overlap do not disturb each other: writing one leaves what the other holds. */
  lemma SlotsApart(data: seq<u8>, a: nat, p: seq<u8>, b: nat, q: seq<u8>)
    requires a + |p| <= b || b + |q| <= a
    requires Holds(data, a, p)
    ensures Holds(WriteAt(data, b, q), a, p)
  {
  }

  lemma WriteHolds(data: seq<u8>, offset: nat, p: seq<u8>)
    ensures Holds(WriteAt(data, offset, p), offset, p)
  {
  }

  /** After every legal sequence of file writes, complete or cut short: a status byte is 1 iff that
      index was marked, a marked index was written, and its slot holds the last payload written for it. */
  lemma {:induction false} PartRefinement(pl: nat, n: nat, ops: seq<Op>)
    requires OffsetsInRange(pl, n) && Legal(pl, n, ops)
    ensures Refines(pl, n, ops, Run(pl, n, ops))
  {
    if ops != [] {
      var front, op := ops[..|ops| - 1], ops[|ops| - 1];
      PartRefinement(pl, n, front);
      assert ops == front + [op];
      RefinementStep(pl, n, front, Run(pl, n, front), op);
    }
  }

  ghost predicate Refines(pl: nat, n: nat, ops: seq<Op>, st: Part) {
    && |st.status| == n
    && (forall k :: 0 <= k < n ==> st.status[k] in {0, 1})
    && (forall k :: 0 <= k < n ==> (st.status[k] == 1 <==> Mark(k) in ops))
    && (forall k :: 0 <= k < n && st.status[k] == 1 ==> LastPayload(ops, k).Some?)
    && (forall k: nat :: LastPayload(ops, k).Some? ==>
          k < n && |LastPayload(ops, k).value| <= pl && Holds(st.data, Offset(pl, k), LastPayload(ops, k).value))
  }

  lemma RefinementStep(pl: nat, n: nat, front: seq<Op>, st: Part, op: Op)
    requires OffsetsInRange(pl, n) && Legal(pl, n, front + [op])
    requires Refines(pl, n, front, st)
    ensures Refines(pl, n, front + [op], Apply(pl, st, op))
  {
    var ops := front + [op];
    assert ops[..|ops| - 1] == front;
    match op
    case Mark(i) =>
      assert forall k: nat :: LastPayload(ops, k) == LastPayload(front, k);
      assert forall k :: Mark(k) in ops <==> Mark(k) in front || k == i;
    case Data(i, p) =>
      var st' := Apply(pl, st, op);
      assert forall k :: Mark(k) in ops <==> Mark(k) in front;
      DataApplies(pl, st, i, p);
      forall k: nat | LastPayload(ops, k).Some?
        ensures k < n && |LastPayload(ops, k).value| <= pl && Holds(st'.data, Offset(pl, k), LastPayload(ops, k).value)
      {
        if i == k {
          WriteHolds(st.data, Offset(pl, k), p);
        } else {
          OffsetsApart(pl, k, i);
          SlotsApart(st.data, Offset(pl, k), LastPayload(front, k).value, Offset(pl, i), p);
        }
      }
  }

  /** The download is complete exactly when every index has been marked. */
  lemma CompleteIff(pl: nat, n: nat, ops: seq<Op>)
    requires OffsetsInRange(pl, n) && Legal(pl, n, ops)
    ensures AllOnes(Run(pl, n, ops).status) <==> forall k: nat :: k < n ==> Mark(k) in ops
  {
    PartRefinement(pl, n, ops);
  }

  /** What has been written so far agrees with `file`. */
  predicate Faithful(pl: nat, file: seq<u8>, st: Part) {
    && |st.data| <= |file|
    && forall k: nat :: k < |st.status| && st.status[k] == 1 ==> Holds(st.data, Offset(pl, k), Chunk(file, pl, k))
  }

  /** Writing a genuine chunk keeps the agreement, and so does marking it. */
  lemma FaithfulWrite(pl: nat, file: seq<u8>, st: Part, k: nat)
    requires pl > 0 && |st.status| == PieceCount(|file|, pl) && k < |st.status| && Offset(pl, k) < U32_SIZE
    requires Faithful(pl, file, st)
    ensures Faithful(pl, file, Apply(pl, st, Data(k, Chunk(file, pl, k))))
    ensures Faithful(pl, file, WritePiece(pl, st, k, Chunk(file, pl, k)))
  {
    FaithfulData(pl, file, st, k);
    var st' := Apply(pl, st, Data(k, Chunk(file, pl, k)));
    var st2 := Apply(pl, st', Mark(k));
    assert forall j: nat :: j < |st2.status| && st2.status[j] == 1 ==> j == k || st'.status[j] == 1;
  }

  lemma FaithfulData(pl: nat, file: seq<u8>, st: Part, k: nat)
    requires pl > 0 && |st.status| == PieceCount(|file|, pl) && k < |st.status| && Offset(pl, k) < U32_SIZE
    requires Faithful(pl, file, st)
    ensures
      var st' := Apply(pl, st, Data(k, Chunk(file, pl, k)));
      st'.status == st.status && Faithful(pl, file, st') && Holds(st'.data, Offset(pl, k), Chunk(file, pl, k))
  {
    hide Offset;
    var c := Chunk(file, pl, k);
    var st' := Apply(pl, st, Data(k, c));
    DataApplies(pl, st, k, c);
    PieceLengths(|file|, pl, k);
    WriteHolds(st.data, Offset(pl, k), c);
    forall j: nat | j < |st.status| && st.status[j] == 1 && j != k
      ensures Holds(st'.data, Offset(pl, j), Chunk(file, pl, j))
    {
      ChunkSize(file, pl, j);
      OffsetsApart(pl, j, k);
      SlotsApart(st.data, Offset(pl, j), Chunk(file, pl, j), Offset(pl, k), c);
    }
  }

  lemma ChunkSize(file: seq<u8>, pl: nat, j: nat)
    requires pl > 0 && j < PieceCount(|file|, pl)
    ensures 0 < |Chunk(file, pl, j)| <= pl
  {
    PieceLengths(|file|, pl, j);
  }

  lemma FaithfulByte(pl: nat, file: seq<u8>, st: Part, i: nat)
    requires pl > 0 && i < |file| && |st.status| == PieceCount(|file|, pl)
    requires Faithful(pl, file, st) && AllOnes(st.status)
    ensures i < |st.data| && st.data[i] == file[i]
  {
    var k := i / pl;
    DivBounds(i, pl);
    OffsetIsProduct(pl, k);
    IndexInRange(|file|, pl, k);
    assert st.status[k] == 1;
    SlotByte(st.data, Offset(pl, k), Chunk(file, pl, k), i - Offset(pl, k));
  }

  /** When all status bytes are set, the part file is the file. */
  lemma FaithfulComplete(pl: nat, file: seq<u8>, st: Part)
    requires pl > 0 && |file| > 0 && |st.status| == PieceCount(|file|, pl)
    requires Faithful(pl, file, st) && AllOnes(st.status)
    ensures st.data == file
  {
    FaithfulByte(pl, file, st, |file| - 1);
    forall i | 0 <= i < |file| ensures st.data[i] == file[i] {
      FaithfulByte(pl, file, st, i);
    }
  }

  lemma SlotByte(data: seq<u8>, offset: nat, c: seq<u8>, j: nat)
    requires Holds(data, offset, c) && j < |c|
    ensures offset + j < |data| && data[offset + j] == c[j]
  {
  }

  /** Replaying the pieces of a file in any order and with any repeats rebuilds it. */
  lemma Rebuild(pl: nat, file: seq<u8>, ops: seq<Op>)
    requires 0 < pl && 0 < |file| <= U32_SIZE
    requires Legal(pl, PieceCount(|file|, pl), ops)
    requires forall op :: op in ops && op.Data? ==> op.payload == Chunk(file, pl, op.index)
    requires forall k: nat :: k < PieceCount(|file|, pl) ==> Mark(k) in ops
    ensures Run(pl, PieceCount(|file|, pl), ops).data == file
  {
    var n := PieceCount(|file|, pl);
    forall k: nat | k < n ensures Offset(pl, k) < U32_SIZE { IndexInRange(|file|, pl, k); }
    PartRefinement(pl, n, ops);
    LegalIndices(pl, n, ops);
    NeverTooLong(pl, n, file, ops);
    var st := Run(pl, n, ops);
    forall k: nat | k < n ensures Holds(st.data, Offset(pl, k), Chunk(file, pl, k)) {
      assert st.status[k] == 1;
      LastPayloadWritten(ops, k);
    }
    FaithfulComplete(pl, file, st);
  }

  lemma {:induction false} LegalIndices(pl: nat, n: nat, ops: seq<Op>)
    requires Legal(pl, n, ops)
    ensures forall op :: op in ops ==> op.index < n
  {
    if ops != [] {
      LegalIndices(pl, n, ops[..|ops| - 1]);
      assert ops == ops[..|ops| - 1] + [ops[|ops| - 1]];
    }
  }

  lemma {:induction false} LastPayloadWritten(ops: seq<Op>, k: nat)
    requires LastPayload(ops, k).Some?
    ensures Data(k, LastPayload(ops, k).value) in ops
  {
    if !(ops[|ops| - 1].Data? && ops[|ops| - 1].index == k) {
      LastPayloadWritten(ops[..|ops| - 1], k);
    }
  }

  lemma {:induction false} NeverTooLong(pl: nat, n: nat, file: seq<u8>, ops: seq<Op>)
    requires 0 < pl && 0 < |file| && n == PieceCount(|file|, pl) && OffsetsInRange(pl, n)
    requires forall op :: op in ops ==> op.index < n
    requires forall op :: op in ops && op.Data? ==> op.payload == Chunk(file, pl, op.index)
    ensures |Run(pl, n, ops).data| <= |file|
  {
    if ops != [] {
      var front, op := ops[..|ops| - 1], ops[|ops| - 1];
      NeverTooLong(pl, n, file, front);
      assert op in ops;
      if op.Data? {
        DataApplies(pl, Run(pl, n, front), op.index, op.payload);
        PieceLengths(|file|, pl, op.index);
      }
    }
  }

  /** Where a piece lands: at its own offset for all pieces of a file, with the program's piece length, exactly if the
      file has at most 4 GiB. */
  lemma LandsRightIff(length: u64)
    requires length > 0
    ensures
      var pl := PieceLength(length);
      (forall k: nat, st: Part, p :: k < PieceCount(length, pl) ==>
         Apply(pl, st, Data(k, p)).data == WriteAt(st.data, Offset(pl, k), p)) <==> length <= U32_SIZE
  {
    var pl := PieceLength(length);
    if length <= U32_SIZE {
      forall k: nat, st: Part, p | k < PieceCount(length, pl)
        ensures Apply(pl, st, Data(k, p)).data == WriteAt(st.data, Offset(pl, k), p)
      {
        IndexInRange(length, pl, k);
        DataApplies(pl, st, k, p);
      }
    } else {
      OffsetIsProduct(pl, 4096);
      IndexInRange(length, pl, 4096);
      var st, p: seq<u8> := Part([], []), [0];
      assert |Apply(pl, st, Data(4096, p)).data| == 1;
      assert Apply(pl, st, Data(4096, p)).data != WriteAt(st.data, Offset(pl, 4096), p);
    }
  }
}
