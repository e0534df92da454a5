/** The peer messages and their byte form (client/src/message.rs). */
module Wire {
  import opened Base

  datatype Message =
    | Request(seeder: u32, index: u32, begin: u32, length: u32, hash: Digest)
    | Piece(index: u32, piece: seq<u8>)
    | Cancel(seeder: u32, index: u32, begin: u32, length: u32)

  const REQUEST_ID: u8 := 6
  const PIECE_ID: u8 := 7
  const CANCEL_ID: u8 := 8

  /** Decoding answers with a message, with no message, or by a panic on an out-of-range index. */
  datatype Decoded = Parsed(msg: Message) | NoMessage | DecodePanic

  /** Everything after the length prefix. */
  function Body(m: Message): (b: seq<u8>)
    ensures |b| == match m case Request(_, _, _, _, _) => 37 case Piece(_, p) => 5 + |p| case Cancel(_, _, _, _) => 17
  {
    match m
    case Request(seeder, index, begin, length, hash) =>
      [REQUEST_ID] + BigEndian(4, seeder) + BigEndian(4, index) + BigEndian(4, begin) + BigEndian(4, length) + hash
    case Piece(index, piece) =>
      [PIECE_ID] + BigEndian(4, index) + piece
    case Cancel(seeder, index, begin, length) =>
      [CANCEL_ID] + BigEndian(4, seeder) + BigEndian(4, index) + BigEndian(4, begin) + BigEndian(4, length)
  }

  /** The frame: the body behind its own length, taken modulo 2^32. */
  function Frame(m: Message): (f: seq<u8>)
    ensures |f| == 4 + |Body(m)|
    ensures f[..4] == BigEndian(4, Wrap32(|Body(m)|)) && f[4..] == Body(m)
  {
    BigEndian(4, Wrap32(|Body(m)|)) + Body(m)
  }

  /** `extend_from_slice`, tracking what stands behind the first four bytes. */
  method ExtendFromSlice(buf: seq<u8>, ghost prefix: seq<u8>, ghost body: seq<u8>, bytes: seq<u8>)
    returns (longer: seq<u8>, ghost longerBody: seq<u8>)
    requires buf == prefix + body
    ensures longer == prefix + longerBody
    ensures longerBody == body + bytes
  {
    longer, longerBody := buf + bytes, body + bytes;
  }

  /** `encode`, which writes each length out by hand and appends field by field. */
  method Encode(m: Message) returns (buf: seq<u8>)
    ensures buf == Frame(m)
  {
    match m {
      case Request(_, _, _, _, _) => buf := EncodeRequest(m);
      case Piece(_, _) => buf := EncodePiece(m);
      case Cancel(_, _, _, _) => buf := EncodeCancel(m);
    }
  }

  method EncodeRequest(m: Message) returns (buf: seq<u8>)
    requires m.Request?
    ensures buf == Frame(m)
  {
    buf := BigEndian(4, 37);
    ghost var prefix, body := buf, [];
    buf, body := ExtendFromSlice(buf, prefix, body, [6]);
    buf, body := ExtendFromSlice(buf, prefix, body, BigEndian(4, m.seeder));
    buf, body := ExtendFromSlice(buf, prefix, body, BigEndian(4, m.index));
    buf, body := ExtendFromSlice(buf, prefix, body, BigEndian(4, m.begin));
    buf, body := ExtendFromSlice(buf, prefix, body, BigEndian(4, m.length));
    buf, body := ExtendFromSlice(buf, prefix, body, m.hash);
  }

  method EncodePiece(m: Message) returns (buf: seq<u8>)
    requires m.Piece?
    ensures buf == Frame(m)
  {
    Wrap32Adds(5, |m.piece|);
    buf := BigEndian(4, Wrap32(5 + Wrap32(|m.piece|)));
    ghost var prefix, body := buf, [];
    buf, body := ExtendFromSlice(buf, prefix, body, [7]);
    buf, body := ExtendFromSlice(buf, prefix, body, BigEndian(4, m.index));
    buf, body := ExtendFromSlice(buf, prefix, body, m.piece);
  }

  method EncodeCancel(m: Message) returns (buf: seq<u8>)
    requires m.Cancel?
    ensures buf == Frame(m)
  {
    buf := BigEndian(4, 17);
    ghost var prefix, body := buf, [];
    buf, body := ExtendFromSlice(buf, prefix, body, [8]);
    buf, body := ExtendFromSlice(buf, prefix, body, BigEndian(4, m.seeder));
    buf, body := ExtendFromSlice(buf, prefix, body, BigEndian(4, m.index));
    buf, body := ExtendFromSlice(buf, prefix, body, BigEndian(4, m.begin));
    buf, body := ExtendFromSlice(buf, prefix, body, BigEndian(4, m.length));
  }

  /** The u32 stored in `buf[lo..lo + 4]`. */
  function Word(buf: seq<u8>, lo: nat): (w: u32)
    requires lo + 4 <= |buf|
  {
    FromBigEndian32(buf[lo..lo + 4]);
    FromBigEndian(buf[lo..lo + 4])
  }

  /** The length prefix is never looked at. */
  function Decode(buf: seq<u8>): Decoded {
    if |buf| < 4 then NoMessage
    else if |buf| == 4 then DecodePanic
    else if buf[4] == 6 then
      if |buf| < 41 then DecodePanic
      else Parsed(Request(Word(buf, 5), Word(buf, 9), Word(buf, 13), Word(buf, 17), buf[21..41]))
    else if buf[4] == 7 then
      if |buf| < 9 then DecodePanic
      else Parsed(Piece(Word(buf, 5), buf[9..]))
    else if buf[4] == 8 then
      if |buf| < 21 then DecodePanic
      else Parsed(Cancel(Word(buf, 5), Word(buf, 9), Word(buf, 13), Word(buf, 17)))
    else NoMessage
  }

  /** A word written at offset `lo` is read back. */
  lemma WordReads(buf: seq<u8>, lo: nat, v: u32)
    requires lo + 4 <= |buf| && buf[lo..lo + 4] == BigEndian(4, v)
    ensures Word(buf, lo) == v
  {
    BigEndian32(v);
  }

  lemma FieldsLayout(m: Message, f: seq<u8>)
    requires |f| == 4 + |Body(m)| && f[4..] == Body(m)
    ensures f[4] == Body(m)[0]
    ensures
      match m
      case Request(seeder, index, begin, length, hash) =>
        && f[5..9] == BigEndian(4, seeder) && f[9..13] == BigEndian(4, index)
        && f[13..17] == BigEndian(4, begin) && f[17..21] == BigEndian(4, length) && f[21..41] == hash
      case Piece(index, piece) => f[5..9] == BigEndian(4, index) && f[9..] == piece
      case Cancel(seeder, index, begin, length) =>
        && f[5..9] == BigEndian(4, seeder) && f[9..13] == BigEndian(4, index)
        && f[13..17] == BigEndian(4, begin) && f[17..21] == BigEndian(4, length)
  {
    var b := Body(m);
    assert f[4] == f[4..][0];
    match m
    case Request(seeder, index, begin, length, hash) =>
      CutBody([REQUEST_ID], BigEndian(4, seeder), BigEndian(4, index), BigEndian(4, begin), BigEndian(4, length), hash);
      Behind(f, 1, 5); Behind(f, 5, 9); Behind(f, 9, 13); Behind(f, 13, 17); Behind(f, 17, 37);
      assert b[17..37] == b[17..];
    case Piece(index, piece) =>
      Behind(f, 1, 5); Behind(f, 5, |b|);
      assert b[1..5] == BigEndian(4, index) && b[5..|b|] == piece && f[9..|f|] == f[9..];
    case Cancel(seeder, index, begin, length) =>
      CutBody([CANCEL_ID], BigEndian(4, seeder), BigEndian(4, index), BigEndian(4, begin), BigEndian(4, length), []);
      assert b == [CANCEL_ID] + BigEndian(4, seeder) + BigEndian(4, index) + BigEndian(4, begin)
                  + BigEndian(4, length) + [];
      Behind(f, 1, 5); Behind(f, 5, 9); Behind(f, 9, 13); Behind(f, 13, 17);
  }

  /** Cutting behind the length prefix. */
  lemma Behind(f: seq<u8>, lo: nat, hi: nat)
    requires lo <= hi <= |f| - 4
    ensures f[4 + lo..4 + hi] == f[4..][lo..hi]
  {
    assert forall i :: 0 <= i < hi - lo ==> f[4 + lo..4 + hi][i] == f[4..][lo..hi][i];
  }

  lemma CutBody(id: seq<u8>, a: seq<u8>, b: seq<u8>, c: seq<u8>, d: seq<u8>, rest: seq<u8>)
    requires |id| == 1 && |a| == |b| == |c| == |d| == 4
    ensures
      var s := id + a + b + c + d + rest;
      s[1..5] == a && s[5..9] == b && s[9..13] == c && s[13..17] == d && s[17..] == rest
  {
    var s1 := id + a;
    var s2 := s1 + b;
    var s3 := s2 + c;
    var s4 := s3 + d;
    Joined(id, a); Joined(s1, b); Joined(s2, c); Joined(s3, d); Joined(s4, rest);
    InFront(s1, b, 1, 5); InFront(s2, c, 1, 5); InFront(s3, d, 1, 5); InFront(s4, rest, 1, 5);
    InFront(s2, c, 5, 9); InFront(s3, d, 5, 9); InFront(s4, rest, 5, 9);
    InFront(s3, d, 9, 13); InFront(s4, rest, 9, 13);
    InFront(s4, rest, 13, 17);
  }

  lemma Joined(x: seq<u8>, y: seq<u8>)
    ensures (x + y)[|x|..] == y && (x + y)[|x|..|x| + |y|] == y
  {
  }

  lemma InFront(x: seq<u8>, y: seq<u8>, lo: nat, hi: nat)
    requires lo <= hi <= |x|
    ensures (x + y)[lo..hi] == x[lo..hi]
  {
    assert forall i :: 0 <= i < hi - lo ==> (x + y)[lo..hi][i] == x[lo..hi][i];
  }

  /** Decoding undoes encoding for every message, whatever the payload's length. */
  lemma DecodeFrame(m: Message)
    ensures Decode(Frame(m)) == Parsed(m)
  {
    var f := Frame(m);
    FieldsLayout(m, f);
    hide Body, Frame;
    match m
    case Request(seeder, index, begin, length, hash) =>
      WordReads(f, 5, seeder); WordReads(f, 9, index); WordReads(f, 13, begin); WordReads(f, 17, length);
    case Piece(index, piece) => WordReads(f, 5, index);
    case Cancel(seeder, index, begin, length) =>
      WordReads(f, 5, seeder); WordReads(f, 9, index); WordReads(f, 13, begin); WordReads(f, 17, length);
  }

  /** The prefix says how many bytes follow, exactly as long as five more than the payload fits 32 bits. */
  lemma PrefixExact(m: Message)
    ensures Word(Frame(m), 0) == |Frame(m)| - 4 <==> (m.Piece? ==> |m.piece| <= U32_SIZE - 6)
  {
    var f := Frame(m);
    assert f[0..4] == f[..4];
    WordReads(f, 0, Wrap32(|Body(m)|));
  }

  predicate Framable(m: Message) {
    m.Piece? ==> |m.piece| <= U32_SIZE - 6
  }

  /** Two pieces whose frames carry the same length prefix although one payload continues the other. */
  predicate Overflowing(m1: Message, m2: Message) {
    && m1.Piece? && m2.Piece? && m1.index == m2.index && m1.piece <= m2.piece
    && (|m2.piece| - |m1.piece|) % U32_SIZE == 0
  }

  /** Exactly when one frame starts another: never, unless payloads of 2^32 bytes and more are involved. */
  lemma PrefixIff(m1: Message, m2: Message)
    ensures Frame(m1) <= Frame(m2) <==> m1 == m2 || Overflowing(m1, m2)
  {
    hide Frame, Body;
    if Frame(m1) <= Frame(m2) {
      if m1.Piece? {
        PiecePrefix(m1, m2);
      } else {
        FixedPrefix(m1, m2);
      }
    }
    if Overflowing(m1, m2) {
      OverflowingPrefix(m1, m2);
    }
  }

  lemma FixedPrefix(m1: Message, m2: Message)
    requires Frame(m1) <= Frame(m2) && !m1.Piece?
    ensures m1 == m2
  {
    SameKind(m1, m2);
    assert Frame(m1) == Frame(m2);
    DecodeFrame(m1);
    DecodeFrame(m2);
  }

  lemma SameKind(m1: Message, m2: Message)
    requires Frame(m1) <= Frame(m2)
    ensures m1.Request? <==> m2.Request?
    ensures m1.Piece? <==> m2.Piece?
  {
    assert Frame(m1)[4] == Frame(m1)[4..][0] && Frame(m2)[4] == Frame(m2)[4..][0];
  }

  /** The frame of the shorter piece decodes to the start of the longer one. */
  lemma PiecePrefix(m1: Message, m2: Message)
    requires Frame(m1) <= Frame(m2) && m1.Piece?
    ensures m1 == m2 || Overflowing(m1, m2)
  {
    var f1, f2 := Frame(m1), Frame(m2);
    SameKind(m1, m2);
    DecodeFrame(m1);
    DecodeFrame(m2);
    assert f1[4] == f1[4..][0] && f2[4] == f2[4..][0];
    assert f1[5..9] == f2[5..9];
    assert f1[9..] == f2[9..][..|f1| - 9];
    assert f1[0..4] == f1[..4] && f2[0..4] == f2[..4] && f1[0..4] == f2[0..4];
    WordReads(f1, 0, Wrap32(|Body(m1)|));
    WordReads(f2, 0, Wrap32(|Body(m2)|));
    SameRest(5 + |m1.piece|, 5 + |m2.piece|);
  }

  lemma SameRest(a: nat, b: nat)
    requires a <= b
    ensures Wrap32(a) == Wrap32(b) <==> (b - a) % U32_SIZE == 0
  {
  }

  lemma OverflowingPrefix(m1: Message, m2: Message)
    requires Overflowing(m1, m2)
    ensures Frame(m1) <= Frame(m2)
  {
    SameRest(5 + |m1.piece|, 5 + |m2.piece|);
    assert Body(m1) <= Body(m2);
  }

  /** So frames with an exact prefix could follow each other on a stream. */
  lemma PrefixFree(m1: Message, m2: Message)
    requires Framable(m1) && Framable(m2)
    requires Frame(m1) <= Frame(m2)
    ensures m1 == m2
  {
    PrefixIff(m1, m2);
  }

  /** The prefix agrees with the buffer and the two fixed-size messages have nothing behind them. */
  predicate WellFramed(buf: seq<u8>) {
    && |buf| >= 5
    && Word(buf, 0) == Wrap32(|buf| - 4)
    && (buf[4] == REQUEST_ID ==> |buf| == 41)
    && (buf[4] == CANCEL_ID ==> |buf| == 21)
  }

  /** Two buffers whose words at `lo` agree have the same bytes there. */
  lemma WordWrites(buf: seq<u8>, lo: nat)
    requires lo + 4 <= |buf|
    ensures BigEndian(4, Word(buf, lo)) == buf[lo..lo + 4]
  {
    FromBigEndian32(buf[lo..lo + 4]);
  }

  /** The image of `encode`: a decodable buffer is re-encoded to itself iff it is well framed. */
  lemma EncodeImage(buf: seq<u8>)
    requires Decode(buf).Parsed?
    ensures Frame(Decode(buf).msg) == buf <==> WellFramed(buf)
  {
    hide Decode, Body;
    if WellFramed(buf) {
      ReEncodes(buf);
    }
    if Frame(Decode(buf).msg) == buf {
      FramesAreWellFramed(Decode(buf).msg);
    }
  }

  lemma ReEncodes(buf: seq<u8>)
    requires Decode(buf).Parsed? && WellFramed(buf)
    ensures Frame(Decode(buf).msg) == buf
  {
    hide Decode, Body;
    var f := Frame(Decode(buf).msg);
    BodyReads(buf);
    WordWrites(buf, 0);
    assert f == f[..4] + f[4..];
    assert buf == buf[0..4] + buf[4..];
  }

  lemma FramesAreWellFramed(m: Message)
    ensures WellFramed(Frame(m))
  {
    hide Wrap32;
    var f := Frame(m);
    assert f[0..4] == f[..4];
    WordReads(f, 0, Wrap32(|Body(m)|));
    assert f[4] == Body(m)[0];
  }

  /** Behind a well-framed prefix, the decoded fields are the buffer cut into pieces. */
  lemma BodyReads(buf: seq<u8>)
    requires Decode(buf).Parsed? && WellFramed(buf)
    ensures Body(Decode(buf).msg) == buf[4..]
  {
    WordWrites(buf, 5);
    if buf[4] == PIECE_ID {
      hide WellFramed;
      assert buf[4..] == [buf[4]] + buf[5..9] + buf[9..];
    } else {
      WordWrites(buf, 9);
      WordWrites(buf, 13);
      WordWrites(buf, 17);
      CutFields(buf);
      if buf[4] == CANCEL_ID {
        assert buf[21..] == [];
      } else {
        assert buf[21..41] == buf[21..];
      }
    }
  }

  lemma CutFields(buf: seq<u8>)
    requires |buf| >= 21
    ensures buf[4..] == [buf[4]] + buf[5..9] + buf[9..13] + buf[13..17] + buf[17..21] + buf[21..]
    ensures [buf[4]] + buf[5..9] + buf[9..13] + buf[13..17] + buf[17..21] + [] ==
            [buf[4]] + buf[5..9] + buf[9..13] + buf[13..17] + buf[17..21]
  {
  }

  /** Exactly which buffers make `decode` index past the end. */
  lemma DecodePanics(buf: seq<u8>)
    ensures Decode(buf).DecodePanic? <==>
            |buf| == 4
            || (|buf| > 4 && buf[4] == REQUEST_ID && |buf| < 41)
            || (|buf| > 4 && buf[4] == PIECE_ID && |buf| < 9)
            || (|buf| > 4 && buf[4] == CANCEL_ID && |buf| < 21)
  {
  }

  /** Which message comes out of a buffer: the one whose body stands behind the prefix, whatever the prefix says. Behind
      the two fixed-size messages anything may follow. */
  lemma DecodeReads(buf: seq<u8>, m: Message)
    requires |buf| > 4
    ensures Decode(buf) == Parsed(m) <==> if m.Piece? then buf[4..] == Body(m) else Body(m) <= buf[4..]
  {
    hide Decode, Body, Frame;
    if (if m.Piece? then buf[4..] == Body(m) else Body(m) <= buf[4..]) {
      BodyId(m);
      PrefixIgnored(buf, Frame(m)[..4], 4 + |Body(m)|);
      assert Frame(m) == Frame(m)[..4] + buf[4..4 + |Body(m)|];
      DecodeFrame(m);
    }
    if Decode(buf) == Parsed(m) {
      ParsedBody(buf, m);
    }
  }

  lemma BodyId(m: Message)
    ensures Body(m)[0] == if m.Request? then REQUEST_ID else if m.Piece? then PIECE_ID else CANCEL_ID
  {
  }

  /** Only the bytes behind the prefix count, and of those no more than the message has. */
  lemma PrefixIgnored(buf: seq<u8>, prefix: seq<u8>, n: nat)
    requires |prefix| == 4 && 5 <= n <= |buf|
    requires (buf[4] == REQUEST_ID && n == 41) || (buf[4] == PIECE_ID && n == |buf| >= 9) ||
             (buf[4] == CANCEL_ID && n == 21)
    ensures Decode(prefix + buf[4..n]) == Decode(buf)
  {
    var b := prefix + buf[4..n];
    SliceBehind(buf, prefix, n, 5, 9);
    if buf[4] == PIECE_ID {
      SliceBehind(buf, prefix, n, 9, n);
      assert b[9..] == b[9..n] && buf[9..] == buf[9..n];
    } else {
      SliceBehind(buf, prefix, n, 9, 13);
      SliceBehind(buf, prefix, n, 13, 17);
      SliceBehind(buf, prefix, n, 17, 21);
      if n == 41 {
        SliceBehind(buf, prefix, n, 21, 41);
      }
    }
  }

  lemma SliceBehind(buf: seq<u8>, prefix: seq<u8>, n: nat, lo: nat, hi: nat)
    requires |prefix| == 4 && 4 < n <= |buf| && 4 <= lo <= hi <= n
    ensures (prefix + buf[4..n])[lo..hi] == buf[lo..hi] && (prefix + buf[4..n])[4] == buf[4]
  {
    var b := prefix + buf[4..n];
    assert forall i :: 4 <= i < n ==> b[i] == buf[i];
    assert |b[lo..hi]| == |buf[lo..hi]|;
    assert forall i :: 0 <= i < hi - lo ==> b[lo..hi][i] == buf[lo..hi][i];
  }

  lemma ParsedBody(buf: seq<u8>, m: Message)
    requires Decode(buf) == Parsed(m)
    ensures |buf| > 4 && if m.Piece? then buf[4..] == Body(m) else Body(m) <= buf[4..]
  {
    hide Body;
    var n := if m.Request? then 41 else if m.Piece? then |buf| else 21;
    var prefix := BigEndian(4, Wrap32(n - 4));
    var b := prefix + buf[4..n];
    PrefixIgnored(buf, prefix, n);
    assert b[0..4] == prefix && b[4] == buf[4] && b[4..] == buf[4..n];
    WordReads(b, 0, Wrap32(n - 4));
    BodyReads(b);
  }

  predicate HasId(m: Message, id: u8) {
    Body(m)[0] == id
  }

  /** What decides about a buffer of five bytes and more: it parses if some message with its id has a frame that is no
      longer, it makes `decode` panic if there are such messages but all their frames are longer, and no message comes
      out of it otherwise. A buffer of four bytes always panics. */
  lemma DecodeOutcome(buf: seq<u8>)
    ensures |buf| == 4 ==> Decode(buf).DecodePanic?
    ensures |buf| > 4 ==> (Decode(buf).Parsed? <==> exists m :: HasId(m, buf[4]) && |Frame(m)| <= |buf|)
    ensures |buf| > 4 ==> (Decode(buf).NoMessage? <==> !exists m :: HasId(m, buf[4]))
  {
    if |buf| > 4 {
      var d: Digest := seq(20, _ => 0);
      var shortest := [Request(0, 0, 0, 0, d), Piece(0, []), Cancel(0, 0, 0, 0)];
      assert HasId(shortest[0], REQUEST_ID) && HasId(shortest[1], PIECE_ID) && HasId(shortest[2], CANCEL_ID);
      assert forall m :: HasId(m, buf[4]) ==> buf[4] == IdOf(m);
    }
  }

  function IdOf(m: Message): (id: u8)
    ensures HasId(m, id)
  {
    match m case Request(_, _, _, _, _) => REQUEST_ID case Piece(_, _) => PIECE_ID case Cancel(_, _, _, _) => CANCEL_ID
  }

  /** Where the fields stand in a frame, each number with its most significant byte first. */
  lemma FrameLayout(m: Message)
    ensures Frame(m)[0..4] == BigEndian(4, Wrap32(|Frame(m)| - 4))
    ensures
      var f := Frame(m);
      match m
      case Request(seeder, index, begin, length, hash) =>
        && |f| == 41 && f[4] == 6 && f[5..9] == BigEndian(4, seeder) && f[9..13] == BigEndian(4, index)
        && f[13..17] == BigEndian(4, begin) && f[17..21] == BigEndian(4, length) && f[21..41] == hash
      case Piece(index, piece) => |f| == 9 + |piece| && f[4] == 7 && f[5..9] == BigEndian(4, index) && f[9..] == piece
      case Cancel(seeder, index, begin, length) =>
        && |f| == 21 && f[4] == 8 && f[5..9] == BigEndian(4, seeder) && f[9..13] == BigEndian(4, index)
        && f[13..17] == BigEndian(4, begin) && f[17..21] == BigEndian(4, length)
  {
    assert Frame(m)[0..4] == Frame(m)[..4];
    FieldsLayout(m, Frame(m));
  }
}
