/** One request and its reply as bytes on a stream: the seeder's side (`send_data`) and the
    leecher's side (`recv_data`) of client/src/quic_p2p_sender.rs. */
module Exchange {
  import opened Base
  import opened Wire
  import opened Pieces
  import opened Chunker
  import opened Swarm
  import opened SwarmTokens
  import opened SwarmTermination
  import opened SwarmAssembly

  /** The seeder's answer to the 41 bytes it has read: a framed message, an error that ends the connection,
      or a panic. `files` maps names to contents; opening a missing file creates it empty. */
  function Serve(shared: map<Digest, InfoHash>, files: map<string, seq<u8>>, request: seq<u8>): Outcome<seq<u8>> {
    match Decode(request)
    case DecodePanic => Panic
    case NoMessage => Error
    case Parsed(m) => if m.Request? then Respond(shared, files, m) else Error
  }

  function Respond(shared: map<Digest, InfoHash>, files: map<string, seq<u8>>, m: Message): Outcome<seq<u8>>
    requires m.Request?
  {
    if m.hash !in shared then Ok(Frame(CancelOf(m)))
    else
      var info := shared[m.hash];
      match PieceRead(info, if info.name in files then files[info.name] else [], m.index)
      case Ok(piece) => Ok(Frame(Piece(m.index, piece)))
      case Error => Ok(Frame(CancelOf(m)))
      case Panic => Panic
  }

  /** The leecher reads to the end of the stream, but at most `length + 9` bytes, and decodes. */
  function ReadReply(length: u32, bytes: seq<u8>): Outcome<Message> {
    if |bytes| > length + 9 then Error
    else
      match Decode(bytes)
      case DecodePanic => Panic
      case NoMessage => Error
      case Parsed(m) => Ok(m)
  }

  /** The fixed-size read takes in exactly a request, and whatever arrives in it cannot make `decode` panic. */
  lemma RequestFits(m: Message, buf: seq<u8>)
    ensures m.Request? <==> |Frame(m)| == 41 && Frame(m)[4] == REQUEST_ID
    ensures |buf| == 41 ==> !Decode(buf).DecodePanic?
  {
    assert Frame(m)[4] == Frame(m)[4..][0];
  }

  /** A framed reply arrives intact exactly if it fits the read limit: a piece no longer than asked for,
      a Cancel if at least twelve bytes were asked for. */
  lemma ReplyArrives(length: u32, m: Message)
    ensures ReadReply(length, Frame(m)) == Ok(m) <==>
      match m
      case Piece(_, p) => |p| <= length
      case Cancel(_, _, _, _) => length >= 12
      case Request(_, _, _, _, _) => length >= 32
  {
    DecodeFrame(m);
  }

  /** Whatever the peer sends, an accepted piece is no longer than the piece asked for, so writing it
      cannot reach into the next slot. */
  lemma NoSpill(cfg: Config, bytes: seq<u8>, k: u32, p: seq<u8>, j: nat)
    requires ReadReply(cfg.PL(), bytes) == Ok(Piece(k, p)) && j > k
    ensures Offset(cfg.PL(), k) + |p| <= Offset(cfg.PL(), j)
  {
    OffsetsApart(cfg.PL(), k, j);
  }

  /** The protocol's reply step is what an honest seeder's bytes amount to. A seeder that shares the file
      answers every request on the ring with the piece asked for, which passes the read limit, is accepted
      and is neither forged nor corrupted; one that does not share it answers with the matching Cancel. */
  lemma HonestExchange(
    cfg: Config, file: seq<u8>, req: Message, shared: map<Digest, InfoHash>, files: map<string, seq<u8>>)
    requires Genuine(cfg, file) && IsRequest(cfg, req)
    requires cfg.key in shared ==> shared[cfg.key] == cfg.info && cfg.info.name in files && files[cfg.info.name] == file
    ensures
      var served := Serve(shared, files, Frame(req));
      && served.Ok?
      && var got := ReadReply(req.length, served.value);
      && got.Ok? && AnswerTo(req, got.value)
      && got.value == (if cfg.key in shared then Piece(req.index, Chunk(file, cfg.PL(), req.index)) else CancelOf(req))
      && (got.value.Piece? ==>
            && Accepts(cfg, req.index, got.value.piece)
            && !Forged(cfg, file, req.index, got.value.piece)
            && !Corrupted(cfg, got.value))
  {
    DecodeFrame(req);
    if cfg.key in shared {
      var chunk := Chunk(file, cfg.PL(), req.index);
      ReadIsChunk(cfg.info, file, req.index);
      PieceLengths(|file|, cfg.PL(), req.index);
      FullPieceHashed(file, cfg.PL(), req.index);
      ReplyArrives(req.length, Piece(req.index, chunk));
    } else {
      ReplyArrives(req.length, CancelOf(req));
    }
  }

  /** How many bytes piece `index` has: the last one ends with the file. Negative if the info hash has more pieces than
      its file length can fill. */
  function Extent(info: InfoHash, index: u32): int {
    if index + 1 == |info.pieces| then info.fileLength - info.pieceLength * index else info.pieceLength
  }

  /** What a seeder answers, whatever it shares and whatever has become of its files: the bytes of the piece if they lie
      inside the file found, the matching Cancel if they do not or the file is not shared, a panic only for an info
      hash that contradicts itself. */
  lemma ServeOutcome(shared: map<Digest, InfoHash>, files: map<string, seq<u8>>, m: Message)
    requires m.Request?
    ensures
      var served := Serve(shared, files, Frame(m));
      if m.hash !in shared then served == Ok(Frame(CancelOf(m)))
      else
        var info := shared[m.hash];
        var content := if info.name in files then files[info.name] else [];
        var at, length := info.pieceLength * m.index % U32_SIZE, Extent(info, m.index);
        if length < 0 then served == Panic
        else if length == 0 then served == Ok(Frame(Piece(m.index, [])))
        else if at + length <= |content| then served == Ok(Frame(Piece(m.index, content[at..at + length])))
        else served == Ok(Frame(CancelOf(m)))
  {
    hide Frame, Decode;
    DecodeFrame(m);
  }

  /** In particular a truncated or deleted file is answered with a Cancel, also for the last piece. */
  lemma MissingPieceIsCancelled(
    info: InfoHash, file: seq<u8>, shared: map<Digest, InfoHash>, files: map<string, seq<u8>>, m: Message)
    requires Describes(info, file) && |file| <= U32_SIZE && m.Request? && m.index < |info.pieces|
    requires m.hash in shared && shared[m.hash] == info
    ensures
      var content := if info.name in files then files[info.name] else [];
      Serve(shared, files, Frame(m)) == Ok(Frame(CancelOf(m))) <==>
        |content| < Offset(info.pieceLength, m.index) + |Chunk(file, info.pieceLength, m.index)|
  {
    hide Frame, Serve, Extent, Offset, Chunk, CancelOf, Describes;
    ExtentIsChunk(info, file, m.index);
    ServeOutcome(shared, files, m);
    AnswersDiffer(m);
  }

  lemma ExtentIsChunk(info: InfoHash, file: seq<u8>, index: u32)
    requires Describes(info, file) && |file| <= U32_SIZE && index < |info.pieces|
    ensures Extent(info, index) == |Chunk(file, info.pieceLength, index)| > 0
    ensures info.pieceLength * index % U32_SIZE == Offset(info.pieceLength, index)
  {
    PieceLengths(|file|, info.pieceLength, index);
    OffsetIsProduct(info.pieceLength, index);
    hide Offset;
  }

  lemma AnswersDiffer(m: Message)
    requires m.Request?
    ensures forall p :: Frame(Piece(m.index, p)) != Frame(CancelOf(m))
  {
    forall p ensures Frame(Piece(m.index, p)) != Frame(CancelOf(m)) {
      DecodeFrame(Piece(m.index, p));
      DecodeFrame(CancelOf(m));
    }
  }

  /** Anything else in the 41 bytes ends the connection with an error. */
  lemma OthersRefused(shared: map<Digest, InfoHash>, files: map<string, seq<u8>>, buf: seq<u8>)
    requires |buf| == 41
    ensures Serve(shared, files, buf).Error? <==> buf[4] != REQUEST_ID
  {
  }

  /** How the leecher takes whatever comes back: too long or no message is an error, and only a buffer that makes the
      decoder panic ends the task. */
  lemma ReadReplyOutcome(length: u32, bytes: seq<u8>)
    ensures ReadReply(length, bytes).Error? <==> |bytes| > length + 9 || Decode(bytes).NoMessage?
    ensures ReadReply(length, bytes).Panic? <==> |bytes| <= length + 9 && Decode(bytes).DecodePanic?
  {
  }
}
