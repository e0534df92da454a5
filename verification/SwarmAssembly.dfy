/** End to end: what the finished download leaves on disk compared with the seeder's file. */
module SwarmAssembly {
  import opened Base
  import opened Wire
  import opened Pieces
  import opened Chunker
  import PartFile
  import opened Swarm
  import opened SwarmTokens
  import opened SwarmProgress
  import opened SwarmTermination

  /** The info hash was made from `file`, which is not empty and at most 4 GiB long. */
  ghost predicate Genuine(cfg: Config, file: seq<u8>) {
    && cfg.conns > 0 && 0 < |file| <= U32_SIZE
    && Describes(cfg.info, file)
    && forall k :: 0 <= k < cfg.Count() ==> cfg.info.pieces[k] == cfg.digest(HashedBuffer(file, cfg.PL(), k))
  }

  /** No other full-length payload has the hash of an expected one. */
  ghost predicate CollisionFree(cfg: Config, file: seq<u8>) {
    forall k, p :: 0 <= k < cfg.Count() && |p| == cfg.PL() && cfg.digest(p) == cfg.info.pieces[k]
      ==> p == HashedBuffer(file, cfg.PL(), k)
  }

  lemma GenuineIsValid(cfg: Config, file: seq<u8>)
    requires Genuine(cfg, file)
    ensures Valid(cfg)
  {
    IndexInRange(|file|, cfg.PL(), 0);
    IndexInRange(|file|, cfg.PL(), U32_SIZE);
    OffsetIsProduct(cfg.PL(), U32_SIZE);
  }

  /** What the reassembly loop writes without complaint: any payload that is not a full piece, and a full one
      with the expected hash. */
  predicate Accepts(cfg: Config, k: nat, p: seq<u8>)
    requires k < cfg.Count()
  {
    |p| == cfg.PL() ==> cfg.digest(p) == cfg.info.pieces[k]
  }

  /** A payload shorter than a piece that is not the chunk, or the padded image of a short last chunk. */
  predicate Forged(cfg: Config, file: seq<u8>, k: nat, p: seq<u8>) {
    var chunk := Chunk(file, cfg.PL(), k);
    (|p| != cfg.PL() && p != chunk) || (|chunk| < |p| == cfg.PL() && p == HashedBuffer(file, cfg.PL(), k))
  }

  /** A wrong payload is accepted exactly if it is forged. */
  lemma WronglyAcceptedIff(cfg: Config, file: seq<u8>, k: nat, p: seq<u8>)
    requires Genuine(cfg, file) && CollisionFree(cfg, file) && k < cfg.Count()
    ensures Accepts(cfg, k, p) && p != Chunk(file, cfg.PL(), k) <==> Forged(cfg, file, k, p)
  {
    FullPieceHashed(file, cfg.PL(), k);
    PieceLengths(|file|, cfg.PL(), k);
  }

  predicate ForgedReply(cfg: Config, file: seq<u8>, m: Message) {
    m.Piece? && Forged(cfg, file, m.index, m.piece)
  }

  ghost predicate NoneForged(cfg: Config, file: seq<u8>, s: State) {
    && (forall j :: 0 <= j < |s.conns| && s.conns[j].phase.Replying? ==> !ForgedReply(cfg, file, s.conns[j].phase.msg))
    && (forall i :: 0 <= i < |s.replies| ==> !ForgedReply(cfg, file, s.replies[i]))
  }

  /** Nothing forged is under way and what is on disk agrees with the file. */
  ghost predicate Clean(cfg: Config, file: seq<u8>, s: State) {
    PartFile.Faithful(cfg.PL(), file, s.part) && NoneForged(cfg, file, s)
  }

  predicate Trusted(cfg: Config, file: seq<u8>, ev: Event) {
    ev.PeerReplies? ==> !ForgedReply(cfg, file, ev.reply)
  }

  lemma StepClean(cfg: Config, file: seq<u8>, s: State, ev: Event)
    requires Genuine(cfg, file) && CollisionFree(cfg, file) && Trusted(cfg, file, ev)
    requires Inv(cfg, s) && Clean(cfg, file, s) && Enabled(cfg, s, ev) && !Aborted(Step(cfg, s, ev))
    ensures Clean(cfg, file, Step(cfg, s, ev))
  {
    hide Genuine, CollisionFree, PartFile.Faithful, Trusted, NoneForged, Step, Enabled, Inv;
    if ev.ReceiverTakes? {
      ReceiveClean(cfg, file, s);
    } else {
      OnlyReceivingWrites(cfg, s, ev);
    }
    StepNoneForged(cfg, file, s, ev);
  }

  lemma StepNoneForged(cfg: Config, file: seq<u8>, s: State, ev: Event)
    requires Trusted(cfg, file, ev) && NoneForged(cfg, file, s) && Enabled(cfg, s, ev)
    ensures NoneForged(cfg, file, Step(cfg, s, ev))
  {
    hide Forged;
  }

  lemma OnlyReceivingWrites(cfg: Config, s: State, ev: Event)
    requires Enabled(cfg, s, ev) && !ev.ReceiverTakes?
    ensures Step(cfg, s, ev).part == s.part
  {
  }

  lemma ReceiveClean(cfg: Config, file: seq<u8>, s: State)
    requires Genuine(cfg, file) && CollisionFree(cfg, file)
    requires Inv(cfg, s) && Clean(cfg, file, s) && Enabled(cfg, s, ReceiverTakes)
    requires !Aborted(Step(cfg, s, ReceiverTakes))
    ensures PartFile.Faithful(cfg.PL(), file, Step(cfg, s, ReceiverTakes).part)
  {
    hide Genuine, CollisionFree, PartFile.Faithful, Forged, Tokens, ConnsTyped, SlotsOpen;
    hide PartFile.Apply, PartFile.AllOnes;
    var m := s.replies[0];
    assert !ForgedReply(cfg, file, m);
    if m.Piece? && Step(cfg, s, ReceiverTakes).part != s.part {
      assert Accepts(cfg, m.index, m.piece);
      WronglyAcceptedIff(cfg, file, m.index, m.piece);
      WriteClean(cfg, file, s.part, m.index);
    }
  }

  lemma WriteClean(cfg: Config, file: seq<u8>, part: PartFile.Part, k: nat)
    requires Genuine(cfg, file) && k < cfg.Count() == |part.status| && PartFile.Faithful(cfg.PL(), file, part)
    ensures
      var c := Chunk(file, cfg.PL(), k);
      PartFile.Faithful(cfg.PL(), file, PartFile.WritePiece(cfg.PL(), part, k, c))
  {
    IndexInRange(|file|, cfg.PL(), k);
    PartFile.FaithfulWrite(cfg.PL(), file, part, k);
  }

  lemma {:induction false} RunClean(cfg: Config, file: seq<u8>, s: State, evs: seq<Event>)
    requires Genuine(cfg, file) && CollisionFree(cfg, file) && forall ev :: ev in evs ==> Trusted(cfg, file, ev)
    requires Inv(cfg, s) && Clean(cfg, file, s) && IsRun(cfg, s, evs) && !Aborted(After(cfg, s, evs))
    ensures Clean(cfg, file, After(cfg, s, evs))
    decreases |evs|
  {
    hide Step, Enabled, Inv, Clean, Genuine, CollisionFree, Trusted, Aborted;
    if evs != [] {
      GenuineIsValid(cfg, file);
      NotAbortedYet(cfg, s, evs);
      StepInv(cfg, s, evs[0]);
      StepClean(cfg, file, s, evs[0]);
      RunClean(cfg, file, Step(cfg, s, evs[0]), evs[1..]);
    }
  }

  /** Once the receiver has finished, nothing can abort any more. */
  lemma FinishedIsNoAbort(cfg: Config, evs: seq<Event>)
    requires Valid(cfg) && IsRun(cfg, Initial(cfg), evs) && After(cfg, Initial(cfg), evs).receiver.Finished?
    ensures !Aborted(After(cfg, Initial(cfg), evs))
  {
    hide Step, Enabled, Inv;
    InitialInv(cfg);
    RunFinished(cfg, Initial(cfg), evs);
  }

  lemma {:induction false} RunFinished(cfg: Config, s: State, evs: seq<Event>)
    requires Valid(cfg) && Inv(cfg, s) && !Aborted(s) && IsRun(cfg, s, evs)
    requires After(cfg, s, evs).receiver.Finished?
    ensures !Aborted(After(cfg, s, evs))
    decreases |evs|
  {
    hide Step, Enabled, Inv, Valid, Aborted;
    if evs != [] {
      var t := Step(cfg, s, evs[0]);
      if Aborted(t) {
        assert evs[1..] == [] by { NothingAfterAbort(cfg, t, evs[1..]); }
        FinishingStep(cfg, s, evs[0]);
      } else {
        StepInv(cfg, s, evs[0]);
        RunFinished(cfg, t, evs[1..]);
      }
    }
  }

  lemma NothingAfterAbort(cfg: Config, s: State, evs: seq<Event>)
    requires Aborted(s) && IsRun(cfg, s, evs)
    ensures evs == []
  {
  }

  /** When the receiver has finished, the sender holds nothing it could crash with. */
  lemma FinishingStep(cfg: Config, s: State, ev: Event)
    requires Inv(cfg, s) && Enabled(cfg, s, ev) && Step(cfg, s, ev).receiver.Finished?
    ensures !Aborted(Step(cfg, s, ev))
  {
    hide OneEach, Tokens, ConnsTyped, RepliesTyped, SlotsOpen, PartFile.Apply, PartFile.AllOnes;
    DoneIsEmpty(cfg, s);
    if Done(s.receiver) {
      SenderIdle(cfg, s);
    }
  }

  /** In any arrival order and after any resends: if no reply was forged, a finished download has built
      the seeder's file byte for byte. */
  lemma EndToEnd(cfg: Config, file: seq<u8>, evs: seq<Event>)
    requires Genuine(cfg, file) && CollisionFree(cfg, file) && forall ev :: ev in evs ==> Trusted(cfg, file, ev)
    requires IsRun(cfg, Initial(cfg), evs) && After(cfg, Initial(cfg), evs).receiver.Finished?
    ensures After(cfg, Initial(cfg), evs).built == Some(file)
  {
    hide Step, Enabled, CollisionFree, Trusted, Tokens, Typed, SlotsOpen;
    GenuineIsValid(cfg, file);
    FinishedIsNoAbort(cfg, evs);
    InitialInv(cfg);
    RunInv(cfg, Initial(cfg), evs);
    RunClean(cfg, file, Initial(cfg), evs);
    PartFile.FaithfulComplete(cfg.PL(), file, After(cfg, Initial(cfg), evs).part);
  }

  /** Total correctness: under any schedule a download of at most 302 pieces comes to an end, and if it has
      not aborted, with the seeder's file in place. */
  lemma DownloadCorrect(cfg: Config, file: seq<u8>, evs: seq<Event>)
    requires Genuine(cfg, file) && CollisionFree(cfg, file) && forall ev :: ev in evs ==> Trusted(cfg, file, ev)
    requires cfg.Count() <= 302 && IsRun(cfg, Initial(cfg), evs)
    ensures
      var s := After(cfg, Initial(cfg), evs);
      WithinBound(cfg, evs) && (Stuck(cfg, s) && !Aborted(s) ==> s.built == Some(file))
  {
    hide Step, Enabled, Genuine, CollisionFree, Trusted;
    GenuineIsValid(cfg, file);
    DownloadEnds(cfg, evs);
    var s := After(cfg, Initial(cfg), evs);
    if Stuck(cfg, s) && !Aborted(s) {
      EndToEnd(cfg, file, evs);
    }
  }

  lemma SenderIdle(cfg: Config, s: State)
    requires Tokens(cfg, s) == multiset{} && SenderTyped(cfg, s.sender)
    ensures s.sender.Starting? ==> s.sender.next == cfg.Count()
    ensures !s.sender.SendingFirst? && !s.sender.Choosing? && !s.sender.Addressing? && !s.sender.SendingAgain?
  {
    BagPartOfTokens(cfg, s);
    if s.sender.Starting? || s.sender.SendingFirst? {
      RangeSize(s.sender.next, cfg.Count());
    }
  }
}
