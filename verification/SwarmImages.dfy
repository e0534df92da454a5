/** Exactly which downloads build the seeder's file: what was accepted decides, in whatever order it came. */
module SwarmImages {
  import opened Base
  import opened Wire
  import opened Pieces
  import opened PartImages
  import PartFile
  import opened Swarm
  import opened SwarmTokens
  import opened SwarmSchedules
  import opened SwarmAssembly

  /** The payload this step writes to disk, if it writes one. */
  function AcceptedBy(cfg: Config, s: State, ev: Event): Payloads
    requires Enabled(cfg, s, ev)
  {
    if WrittenBy(cfg, s, ev) != [] then map[s.replies[0].index := s.replies[0].piece] else map[]
  }

  /** What a run writes to disk, by index. */
  function Accepted(cfg: Config, s: State, evs: seq<Event>): Payloads
    requires IsRun(cfg, s, evs)
    decreases |evs|
  {
    if evs == [] then map[] else AcceptedBy(cfg, s, evs[0]) + Accepted(cfg, Step(cfg, s, evs[0]), evs[1..])
  }

  lemma StepImage(cfg: Config, w: Payloads, s: State, ev: Event)
    requires Valid(cfg) && Inv(cfg, s) && Enabled(cfg, s, ev) && !Aborted(Step(cfg, s, ev))
    requires PartFile.OffsetsInRange(cfg.PL(), cfg.Count())
    requires Image(cfg.PL(), cfg.Count(), w, s.part)
    ensures Image(cfg.PL(), cfg.Count(), w + AcceptedBy(cfg, s, ev), Step(cfg, s, ev).part)
  {
    hide Image, Inv, Valid;
    if WrittenBy(cfg, s, ev) != [] {
      ReceiveImage(cfg, w, s);
    } else {
      assert w + map[] == w;
      if ev.ReceiverTakes? {
        NothingWritten(cfg, s);
      } else {
        OnlyReceivingWrites(cfg, s, ev);
      }
    }
  }

  lemma NothingWritten(cfg: Config, s: State)
    requires Enabled(cfg, s, ReceiverTakes) && WrittenBy(cfg, s, ReceiverTakes) == []
    ensures Step(cfg, s, ReceiverTakes).part == s.part
  {
  }

  /** The piece written is one whose status byte was still 0. */
  lemma ReceiveImage(cfg: Config, w: Payloads, s: State)
    requires Valid(cfg) && Inv(cfg, s) && Enabled(cfg, s, ReceiverTakes) && !Aborted(Step(cfg, s, ReceiverTakes))
    requires PartFile.OffsetsInRange(cfg.PL(), cfg.Count())
    requires Image(cfg.PL(), cfg.Count(), w, s.part) && WrittenBy(cfg, s, ReceiverTakes) != []
    ensures Image(cfg.PL(), cfg.Count(), w + AcceptedBy(cfg, s, ReceiverTakes), Step(cfg, s, ReceiverTakes).part)
  {
    hide Image, Inv, Step, PartFile.WritePiece;
    var m := s.replies[0];
    var k: nat := m.index;
    IsUnwritten(cfg, s);
    StatusOfIndex(cfg, w, s.part, k);
    WriteImage(cfg.PL(), cfg.Count(), w, s.part, k, m.piece);
    assert w + map[k := m.piece] == w[k := m.piece];
    ReceiveWrites(cfg, s);
  }

  lemma ReceiveWrites(cfg: Config, s: State)
    requires Enabled(cfg, s, ReceiverTakes) && !Aborted(Step(cfg, s, ReceiverTakes))
    requires WrittenBy(cfg, s, ReceiverTakes) != []
    ensures Step(cfg, s, ReceiverTakes).part ==
              PartFile.WritePiece(cfg.PL(), s.part, s.replies[0].index, s.replies[0].piece)
  {
    hide PartFile.Apply, PartFile.AllOnes;
  }

  lemma IsUnwritten(cfg: Config, s: State)
    requires Inv(cfg, s) && Enabled(cfg, s, ReceiverTakes)
    ensures IsReply(cfg, s.replies[0]) && s.part.status[s.replies[0].index] == 0
  {
    hide ConnsTyped, SlotsOpen, Shaped;
    var k := s.replies[0].index;
    assert IsReply(cfg, s.replies[0]);
    BagPop(s.replies);
    assert Tokens(cfg, s)[k] > 0 by {
      hide Bag, SenderBag, ReceiverBag, ConnsBag;
    }
  }

  lemma StatusOfIndex(cfg: Config, w: Payloads, part: PartFile.Part, k: nat)
    requires Image(cfg.PL(), cfg.Count(), w, part) && k < cfg.Count()
    ensures |part.status| == cfg.Count() && (k in w <==> part.status[k] == 1)
  {
  }

  lemma {:induction false} RunImage(cfg: Config, w: Payloads, s: State, evs: seq<Event>)
    requires Valid(cfg) && Inv(cfg, s) && IsRun(cfg, s, evs) && !Aborted(After(cfg, s, evs))
    requires PartFile.OffsetsInRange(cfg.PL(), cfg.Count())
    requires Image(cfg.PL(), cfg.Count(), w, s.part)
    ensures Image(cfg.PL(), cfg.Count(), w + Accepted(cfg, s, evs), After(cfg, s, evs).part)
    decreases |evs|
  {
    hide Step, Enabled, Inv, Valid, Image, Aborted, AcceptedBy, PartFile.OffsetsInRange;
    if evs == [] {
      assert w + map[] == w;
    } else {
      var t, a := Step(cfg, s, evs[0]), AcceptedBy(cfg, s, evs[0]);
      NotAbortedYet(cfg, s, evs);
      StepInv(cfg, s, evs[0]);
      StepImage(cfg, w, s, evs[0]);
      RunImage(cfg, w + a, t, evs[1..]);
      MapsAdd(w, a, Accepted(cfg, t, evs[1..]));
    }
  }

  lemma MapsAdd(a: Payloads, b: Payloads, c: Payloads)
    ensures a + b + c == a + (b + c)
  {
  }

  /** A finished download has built the seeder's file if and only if every payload it accepted is the chunk, up to
      zeros missing at the end of a payload that is not the last. */
  lemma EndToEndIff(cfg: Config, file: seq<u8>, evs: seq<Event>)
    requires Genuine(cfg, file) && IsRun(cfg, Initial(cfg), evs) && After(cfg, Initial(cfg), evs).receiver.Finished?
    ensures After(cfg, Initial(cfg), evs).built == Some(file)
            <==> Right(cfg.PL(), file, Accepted(cfg, Initial(cfg), evs))
  {
    hide Step, Enabled, Right, Image, Tokens, Typed, SlotsOpen;
    var s := After(cfg, Initial(cfg), evs);
    GenuineIsValid(cfg, file);
    FinishedIsNoAbort(cfg, evs);
    InitialInv(cfg);
    RunInv(cfg, Initial(cfg), evs);
    EmptyImage(cfg.PL(), cfg.Count());
    AllOffsetsFit(cfg, file);
    RunImage(cfg, map[], Initial(cfg), evs);
    assert map[] + Accepted(cfg, Initial(cfg), evs) == Accepted(cfg, Initial(cfg), evs);
    ImageIsFileIff(cfg.PL(), file, Accepted(cfg, Initial(cfg), evs), s.part);
  }

  lemma AllOffsetsFit(cfg: Config, file: seq<u8>)
    requires Genuine(cfg, file)
    ensures PartFile.OffsetsInRange(cfg.PL(), cfg.Count())
  {
    forall k: nat | k < cfg.Count() ensures Offset(cfg.PL(), k) < U32_SIZE {
      IndexInRange(|file|, cfg.PL(), k);
    }
  }

  /** One payload for every piece, each of which the reassembly loop accepts. */
  ghost predicate Acceptable(cfg: Config, w: seq<seq<u8>>) {
    |w| == cfg.Count() && forall k :: 0 <= k < |w| ==> |w[k]| <= cfg.PL() && Accepts(cfg, k, w[k])
  }

  function FirstPayloads(w: seq<seq<u8>>, i: nat): Payloads
    requires i <= |w|
  {
    map k: nat | k < i :: w[k]
  }

  /** An acceptable answer to request `i` is written. */
  lemma Accepting(cfg: Config, w: seq<seq<u8>>, i: nat, part: PartFile.Part)
    requires Valid(cfg) && Acceptable(cfg, w) && i < cfg.Count()
    requires Reaches(cfg, [], Initial(cfg), Round(cfg, i, [], part)) && |part.status| == cfg.Count()
    ensures
      var part' := PartFile.WritePiece(cfg.PL(), part, i, w[i]);
      Reaches(cfg, [], Initial(cfg), Round(cfg, i + 1, [], part').(
        receiver := if PartFile.AllOnes(part'.status) then AllWritten else Receiving))
  {
    hide Reaches, Initial, PartFile.Apply, PartFile.AllOnes;
    Asks(cfg, Initial(cfg), i, [], part, w[i]);
    var s := Round(cfg, i + 1, [], part).(replies := [Piece(i, w[i])]);
    Then(cfg, [], Initial(cfg), s, ReceiverTakes);
    assert s.replies[1..] == [];
  }

  lemma {:induction false} FetchesFirst(cfg: Config, w: seq<seq<u8>>, i: nat) returns (part: PartFile.Part)
    requires Valid(cfg) && PartFile.OffsetsInRange(cfg.PL(), cfg.Count()) && Acceptable(cfg, w) && i < cfg.Count()
    ensures Reaches(cfg, [], Initial(cfg), Round(cfg, i, [], part))
    ensures Image(cfg.PL(), cfg.Count(), FirstPayloads(w, i), part)
  {
    hide Reaches, Initial, Round, Image, Valid, PartFile.WritePiece;
    if i == 0 {
      part := PartFile.Empty(cfg.Count());
      InitialIsRound(cfg);
      ReachesSelf(cfg, Initial(cfg));
      EmptyImage(cfg.PL(), cfg.Count());
      assert FirstPayloads(w, 0) == map[];
    } else {
      var before := FetchesFirst(cfg, w, i - 1);
      part := PartFile.WritePiece(cfg.PL(), before, i - 1, w[i - 1]);
      NextImage(cfg, w, i - 1, before);
      Accepting(cfg, w, i - 1, before);
      ImageAllOnes(cfg, FirstPayloads(w, i), part, i);
      SameRound(cfg, i, part);
    }
  }

  lemma SameRound(cfg: Config, i: nat, part: PartFile.Part)
    ensures Round(cfg, i, [], part).(receiver := Receiving) == Round(cfg, i, [], part)
  {
  }

  lemma NextImage(cfg: Config, w: seq<seq<u8>>, i: nat, part: PartFile.Part)
    requires Acceptable(cfg, w) && i < cfg.Count() && PartFile.OffsetsInRange(cfg.PL(), cfg.Count())
    requires Image(cfg.PL(), cfg.Count(), FirstPayloads(w, i), part)
    ensures |part.status| == cfg.Count()
    ensures Image(cfg.PL(), cfg.Count(), FirstPayloads(w, i + 1), PartFile.WritePiece(cfg.PL(), part, i, w[i]))
  {
    hide PartFile.WritePiece;
    StatusOfIndex(cfg, FirstPayloads(w, i), part, i);
    WriteImage(cfg.PL(), cfg.Count(), FirstPayloads(w, i), part, i, w[i]);
    assert FirstPayloads(w, i)[i := w[i]] == FirstPayloads(w, i + 1);
  }

  /** The status bytes are all set exactly when every index has its payload. */
  lemma ImageAllOnes(cfg: Config, w: Payloads, part: PartFile.Part, i: nat)
    requires Image(cfg.PL(), cfg.Count(), w, part) && i <= cfg.Count() && forall k: nat :: k in w <==> k < i
    ensures PartFile.AllOnes(part.status) <==> i == cfg.Count()
  {
    if i < cfg.Count() {
      assert i !in w;
    }
  }

  /** Whatever is acceptable can be what a download accepts, over any number of connections; and the file it builds is
      the seeder's exactly if those payloads are right. */
  lemma AcceptableIsBuilt(cfg: Config, file: seq<u8>, w: seq<seq<u8>>) returns (t: State)
    requires Genuine(cfg, file) && !cfg.targetExists && Acceptable(cfg, w)
    ensures Reaches(cfg, [], Initial(cfg), t) && t.receiver.Finished?
    ensures t.built == Some(file) <==> Right(cfg.PL(), file, FirstPayloads(w, cfg.Count()))
  {
    hide Reaches, Initial, Image, Right, PartFile.WritePiece;
    GenuineIsValid(cfg, file);
    AllOffsetsFit(cfg, file);
    var n := cfg.Count();
    var before := FetchesFirst(cfg, w, n - 1);
    var part := PartFile.WritePiece(cfg.PL(), before, n - 1, w[n - 1]);
    NextImage(cfg, w, n - 1, before);
    Accepting(cfg, w, n - 1, before);
    ImageAllOnes(cfg, FirstPayloads(w, n), part, n);
    t := Finishes(cfg, part);
    ImageIsFileIff(cfg.PL(), file, FirstPayloads(w, n), part);
  }

  lemma Finishes(cfg: Config, part: PartFile.Part) returns (t: State)
    requires !cfg.targetExists
    requires Reaches(cfg, [], Initial(cfg), Round(cfg, cfg.Count(), [], part).(receiver := AllWritten))
    ensures Reaches(cfg, [], Initial(cfg), t) && t.receiver.Finished? && t.built == Some(part.data)
  {
    hide Reaches, Initial;
    var s := Round(cfg, cfg.Count(), [], part).(receiver := AllWritten);
    Then(cfg, [], Initial(cfg), s, ReceiverQueues);
    var u := s.(receiver := AwaitDrain);
    Then(cfg, [], Initial(cfg), u, ReceiverWrites);
    var v := u.(receiver := Drained, slots := []);
    Then(cfg, [], Initial(cfg), v, ReceiverBuilds);
    t := Step(cfg, v, ReceiverBuilds);
  }
}
