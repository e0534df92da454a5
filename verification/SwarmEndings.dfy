/** How downloads end: all tasks of a finished one stop, one whose file is already in place fails, and one without
    connections or without pieces does not even begin. */
module SwarmEndings {
  import opened Base
  import opened Wire
  import opened Pieces
  import opened Chunker
  import PartFile
  import opened Swarm
  import opened SwarmTokens
  import opened SwarmProgress
  import opened SwarmSchedules
  import opened SwarmJams
  import opened SwarmAssembly
  import opened SwarmImages

  /** Once the slots have been drained, none is left, and a file is built only where there was none. */
  predicate Drains(cfg: Config, s: State) {
    && (ResendClosed(s) ==> s.slots == [])
    && (s.receiver.Finished? || s.built.Some? ==> !cfg.targetExists)
  }

  lemma StepDrains(cfg: Config, s: State, ev: Event)
    requires Drains(cfg, s) && Enabled(cfg, s, ev)
    ensures Drains(cfg, Step(cfg, s, ev))
  {
    hide PartFile.Apply, PartFile.AllOnes, FirstRequest, RepeatRequest;
  }

  lemma {:induction false} RunDrains(cfg: Config, s: State, evs: seq<Event>)
    requires Drains(cfg, s) && IsRun(cfg, s, evs)
    ensures Drains(cfg, After(cfg, s, evs))
    decreases |evs|
  {
    hide Step, Enabled, Drains;
    if evs != [] {
      StepDrains(cfg, s, evs[0]);
      RunDrains(cfg, Step(cfg, s, evs[0]), evs[1..]);
    }
  }

  /** With a file of that name in place no run finishes or builds anything. */
  lemma TargetInTheWay(cfg: Config, evs: seq<Event>)
    requires cfg.targetExists && IsRun(cfg, Initial(cfg), evs)
    ensures !After(cfg, Initial(cfg), evs).receiver.Finished? && After(cfg, Initial(cfg), evs).built == None
  {
    hide Step, Enabled;
    RunDrains(cfg, Initial(cfg), evs);
  }

  /** A download of a real file can finish if and only if no file of that name is in place. */
  lemma CanFinishIff(cfg: Config, file: seq<u8>)
    requires Genuine(cfg, file)
    ensures (exists failed, t :: Reaches(cfg, failed, Initial(cfg), t) && t.receiver.Finished?) <==> !cfg.targetExists
  {
    hide Step, Enabled, Initial;
    if cfg.targetExists {
      forall failed, t | Reaches(cfg, failed, Initial(cfg), t) ensures !t.receiver.Finished? {
        var evs :| Leads(cfg, failed, Initial(cfg), evs, t);
        TargetInTheWay(cfg, evs);
      }
    } else {
      ChunksAcceptable(cfg, file);
      var t := AcceptableIsBuilt(cfg, file, Chunks(file, cfg.PL()));
    }
  }

  lemma ChunksAcceptable(cfg: Config, file: seq<u8>)
    requires Genuine(cfg, file)
    ensures Acceptable(cfg, Chunks(file, cfg.PL()))
  {
    forall k | 0 <= k < cfg.Count()
      ensures |Chunk(file, cfg.PL(), k)| <= cfg.PL() && Accepts(cfg, k, Chunk(file, cfg.PL(), k))
    {
      FullPieceHashed(file, cfg.PL(), k);
      PieceLengths(|file|, cfg.PL(), k);
    }
  }

  /** Nothing keeps running: when a finished download has come to rest, the sender has stopped, and every connection has
      noticed that its queue is closed and closed itself. */
  lemma FinishedTasksStop(cfg: Config, evs: seq<Event>)
    requires Valid(cfg) && IsRun(cfg, Initial(cfg), evs)
    requires After(cfg, Initial(cfg), evs).receiver.Finished? && Stuck(cfg, After(cfg, Initial(cfg), evs))
    ensures
      var s := After(cfg, Initial(cfg), evs);
      && s.sender.SenderDone? && s.replies == s.resends == []
      && |s.conns| == cfg.conns
      && forall j :: 0 <= j < |s.conns| ==> s.conns[j] == Connection([], Closed)
  {
    hide Step, Enabled, Inv;
    var s := After(cfg, Initial(cfg), evs);
    FinishedIsNoAbort(cfg, evs);
    InitialInv(cfg);
    RunInv(cfg, Initial(cfg), evs);
    RunDrains(cfg, Initial(cfg), evs);
    RestsClosed(cfg, s);
  }

  lemma RestsClosed(cfg: Config, s: State)
    requires Inv(cfg, s) && s.receiver.Finished? && s.slots == [] && Stuck(cfg, s) && !Aborted(s)
    ensures s.sender.SenderDone? && s.replies == s.resends == [] && |s.conns| == cfg.conns
    ensures forall j :: 0 <= j < |s.conns| ==> s.conns[j] == Connection([], Closed)
  {
    hide OneEach, Tokens, ConnsTyped, RepliesTyped, SlotsOpen;
    DoneIsEmpty(cfg, s);
    NothingLeft(cfg, s);
    SenderStopped(cfg, s);
    forall j: nat | j < |s.conns| ensures s.conns[j] == Connection([], Closed) {
      assert !Enabled(cfg, s, ConnCloses(j));
    }
  }

  lemma NothingLeft(cfg: Config, s: State)
    requires Tokens(cfg, s) == multiset{}
    ensures s.replies == s.resends == []
    ensures forall j :: 0 <= j < |s.conns| ==>
              s.conns[j].queue == [] && (s.conns[j].phase.Waiting? || s.conns[j].phase.Closed?)
  {
    forall j: nat | j < |s.conns| ensures Load(s.conns[j]) == 0 {
      TokenTotal(cfg, s, j);
      LoadIsBag(s.conns[j]);
      ConnIsPart(s.conns, j);
    }
    BagSize(s.replies);
    BagSize(s.resends);
  }

  lemma SenderStopped(cfg: Config, s: State)
    requires SenderTyped(cfg, s.sender) && Tokens(cfg, s) == multiset{} && s.resends == []
    requires s.receiver.Finished? && Stuck(cfg, s) && !Aborted(s)
    ensures s.sender.SenderDone?
  {
    SenderIdle(cfg, s);
    assert !Enabled(cfg, s, SenderStarts) && !Enabled(cfg, s, SenderStops);
  }

  /** Without a connection the first request crashes the sender, and nothing else happens. */
  lemma NoConnections(cfg: Config, evs: seq<Event>)
    requires cfg.conns == 0 && cfg.Count() > 0 && IsRun(cfg, Initial(cfg), evs)
    ensures evs == [] || (evs == [SenderStarts] && After(cfg, Initial(cfg), evs).sender.Crashed?)
  {
    if evs != [] {
      var t := Step(cfg, Initial(cfg), evs[0]);
      assert evs[0] == SenderStarts && t.sender.Crashed?;
      assert evs[1..] == [] by { NothingAfterAbort(cfg, t, evs[1..]); }
    }
  }

  /** Without a piece nothing is ever sent, received or built: an empty file cannot be downloaded. */
  lemma NoPieces(cfg: Config, evs: seq<Event>)
    requires cfg.Count() == 0 && IsRun(cfg, Initial(cfg), evs)
    ensures evs == [] || (evs == [SenderStarts] && Stuck(cfg, After(cfg, Initial(cfg), evs)))
    ensures !Aborted(After(cfg, Initial(cfg), evs)) && After(cfg, Initial(cfg), evs).receiver.Receiving?
  {
    if evs != [] {
      var t := Step(cfg, Initial(cfg), evs[0]);
      OnlyStarts(cfg, Starting(0), evs[0]);
      assert t == Initial(cfg).(sender := Listening(0));
      forall ev ensures !Enabled(cfg, t, ev) {
        if Enabled(cfg, t, ev) {
          OnlyStarts(cfg, Listening(0), ev);
        }
      }
      assert evs[1..] == [];
      assert evs == [evs[0]];
    }
  }

  lemma OnlyStarts(cfg: Config, x: Sender, ev: Event)
    requires x.Starting? || x.Listening?
    requires Enabled(cfg, Initial(cfg).(sender := x), ev)
    ensures x.Starting? && ev == SenderStarts
  {
    forall j: nat | j < cfg.conns ensures j in Initial(cfg).slots {
      assert Initial(cfg).slots[j] == j;
    }
  }
}
