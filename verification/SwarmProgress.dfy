/** Progress: with few enough pieces the bounded channels and the lock that is held across a send
    can never block every task at once. */
module SwarmProgress {
  import opened Wire
  import opened Swarm
  import opened SwarmTokens

  lemma {:induction false} QuietConnsBag(conns: seq<Connection>)
    requires forall j :: 0 <= j < |conns| ==>
      conns[j].queue == [] && (conns[j].phase.Waiting? || conns[j].phase.Closed?)
    ensures ConnsBag(conns) == multiset{}
  {
    if conns != [] {
      QuietConnsBag(conns[1..]);
    }
  }

  lemma {:induction false} ConnIsPart(conns: seq<Connection>, j: nat)
    requires j < |conns|
    ensures |ConnsBag(conns)| >= |ConnBag(conns[j])|
  {
    if j > 0 {
      ConnIsPart(conns[1..], j - 1);
    }
  }

  lemma TokenTotal(cfg: Config, s: State, j: nat)
    requires j < |s.conns|
    ensures |Tokens(cfg, s)| >= |SenderBag(cfg, s.sender)| + |ReceiverBag(s.receiver)| + |s.replies| + |s.resends|
                                + |s.conns[j].queue| + |PhaseBag(s.conns[j].phase)|
  {
    hide SenderBag, ReceiverBag, Bag, PhaseBag, ConnsBag;
    BagSize(s.replies);
    BagSize(s.resends);
    BagSize(s.conns[j].queue);
    ConnIsPart(s.conns, j);
  }

  /** An event that brings no Cancel into the system. */
  predicate CancelFree(ev: Event) {
    && (ev.ConnOpens? ==> ev.ok)
    && (ev.PeerReplies? ==> !ev.reply.Cancel?)
  }

  predicate CanMove(s: State, j: nat) {
    j < |s.conns| &&
    match s.conns[j].phase
    case Waiting => s.conns[j].queue != []
    case Replying(_) => |s.replies| < REPLY_CAP
    case Closed => false
    case _ => true
  }

  lemma ConnMoves(cfg: Config, s: State, j: nat) returns (ev: Event)
    requires Typed(cfg, s) && !Aborted(s) && CanMove(s, j)
    ensures Enabled(cfg, s, ev) && CancelFree(ev)
  {
    match s.conns[j].phase
    case Waiting => ev := ConnTakes(j);
    case Got(_) => ev := ConnOpens(j, true);
    case InFlight(req) => ev := PeerReplies(j, Piece(req.index, []));
    case Replying(_) => ev := ConnPushes(j);
    case Closed => assert false;
  }

  predicate ReceiverCanMove(s: State) {
    match s.receiver
    case Receiving => s.replies != []
    case Requeueing(_) => |s.resends| < RESEND_CAP
    case Finished => false
    case Failed => false
    case _ => WriterQueued(s) ==> !GuardHeld(s)
  }

  lemma ReceiverMoves(cfg: Config, s: State) returns (ev: Event)
    requires !Aborted(s) && ReceiverCanMove(s)
    ensures Enabled(cfg, s, ev) && CancelFree(ev)
  {
    match s.receiver
    case Receiving => ev := ReceiverTakes;
    case Requeueing(_) => ev := ReceiverResends;
    case Decremented(_) => ev := ReceiverChecks;
    case Drained => ev := ReceiverBuilds;
    case _ => if WriterQueued(s) { ev := ReceiverWrites; } else { ev := ReceiverQueues; }
  }

  predicate SenderCanMove(s: State) {
    if GuardHeld(s) then
      s.sender.to < |s.conns| && (s.conns[s.sender.to].phase.Closed? || |s.conns[s.sender.to].queue| < REQUEST_CAP)
    else if s.sender.Listening? then s.resends != []
    else !WriterQueued(s) && !s.sender.SenderDone?
  }

  lemma SenderMoves(cfg: Config, s: State) returns (ev: Event)
    requires !Aborted(s) && SenderCanMove(s)
    ensures Enabled(cfg, s, ev) && CancelFree(ev)
  {
    if GuardHeld(s) {
      ev := SenderPushes;
    } else if s.sender.Listening? {
      ev := SenderTakes;
    } else if s.sender.Starting? {
      ev := SenderStarts;
    } else if s.sender.Choosing? {
      ev := SenderChooses;
    } else {
      ev := SenderLooksUp;
    }
  }

  /** How many tokens a state in which nothing moves must hold: a sender blocked on a full request queue
      with the read guard in hand, that queue's connection blocked on a full reply queue, and a receiver
      blocked on the lock (with a Cancel) or on a full resend queue. */
  lemma BlockedNeedsTokens(cfg: Config, s: State)
    requires Valid(cfg) && Inv(cfg, s) && !Aborted(s) && !s.receiver.Finished?
    requires (forall j: nat :: !CanMove(s, j)) && !ReceiverCanMove(s) && !SenderCanMove(s)
    ensures |Tokens(cfg, s)| >= REQUEST_CAP + REPLY_CAP + 3
    ensures s.receiver.Requeueing? ==> |Tokens(cfg, s)| >= RESEND_CAP + REQUEST_CAP + REPLY_CAP + 3
    ensures s.receiver.Requeueing? || s.receiver.AwaitRemove? || s.receiver.AwaitDecrement?
  {
    hide Tokens, OneEach, ConnsTyped, SlotsOpen;
    DoneIsEmpty(cfg, s);
    if !GuardHeld(s) {
      QuietConns(cfg, s);
      EmptyTokens(cfg, s);
      assert false;
    } else {
      var j := s.sender.to;
      GuardedTarget(cfg, s);
      assert !CanMove(s, j);
      SenderHolds(cfg, s);
      hide SenderBag;
      TokenTotal(cfg, s, j);
      assert |ReceiverBag(s.receiver)| == 1;
    }
  }

  lemma GuardedTarget(cfg: Config, s: State)
    requires Inv(cfg, s) && GuardHeld(s) && !SenderCanMove(s)
    ensures s.sender.to < |s.conns| && |s.conns[s.sender.to].queue| == REQUEST_CAP && |s.replies| <= REPLY_CAP
    ensures !s.conns[s.sender.to].phase.Closed?
  {
    hide Tokens;
    var i :| 0 <= i < |s.slots| && s.slots[i] == s.sender.to;
    assert ConnTyped(cfg, s.conns[s.sender.to]);
  }

  lemma SenderHolds(cfg: Config, s: State)
    requires Inv(cfg, s) && GuardHeld(s)
    ensures |SenderBag(cfg, s.sender)| >= 1 && Tokens(cfg, s) != multiset{}
  {
    hide OneEach, ConnsTyped, RepliesTyped;
    if s.sender.SendingFirst? {
      RangeSize(s.sender.next, cfg.Count());
    }
    BagPartOfTokens(cfg, s);
  }

  lemma BagPartOfTokens(cfg: Config, s: State)
    ensures |Tokens(cfg, s)| >= |SenderBag(cfg, s.sender)|
  {
    hide SenderBag, ReceiverBag, Bag, ConnsBag;
  }

  /** With room for replies, connections that cannot move hold nothing. */
  lemma QuietConns(cfg: Config, s: State)
    requires ConnsTyped(cfg, s.conns) && s.replies == [] && forall j: nat :: !CanMove(s, j)
    ensures ConnsBag(s.conns) == multiset{}
  {
    forall j | 0 <= j < |s.conns|
      ensures s.conns[j].queue == [] && (s.conns[j].phase.Waiting? || s.conns[j].phase.Closed?)
    {
      assert !CanMove(s, j);
      assert ConnTyped(cfg, s.conns[j]);
    }
    QuietConnsBag(s.conns);
  }

  lemma EmptyTokens(cfg: Config, s: State)
    requires s.sender.Listening? && s.receiver.Receiving? && s.resends == [] && s.replies == []
    requires ConnsBag(s.conns) == multiset{}
    ensures Tokens(cfg, s) == multiset{}
  {
  }

  /** Some task or peer can move, without any new Cancel, as long as fewer tokens are on the ring than
      a blocked state needs. */
  lemma SomeoneMoves(cfg: Config, s: State) returns (ev: Event)
    requires Valid(cfg) && Inv(cfg, s) && !Aborted(s) && !s.receiver.Finished?
    requires
      |Tokens(cfg, s)| <= 302 ||
      (|Tokens(cfg, s)| <= 402 && !s.receiver.AwaitRemove? && !s.receiver.AwaitDecrement?)
    ensures Enabled(cfg, s, ev) && CancelFree(ev)
  {
    hide Step, Enabled, OneEach, Typed, SlotsOpen, Shaped, Tokens, CancelFree;
    if j: nat :| CanMove(s, j) {
      ev := ConnMoves(cfg, s, j);
    } else if ReceiverCanMove(s) {
      ev := ReceiverMoves(cfg, s);
    } else if SenderCanMove(s) {
      ev := SenderMoves(cfg, s);
    } else {
      BlockedNeedsTokens(cfg, s);
      assert false;
    }
  }

  /** With at most 302 pieces every reachable state that is neither finished nor aborted can go on. */
  lemma Progress(cfg: Config, evs: seq<Event>)
    requires Valid(cfg) && cfg.Count() <= 302 && IsRun(cfg, Initial(cfg), evs)
    ensures
      var s := After(cfg, Initial(cfg), evs);
      !Aborted(s) && !s.receiver.Finished? ==> !Stuck(cfg, s)
  {
    hide Step, Enabled, Tokens, Inv;
    var s := After(cfg, Initial(cfg), evs);
    if !Aborted(s) && !s.receiver.Finished? {
      TokensAndWritten(cfg, evs);
      InitialInv(cfg);
      RunInv(cfg, Initial(cfg), evs);
      var ev := SomeoneMoves(cfg, s);
    }
  }

  predicate NotCancel(m: Message) { !m.Cancel? }

  ghost predicate NoCancels(s: State) {
    && (forall j :: 0 <= j < |s.conns| && s.conns[j].phase.Replying? ==> NotCancel(s.conns[j].phase.msg))
    && (forall i :: 0 <= i < |s.replies| ==> NotCancel(s.replies[i]))
    && !s.receiver.CancelSeen? && !s.receiver.AwaitRemove? && !s.receiver.SlotRemoved?
    && !s.receiver.AwaitDecrement? && !s.receiver.Decremented?
  }

  lemma StepNoCancels(cfg: Config, s: State, ev: Event)
    requires NoCancels(s) && Enabled(cfg, s, ev) && CancelFree(ev)
    ensures NoCancels(Step(cfg, s, ev))
  {
  }

  lemma {:induction false} RunNoCancels(cfg: Config, s: State, evs: seq<Event>)
    requires NoCancels(s) && IsRun(cfg, s, evs) && forall ev :: ev in evs ==> CancelFree(ev)
    ensures NoCancels(After(cfg, s, evs))
    decreases |evs|
  {
    hide Step, Enabled, NoCancels, CancelFree;
    if evs != [] {
      StepNoCancels(cfg, s, evs[0]);
      RunNoCancels(cfg, Step(cfg, s, evs[0]), evs[1..]);
    }
  }

  /** Without Cancels the bound is 402, and going on needs no Cancel either. */
  lemma ProgressWithoutCancels(cfg: Config, evs: seq<Event>)
    requires Valid(cfg) && cfg.Count() <= 402 && IsRun(cfg, Initial(cfg), evs)
    requires forall ev :: ev in evs ==> CancelFree(ev)
    ensures
      var s := After(cfg, Initial(cfg), evs);
      !Aborted(s) && !s.receiver.Finished? ==> exists ev :: Enabled(cfg, s, ev) && CancelFree(ev)
  {
    hide Step, Enabled, Tokens, Inv, CancelFree;
    var s := After(cfg, Initial(cfg), evs);
    if !Aborted(s) && !s.receiver.Finished? {
      TokensAndWritten(cfg, evs);
      InitialInv(cfg);
      RunInv(cfg, Initial(cfg), evs);
      RunNoCancels(cfg, Initial(cfg), evs);
      var ev := SomeoneMoves(cfg, s);
    }
  }
}
