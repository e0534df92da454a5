/** Running a download into a jam: while answers are withheld or corrupted, and some connection's answers are held
    back, every schedule comes to rest, and counting tokens tells in which state. */
module SwarmJams {
  import opened Base
  import opened Wire
  import PartFile
  import opened Swarm
  import opened SwarmTokens
  import opened SwarmTermination
  import opened SwarmSchedules

  /** This payload is rejected for every piece. */
  predicate Corrupt(cfg: Config, bad: seq<u8>) {
    |bad| == cfg.PL() && forall k :: 0 <= k < cfg.Count() ==> cfg.digest(bad) != cfg.info.pieces[k]
  }

  /** The requests a connection has accepted and not yet answered, the answer it holds included. */
  function Load(c: Connection): nat {
    |c.queue| + if c.phase.Waiting? || c.phase.Closed? then 0 else 1
  }

  lemma LoadIsBag(c: Connection)
    ensures |ConnBag(c)| == Load(c)
  {
    BagSize(c.queue);
  }

  lemma {:induction false} LoadsApart(conns: seq<Connection>, k: nat)
    requires k < |conns| && forall j :: 0 <= j < |conns| && j != k ==> Load(conns[j]) == 0
    ensures |ConnsBag(conns)| == Load(conns[k])
  {
    LoadIsBag(conns[0]);
    if k == 0 {
      NoLoads(conns[1..]);
    } else {
      LoadsApart(conns[1..], k - 1);
    }
  }

  lemma {:induction false} NoLoads(conns: seq<Connection>)
    requires forall j :: 0 <= j < |conns| ==> Load(conns[j]) == 0
    ensures |ConnsBag(conns)| == 0
  {
    if conns != [] {
      LoadIsBag(conns[0]);
      NoLoads(conns[1..]);
    }
  }

  lemma {:induction false} FullLoads(conns: seq<Connection>)
    requires forall j :: 0 <= j < |conns| ==> Load(conns[j]) <= 151
    ensures |ConnsBag(conns)| <= 151 * |conns|
  {
    if conns != [] {
      LoadIsBag(conns[0]);
      FullLoads(conns[1..]);
    }
  }

  /** As long as nothing has been written, the tokens are as many as the pieces. */
  lemma Totals(cfg: Config, s: State)
    requires Inv(cfg, s) && s.part == PartFile.Empty(cfg.Count())
    ensures cfg.Count() == |SenderBag(cfg, s.sender)| + |ReceiverBag(s.receiver)| + |s.replies| + |s.resends|
                           + |ConnsBag(s.conns)|
  {
    hide Typed, Shaped, SlotsOpen, SenderBag, ReceiverBag, ConnsBag;
    forall k: int ensures Tokens(cfg, s)[k] == Range(0, cfg.Count())[k] {
      RangeCount(0, cfg.Count(), k);
    }
    assert Tokens(cfg, s) == Range(0, cfg.Count());
    RangeSize(0, cfg.Count());
    BagSize(s.replies);
    BagSize(s.resends);
  }

  lemma UnsentCount(cfg: Config, x: Sender)
    requires SenderTyped(cfg, x)
    ensures |SenderBag(cfg, x)| ==
      match x
      case Starting(i) => cfg.Count() - i
      case SendingFirst(i, _) => cfg.Count() - i
      case Choosing(_, _) => 1
      case Addressing(_, _) => 1
      case SendingAgain(_, _, _) => 1
      case _ => 0
  {
    if x.Starting? || x.SendingFirst? {
      RangeSize(x.next, cfg.Count());
    }
  }

  /** Requests not yet answered; each can still be answered by a corrupted payload. */
  function Debt(cfg: Config, s: State): nat {
    (match s.sender
     case Starting(i) => Max(0, cfg.Count() - i)
     case SendingFirst(i, _) => Max(0, cfg.Count() - i)
     case _ => 0)
    + ConnsDebt(s.conns)
  }

  function ConnDebt(c: Connection): nat {
    |c.queue| + if c.phase.Got? || c.phase.InFlight? then 1 else 0
  }

  function ConnsDebt(conns: seq<Connection>): nat {
    if conns == [] then 0 else ConnDebt(conns[0]) + ConnsDebt(conns[1..])
  }

  lemma {:induction false} ConnsDebtUpdate(conns: seq<Connection>, j: nat, c: Connection)
    requires j < |conns|
    ensures ConnsDebt(conns[j := c]) + ConnDebt(conns[j]) == ConnsDebt(conns) + ConnDebt(c)
  {
    hide ConnDebt;
    if j == 0 {
      assert conns[0 := c][1..] == conns[1..];
    } else {
      ConnsDebtUpdate(conns[1..], j - 1, c);
      assert conns[j := c][1..] == conns[1..][j - 1 := c];
    }
  }

  /** What bounds a schedule in which answered requests are not sent again. */
  function Work(cfg: Config, s: State): nat {
    Potential(cfg, s) + 10 * Debt(cfg, s)
  }

  /** The events of a flood: no stream fails, every answer carries `p`, nothing is sent again, and connection `k`
      does not get rid of its answer. */
  predicate Floods(p: seq<u8>, k: nat, ev: Event) {
    match ev
    case SenderStarts => true
    case SenderPushes => true
    case ConnTakes(_) => true
    case ConnOpens(_, ok) => ok
    case PeerReplies(_, reply) => reply.Piece? && reply.piece == p
    case ConnPushes(j) => j != k
    case ReceiverTakes => true
    case ReceiverResends => true
    case _ => false
  }

  predicate Busy(x: Receiver) {
    x.CancelSeen? || x.AwaitRemove?
  }

  predicate Carries(p: seq<u8>, m: Message) {
    m.Piece? && m.piece == p
  }

  /** Nothing has been written, no slot removed; the receiver is busy with a Cancel, or will reject every answer. */
  ghost predicate Calm(cfg: Config, p: seq<u8>, s: State) {
    && !Aborted(s) && s.part == PartFile.Empty(cfg.Count())
    && s.slots == AllSlots(cfg) && s.numConnections == cfg.conns > 0 && |p| <= cfg.PL()
    && (Busy(s.receiver) || (Rejecting(cfg, p, s) && (s.receiver.Receiving? || s.receiver.Requeueing?)))
  }

  ghost predicate Rejecting(cfg: Config, p: seq<u8>, s: State) {
    && Corrupt(cfg, p)
    && (forall i :: 0 <= i < |s.replies| ==> Carries(p, s.replies[i]))
    && (forall j :: 0 <= j < |s.conns| && s.conns[j].phase.Replying? ==> Carries(p, s.conns[j].phase.msg))
  }

  /** The sender waits, guard in hand, for a connection whose queue is full and whose answer is held back. */
  predicate Frozen(s: State, k: nat) {
    && GuardHeld(s) && s.sender.to == k < |s.conns| && |s.conns[k].queue| == REQUEST_CAP
    && !s.conns[k].phase.Waiting? && !s.conns[k].phase.Closed?
  }

  /** The same, but with resends going out again and every answer passed on. */
  predicate Tame(p: seq<u8>, ev: Event) {
    Floods(p, 0, ev) || ev.ConnPushes? || ev.SenderTakes? || ev.SenderChooses? || ev.SenderLooksUp?
  }

  /** Only a resend that goes out creates work. */
  lemma TameWorks(cfg: Config, p: seq<u8>, s: State, ev: Event)
    requires Valid(cfg) && Inv(cfg, s) && Enabled(cfg, s, ev) && Tame(p, ev)
    ensures Work(cfg, Step(cfg, s, ev)) < Work(cfg, s) + if ev.SenderPushes? && s.sender.SendingAgain? then 10 else 0
  {
    hide Step, Enabled, Potential, Debt, Corrupted, Inv;
    StepCosts(cfg, s, ev);
    TameDebt(cfg, p, s, ev);
  }

  lemma TameDebt(cfg: Config, p: seq<u8>, s: State, ev: Event)
    requires Valid(cfg) && Inv(cfg, s) && Enabled(cfg, s, ev) && Tame(p, ev)
    ensures Debt(cfg, Step(cfg, s, ev)) + (if ev.PeerReplies? then 1 else 0)
            <= Debt(cfg, s) + if ev.SenderPushes? && s.sender.SendingAgain? then 1 else 0
  {
    hide ConnsDebt, Tokens, OneEach, Receive, FirstRequest, ConnsTyped, RepliesTyped, SlotsOpen;
    var t := Step(cfg, s, ev);
    if ev.SenderPushes? {
      if !t.sender.Crashed? {
        ConnsDebtUpdate(s.conns, s.sender.to, t.conns[s.sender.to]);
      }
    } else if !OfSender(ev) && !OfReceiver(ev) {
      ConnsDebtUpdate(s.conns, ev.j, t.conns[ev.j]);
    } else if ev.ReceiverTakes? {
      OnlyQueuesChange(cfg, s);
    }
  }

  lemma OnlyQueuesChange(cfg: Config, s: State)
    requires Enabled(cfg, s, ReceiverTakes)
    ensures Step(cfg, s, ReceiverTakes).sender == s.sender && Step(cfg, s, ReceiverTakes).conns == s.conns
  {
  }

  /** The sender is not in the middle of a resend, unless it is frozen there. */
  predicate Going(s: State, k: nat) {
    s.sender.Starting? || s.sender.SendingFirst? || s.sender.Listening? || Frozen(s, k)
  }

  /** What a flood leaves alone. */
  ghost predicate Undisturbed(k: nat, s: State, t: State) {
    && (if Busy(s.receiver) then t.receiver == s.receiver && t.resends == s.resends else !Busy(t.receiver))
    && (Frozen(s, k) ==> Frozen(t, k) && t.sender == s.sender)
  }

  lemma FloodStep(cfg: Config, p: seq<u8>, k: nat, s: State, ev: Event)
    requires Valid(cfg) && Inv(cfg, s) && Calm(cfg, p, s) && Going(s, k) && Enabled(cfg, s, ev) && Floods(p, k, ev)
    ensures
      var t := Step(cfg, s, ev);
      Calm(cfg, p, t) && Going(t, k) && Undisturbed(k, s, t) && Work(cfg, t) < Work(cfg, s)
  {
    hide Work, Calm, Valid, Inv, Step, Enabled, Undisturbed, Frozen;
    TameWorks(cfg, p, s, ev);
    if OfSender(ev) {
      FloodSender(cfg, p, k, s, ev);
    } else if OfReceiver(ev) {
      FloodReceiver(cfg, p, k, s, ev);
    } else {
      FloodConn(cfg, p, k, s, ev);
    }
  }

  lemma FloodSender(cfg: Config, p: seq<u8>, k: nat, s: State, ev: Event)
    requires Valid(cfg) && Inv(cfg, s) && Calm(cfg, p, s) && Going(s, k) && Enabled(cfg, s, ev) && Floods(p, k, ev)
    requires OfSender(ev)
    ensures
      var t := Step(cfg, s, ev);
      Calm(cfg, p, t) && Going(t, k) && Undisturbed(k, s, t) && !Frozen(s, k)
  {
    hide OneEach, Tokens, Corrupt, ConnsTyped, RepliesTyped, FirstRequest;
  }

  lemma FloodReceiver(cfg: Config, p: seq<u8>, k: nat, s: State, ev: Event)
    requires Inv(cfg, s) && Calm(cfg, p, s) && Going(s, k) && Enabled(cfg, s, ev) && Floods(p, k, ev)
    requires Valid(cfg) && OfReceiver(ev)
    ensures
      var t := Step(cfg, s, ev);
      Calm(cfg, p, t) && Going(t, k) && Undisturbed(k, s, t)
  {
    hide OneEach, Tokens, ConnsTyped, SlotsOpen, Shaped, PartFile.Apply, PartFile.AllOnes;
    if ev.ReceiverTakes? {
      assert IsReply(cfg, s.replies[0]) && Carries(p, s.replies[0]);
    }
  }

  lemma FloodConn(cfg: Config, p: seq<u8>, k: nat, s: State, ev: Event)
    requires Valid(cfg) && Inv(cfg, s) && Calm(cfg, p, s) && Going(s, k) && Enabled(cfg, s, ev) && Floods(p, k, ev)
    requires !OfSender(ev) && !OfReceiver(ev)
    ensures
      var t := Step(cfg, s, ev);
      Calm(cfg, p, t) && Going(t, k) && Undisturbed(k, s, t)
  {
    hide OneEach, Tokens, Corrupt, SlotsOpen, Shaped, RepliesTyped;
    assert ConnTyped(cfg, s.conns[ev.j]);
  }

  ghost predicate AtRest(cfg: Config, p: seq<u8>, k: nat, s: State) {
    forall ev :: Floods(p, k, ev) ==> !Enabled(cfg, s, ev)
  }

  /** A flood comes to rest. */
  lemma Flood(cfg: Config, failed: seq<nat>, p: seq<u8>, k: nat, s: State) returns (t: State)
    requires Valid(cfg) && Reaches(cfg, failed, Initial(cfg), s) && Calm(cfg, p, s) && Going(s, k)
    ensures Reaches(cfg, failed, Initial(cfg), t) && Calm(cfg, p, t) && Going(t, k)
    ensures Undisturbed(k, s, t) && AtRest(cfg, p, k, t)
    decreases Work(cfg, s)
  {
    hide *;
    t := s;
    if ev :| Floods(p, k, ev) && Enabled(cfg, s, ev) {
      FloodOn(cfg, failed, p, k, s, ev);
      t := Flood(cfg, failed, p, k, Step(cfg, s, ev));
      UndisturbedTrans(k, s, Step(cfg, s, ev), t);
    } else {
      UndisturbedSelf(k, s);
      Rests(cfg, p, k, s);
    }
  }

  lemma FloodOn(cfg: Config, failed: seq<nat>, p: seq<u8>, k: nat, s: State, ev: Event)
    requires Valid(cfg) && Reaches(cfg, failed, Initial(cfg), s) && Calm(cfg, p, s) && Going(s, k)
    requires Enabled(cfg, s, ev) && Floods(p, k, ev)
    ensures
      var t := Step(cfg, s, ev);
      && Reaches(cfg, failed, Initial(cfg), t) && Calm(cfg, p, t) && Going(t, k) && Undisturbed(k, s, t)
      && Work(cfg, t) < Work(cfg, s)
  {
    hide Step, Enabled, Reaches, Initial, Work, Valid, Going, Undisturbed, Inv;
    ReachedInv(cfg, failed, s);
    FloodStep(cfg, p, k, s, ev);
    Then(cfg, failed, Initial(cfg), s, ev);
  }

  lemma Rests(cfg: Config, p: seq<u8>, k: nat, s: State)
    requires forall ev :: !(Floods(p, k, ev) && Enabled(cfg, s, ev))
    ensures AtRest(cfg, p, k, s)
  {
    hide Floods, Enabled;
  }

  lemma UndisturbedSelf(k: nat, s: State)
    ensures Undisturbed(k, s, s)
  {
  }

  lemma UndisturbedTrans(k: nat, s: State, t: State, u: State)
    requires Undisturbed(k, s, t) && Undisturbed(k, t, u)
    ensures Undisturbed(k, s, u)
  {
  }

  /** No connection but `k` can do anything, and `k` can at most pass on its answer. */
  ghost predicate ConnsRest(s: State, k: nat) {
    forall j :: 0 <= j < |s.conns| ==>
      var c := s.conns[j];
      (c.phase.Waiting? && c.queue == []) || (c.phase.Replying? && (j == k || |s.replies| == REPLY_CAP))
  }

  lemma RestingConns(cfg: Config, p: seq<u8>, k: nat, s: State)
    requires Inv(cfg, s) && Calm(cfg, p, s) && AtRest(cfg, p, k, s)
    ensures ConnsRest(s, k)
  {
    hide OneEach, Tokens, Corrupt, Rejecting;
    forall j: nat | j < |s.conns|
      ensures
        var c := s.conns[j];
        (c.phase.Waiting? && c.queue == []) || (c.phase.Replying? && (j == k || |s.replies| == REPLY_CAP))
    {
      assert ConnTyped(cfg, s.conns[j]);
      assert s.slots[j] == j;
      assert !Enabled(cfg, s, ConnTakes(j));
      assert !Enabled(cfg, s, ConnOpens(j, true));
      assert j != k ==> !Enabled(cfg, s, ConnPushes(j));
      assert s.conns[j].phase.InFlight? ==>
        !Enabled(cfg, s, PeerReplies(j, Piece(s.conns[j].phase.req.index, p)));
    }
  }

  lemma RestingTasks(cfg: Config, p: seq<u8>, k: nat, s: State)
    requires Inv(cfg, s) && Calm(cfg, p, s) && AtRest(cfg, p, k, s) && Going(s, k)
    ensures s.receiver.Receiving? ==> s.replies == []
    ensures s.receiver.Requeueing? ==> |s.resends| == RESEND_CAP
    ensures !s.receiver.AwaitRemove? ==> !s.sender.Starting?
    ensures GuardHeld(s) ==> s.sender.to < |s.conns| && |s.conns[s.sender.to].queue| == REQUEST_CAP
  {
    hide OneEach, Tokens, Corrupt, Rejecting;
    assert !Enabled(cfg, s, ReceiverTakes) && !Enabled(cfg, s, ReceiverResends);
    assert !Enabled(cfg, s, SenderStarts) && !Enabled(cfg, s, SenderPushes);
    if GuardHeld(s) {
      assert s.slots[s.sender.to] == s.sender.to;
      assert ConnTyped(cfg, s.conns[s.sender.to]);
    }
  }

  /** The cyclic wait: the sender for a queue, every loaded connection for the reply queue, the receiver for the lock or
      for the resend queue. */
  ghost predicate Blocked(cfg: Config, s: State) {
    && GuardHeld(s) && s.sender.to < |s.conns| && |s.conns[s.sender.to].queue| == REQUEST_CAP
    && |s.replies| == REPLY_CAP && s.slots == AllSlots(cfg) && |s.conns| == cfg.conns
    && ConnsRest(s, s.sender.to)
    && (s.receiver.AwaitRemove? || (s.receiver.Requeueing? && |s.resends| == RESEND_CAP))
  }

  lemma BlockedIsStuck(cfg: Config, s: State)
    requires Blocked(cfg, s)
    ensures Stuck(cfg, s) && !Aborted(s) && !s.receiver.Finished?
  {
    forall ev ensures !Enabled(cfg, s, ev) {
      match ev
      case ConnCloses(j) => if j < |s.conns| { assert s.slots[j] == j; }
      case _ =>
    }
  }

  /** Where a flood around a frozen connection comes to rest with enough tokens about, nothing can move at all. */
  lemma FrozenRest(cfg: Config, p: seq<u8>, k: nat, s: State)
    requires Inv(cfg, s) && Calm(cfg, p, s) && AtRest(cfg, p, k, s) && Frozen(s, k)
    requires s.receiver.AwaitRemove? ==> cfg.Count() >= |SenderBag(cfg, s.sender)| + |s.resends| + 302
    requires !s.receiver.AwaitRemove? ==> !Busy(s.receiver) && cfg.Count() >= |SenderBag(cfg, s.sender)| + 402
    ensures Blocked(cfg, s)
  {
    hide OneEach, Tokens, SenderBag, Corrupt, ConnsTyped, SenderTyped, AtRest;
    Totals(cfg, s);
    RestingConns(cfg, p, k, s);
    RestingTasks(cfg, p, k, s);
    if |s.replies| < REPLY_CAP {
      LoadsApart(s.conns, k);
    }
  }

  /** Over one connection nothing needs to be frozen. */
  lemma LoneRest(cfg: Config, p: seq<u8>, s: State)
    requires Inv(cfg, s) && Calm(cfg, p, s) && AtRest(cfg, p, 1, s) && Going(s, 1) && cfg.conns == 1
    requires s.receiver.CancelSeen? ==> s.resends == [] && cfg.Count() >= 303
    requires !s.receiver.CancelSeen? ==> !Busy(s.receiver) && cfg.Count() >= 403
    ensures Blocked(cfg, s.(receiver := if s.receiver.CancelSeen? then AwaitRemove(s.receiver.msg) else s.receiver))
    ensures Blocked(cfg, s) || s.receiver.CancelSeen?
  {
    hide Inv, Calm, AtRest, Going, Blocked;
    RestingConns(cfg, p, 1, s);
    RestingTasks(cfg, p, 1, s);
    LoneCounts(cfg, p, s);
    LoneBlocks(cfg, p, s);
  }

  /** Enough tokens leave only one place where they can all be. */
  lemma LoneCounts(cfg: Config, p: seq<u8>, s: State)
    requires Inv(cfg, s) && Calm(cfg, p, s) && ConnsRest(s, 1) && Going(s, 1) && cfg.conns == 1
    requires s.receiver.Receiving? ==> s.replies == []
    requires s.receiver.Requeueing? ==> |s.resends| == RESEND_CAP
    requires !s.sender.Starting?
    requires GuardHeld(s) ==> s.sender.to < |s.conns| && |s.conns[s.sender.to].queue| == REQUEST_CAP
    requires s.receiver.CancelSeen? ==> s.resends == [] && cfg.Count() >= 303
    requires !s.receiver.CancelSeen? ==> !Busy(s.receiver) && cfg.Count() >= 403
    ensures GuardHeld(s) && |s.replies| == REPLY_CAP && !s.receiver.Receiving?
  {
    hide OneEach, Tokens, SenderBag, Corrupt, Rejecting, ConnsTyped, SlotsOpen;
    Totals(cfg, s);
    LoadsApart(s.conns, 0);
    UnsentCount(cfg, s.sender);
    FirstTyped(cfg, s);
  }

  lemma LoneBlocks(cfg: Config, p: seq<u8>, s: State)
    requires Inv(cfg, s) && Calm(cfg, p, s) && ConnsRest(s, 1) && cfg.conns == 1
    requires GuardHeld(s) && |s.replies| == REPLY_CAP && !s.receiver.Receiving? && !s.receiver.AwaitRemove?
    requires s.receiver.Requeueing? ==> |s.resends| == RESEND_CAP
    requires s.sender.to < |s.conns| && |s.conns[s.sender.to].queue| == REQUEST_CAP
    ensures Blocked(cfg, s.(receiver := if s.receiver.CancelSeen? then AwaitRemove(s.receiver.msg) else s.receiver))
    ensures Blocked(cfg, s) || s.receiver.CancelSeen?
  {
    hide OneEach, Tokens, Corrupt, Rejecting, Typed, SlotsOpen;
  }

  lemma FirstTyped(cfg: Config, s: State)
    requires Typed(cfg, s) && |s.conns| > 0
    ensures ConnTyped(cfg, s.conns[0])
  {
  }
}
