/** Every piece index is a token that travels the ring of queues and tasks.
    This module counts tokens and proves that no step before an abort creates or loses one. */
module SwarmTokens {
  import opened Base
  import opened Wire
  import PartFile
  import opened Swarm

  function Bag(q: seq<Message>): multiset<int> {
    if q == [] then multiset{} else multiset{q[0].index} + Bag(q[1..])
  }

  lemma {:induction false} BagPush(q: seq<Message>, m: Message)
    ensures Bag(q + [m]) == Bag(q) + multiset{m.index}
  {
    if q == [] {
      assert [] + [m] == [m];
      assert Bag([m]) == multiset{m.index} + Bag([m][1..]);
    } else {
      BagPush(q[1..], m);
      assert (q + [m])[1..] == q[1..] + [m];
    }
  }

  lemma BagPop(q: seq<Message>)
    requires q != []
    ensures Bag(q) == multiset{q[0].index} + Bag(q[1..])
  {
  }

  lemma {:induction false} BagSize(q: seq<Message>)
    ensures |Bag(q)| == |q|
  {
    if q != [] {
      BagSize(q[1..]);
    }
  }

  function Range(lo: nat, hi: nat): multiset<int>
    decreases hi - lo
  {
    if lo >= hi then multiset{} else multiset{lo} + Range(lo + 1, hi)
  }

  lemma {:induction false} RangeCount(lo: nat, hi: nat, k: int)
    ensures Range(lo, hi)[k] == if lo <= k < hi then 1 else 0
    decreases hi - lo
  {
    if lo < hi {
      RangeCount(lo + 1, hi, k);
    }
  }

  function SenderBag(cfg: Config, x: Sender): multiset<int> {
    match x
    case Starting(i) => Range(i, cfg.Count())
    case SendingFirst(i, _) => Range(i, cfg.Count())
    case Choosing(_, m) => multiset{m.index}
    case Addressing(_, m) => multiset{m.index}
    case SendingAgain(_, m, _) => multiset{m.index}
    case _ => multiset{}
  }

  function ReceiverBag(x: Receiver): multiset<int> {
    match x
    case CancelSeen(m) => multiset{m.index}
    case AwaitRemove(m) => multiset{m.index}
    case SlotRemoved(m) => multiset{m.index}
    case AwaitDecrement(m) => multiset{m.index}
    case Decremented(m) => multiset{m.index}
    case Requeueing(m) => multiset{m.index}
    case _ => multiset{}
  }

  function PhaseBag(x: ConnPhase): multiset<int> {
    match x
    case Got(m) => multiset{m.index}
    case InFlight(m) => multiset{m.index}
    case Replying(m) => multiset{m.index}
    case _ => multiset{}
  }

  function ConnBag(c: Connection): multiset<int> {
    Bag(c.queue) + PhaseBag(c.phase)
  }

  function ConnsBag(conns: seq<Connection>): multiset<int> {
    if conns == [] then multiset{} else ConnBag(conns[0]) + ConnsBag(conns[1..])
  }

  lemma {:induction false} ConnsBagUpdate(conns: seq<Connection>, j: nat, c: Connection)
    requires j < |conns|
    ensures forall k :: ConnsBag(conns[j := c])[k] + ConnBag(conns[j])[k] == ConnsBag(conns)[k] + ConnBag(c)[k]
  {
    hide ConnBag;
    if j == 0 {
      assert conns[0 := c][1..] == conns[1..];
    } else {
      ConnsBagUpdate(conns[1..], j - 1, c);
      assert conns[j := c][1..] == conns[1..][j - 1 := c];
      assert ConnsBag(conns[j := c]) == ConnBag(conns[0]) + ConnsBag(conns[1..][j - 1 := c]);
    }
  }

  /** All tokens: not yet sent, queued, in flight, replied, waiting to be resent, or in a task's hand. */
  function Tokens(cfg: Config, s: State): multiset<int> {
    SenderBag(cfg, s.sender) + ReceiverBag(s.receiver) + Bag(s.replies) + Bag(s.resends) + ConnsBag(s.conns)
  }

  /** Exactly one token for every piece whose status byte is still 0, none for the others. */
  ghost predicate OneEach(count: nat, status: seq<u8>, tokens: multiset<int>) {
    && |status| == count
    && (forall k :: 0 <= k < count ==> status[k] in {0, 1})
    && (forall k: int :: tokens[k] == if 0 <= k < count && status[k] == 0 then 1 else 0)
  }

  /** The fields of a request or Cancel are those the sender computed for its piece. */
  predicate Addressed(cfg: Config, m: Message) {
    m.index < cfg.Count() &&
    (!m.Piece? ==> m.length == cfg.PL() && m.begin == Wrap32(cfg.PL() * m.index))
  }

  predicate IsRequest(cfg: Config, m: Message) { m.Request? && Addressed(cfg, m) && m.hash == cfg.key }

  predicate IsReply(cfg: Config, m: Message) {
    !m.Request? && Addressed(cfg, m) && (m.Piece? ==> |m.piece| <= cfg.PL())
  }

  predicate ConnTyped(cfg: Config, c: Connection) {
    && (forall i :: 0 <= i < |c.queue| ==> IsRequest(cfg, c.queue[i]))
    && |c.queue| <= REQUEST_CAP
    && match c.phase
       case Got(m) => IsRequest(cfg, m)
       case InFlight(m) => IsRequest(cfg, m)
       case Replying(m) => IsReply(cfg, m)
       case Waiting => true
       case Closed => c.queue == []
  }

  predicate SenderTyped(cfg: Config, x: Sender) {
    match x
    case Starting(i) => i <= cfg.Count()
    case SendingFirst(i, _) => i < cfg.Count()
    case Choosing(_, m) => IsReply(cfg, m)
    case Addressing(_, m) => IsRequest(cfg, m)
    case SendingAgain(_, m, _) => IsRequest(cfg, m)
    case _ => true
  }

  predicate ReceiverTyped(cfg: Config, x: Receiver) {
    match x
    case CancelSeen(m) => IsReply(cfg, m) && m.Cancel?
    case AwaitRemove(m) => IsReply(cfg, m) && m.Cancel?
    case SlotRemoved(m) => IsReply(cfg, m) && m.Cancel?
    case AwaitDecrement(m) => IsReply(cfg, m) && m.Cancel?
    case Decremented(m) => IsReply(cfg, m) && m.Cancel?
    case Requeueing(m) => IsReply(cfg, m)
    case _ => true
  }

  ghost predicate ConnsTyped(cfg: Config, conns: seq<Connection>) {
    forall j :: 0 <= j < |conns| ==> ConnTyped(cfg, conns[j])
  }

  ghost predicate RepliesTyped(cfg: Config, q: seq<Message>, cap: nat) {
    |q| <= cap && forall i :: 0 <= i < |q| ==> IsReply(cfg, q[i])
  }

  /** Every queue and every hand holds only the kind of message its reader expects, within its capacity. */
  ghost predicate Typed(cfg: Config, s: State) {
    && SenderTyped(cfg, s.sender)
    && ReceiverTyped(cfg, s.receiver)
    && ConnsTyped(cfg, s.conns)
    && RepliesTyped(cfg, s.replies, REPLY_CAP)
    && RepliesTyped(cfg, s.resends, RESEND_CAP)
  }

  predicate Done(x: Receiver) {
    x.AllWritten? || x.AwaitDrain? || x.Drained? || x.Finished?
  }

  /** The slots name connections that still read. */
  ghost predicate SlotsOpen(conns: seq<Connection>, slots: seq<nat>) {
    forall i :: 0 <= i < |slots| ==> slots[i] < |conns| && !conns[slots[i]].phase.Closed?
  }

  /** The counter follows the slots except between the two write locks, a sender that holds the guard
      has a live target, and the receiver knows exactly when all is written. */
  ghost predicate Shaped(cfg: Config, s: State) {
    && |s.conns| == cfg.conns
    && (!ResendClosed(s) ==>
          s.numConnections == |s.slots| + if s.receiver.SlotRemoved? || s.receiver.AwaitDecrement? then 1 else 0)
    && (GuardHeld(s) ==> s.sender.to in s.slots)
    && (PartFile.AllOnes(s.part.status) <==> Done(s.receiver))
    && (s.sender.SenderDone? ==> ResendClosed(s))
    && (s.receiver.Finished? <==> s.built.Some?)
    && (s.built.Some? ==> s.built.value == s.part.data)
  }

  ghost predicate Inv(cfg: Config, s: State) {
    && OneEach(cfg.Count(), s.part.status, Tokens(cfg, s))
    && Typed(cfg, s)
    && SlotsOpen(s.conns, s.slots)
    && Shaped(cfg, s)
  }

  /** At least one piece, a 32-bit piece index, 20-byte piece hashes, at least one connection. */
  predicate Valid(cfg: Config) {
    && 0 < cfg.Count() <= U32_SIZE
    && cfg.conns > 0
    && (forall k :: 0 <= k < cfg.Count() ==> |cfg.info.pieces[k]| == 20)
  }

  lemma ConnsPositive(cfg: Config)
    requires Valid(cfg)
    ensures cfg.conns > 0
  {
  }

  lemma {:induction false} IdleConnsBag(conns: seq<Connection>)
    requires forall j :: 0 <= j < |conns| ==> conns[j] == Connection([], Waiting)
    ensures ConnsBag(conns) == multiset{}
  {
    if conns != [] {
      IdleConnsBag(conns[1..]);
    }
  }

  lemma InitialInv(cfg: Config)
    requires Valid(cfg)
    ensures Inv(cfg, Initial(cfg))
  {
    hide OneEach, Tokens;
    var s := Initial(cfg);
    InitialTokens(cfg);
    assert s.part.status[0] == 0;
  }

  lemma InitialTokens(cfg: Config)
    ensures OneEach(cfg.Count(), Initial(cfg).part.status, Tokens(cfg, Initial(cfg)))
  {
    var s := Initial(cfg);
    IdleConnsBag(s.conns);
    forall k: int ensures Tokens(cfg, s)[k] == if 0 <= k < cfg.Count() then 1 else 0 {
      RangeCount(0, cfg.Count(), k);
    }
  }

  /** The index whose piece this step writes to disk, if it writes one. */
  function WrittenBy(cfg: Config, s: State, ev: Event): seq<int>
    requires Enabled(cfg, s, ev)
  {
    if ev.ReceiverTakes? && s.replies[0].Piece? && !Step(cfg, s, ev).receiver.Requeueing? then [s.replies[0].index]
    else []
  }

  predicate OfSender(ev: Event) {
    ev.SenderStarts? || ev.SenderPushes? || ev.SenderTakes? || ev.SenderChooses? || ev.SenderLooksUp? || ev.SenderStops?
  }

  predicate OfReceiver(ev: Event) {
    ev.ReceiverTakes? || ev.ReceiverQueues? || ev.ReceiverWrites? || ev.ReceiverChecks? || ev.ReceiverResends?
    || ev.ReceiverBuilds?
  }

  /** Each step that does not abort keeps the whole invariant, and only a piece written to disk leaves the ring. */
  lemma StepInv(cfg: Config, s: State, ev: Event)
    requires Valid(cfg) && Inv(cfg, s) && Enabled(cfg, s, ev) && !Aborted(Step(cfg, s, ev))
    ensures Inv(cfg, Step(cfg, s, ev))
    ensures Tokens(cfg, s) == Tokens(cfg, Step(cfg, s, ev)) + multiset(WrittenBy(cfg, s, ev))
  {
    hide Step, Enabled, OneEach, Typed, SlotsOpen, Shaped, Valid, Tokens;
    if OfSender(ev) {
      SenderKeepsTypes(cfg, s, ev); SenderKeepsSlots(cfg, s, ev);
      SenderKeepsShape(cfg, s, ev); SenderKeepsTokens(cfg, s, ev);
    } else if OfReceiver(ev) {
      ReceiverKeepsTypes(cfg, s, ev); ReceiverKeepsSlots(cfg, s, ev);
      ReceiverKeepsShape(cfg, s, ev); ReceiverKeepsTokens(cfg, s, ev);
    } else {
      ConnKeepsTypes(cfg, s, ev); ConnKeepsSlots(cfg, s, ev); ConnKeepsShape(cfg, s, ev); ConnKeepsTokens(cfg, s, ev);
    }
  }

  lemma SenderKeepsTypes(cfg: Config, s: State, ev: Event)
    requires Valid(cfg) && Inv(cfg, s) && Enabled(cfg, s, ev) && !Aborted(Step(cfg, s, ev)) && OfSender(ev)
    ensures Typed(cfg, Step(cfg, s, ev))
  {
    hide OneEach, SlotsOpen, Tokens;
  }

  lemma SenderKeepsSlots(cfg: Config, s: State, ev: Event)
    requires Valid(cfg) && Inv(cfg, s) && Enabled(cfg, s, ev) && !Aborted(Step(cfg, s, ev)) && OfSender(ev)
    ensures SlotsOpen(Step(cfg, s, ev).conns, Step(cfg, s, ev).slots)
  {
    hide OneEach, Tokens, Typed;
  }

  lemma SenderKeepsShape(cfg: Config, s: State, ev: Event)
    requires Valid(cfg) && Inv(cfg, s) && Enabled(cfg, s, ev) && !Aborted(Step(cfg, s, ev)) && OfSender(ev)
    ensures Shaped(cfg, Step(cfg, s, ev))
  {
    hide Tokens, Typed, SlotsOpen;
  }

  lemma SenderKeepsTokens(cfg: Config, s: State, ev: Event)
    requires Valid(cfg) && Inv(cfg, s) && Enabled(cfg, s, ev) && !Aborted(Step(cfg, s, ev)) && OfSender(ev)
    ensures Step(cfg, s, ev).part == s.part && Tokens(cfg, Step(cfg, s, ev)) == Tokens(cfg, s)
  {
    hide OneEach, SlotsOpen, Shaped, ConnsTyped, Tokens;
    match ev
    case SenderStarts => StartKeepsTokens(cfg, s);
    case SenderPushes => PushKeepsTokens(cfg, s);
    case SenderTakes => TakeKeepsTokens(cfg, s);
    case SenderChooses => ChooseKeepsTokens(cfg, s);
    case SenderLooksUp => LookUpKeepsTokens(cfg, s);
    case SenderStops => StopKeepsTokens(cfg, s);
  }

  lemma ReceiverKeepsTypes(cfg: Config, s: State, ev: Event)
    requires Valid(cfg) && Inv(cfg, s) && Enabled(cfg, s, ev) && !Aborted(Step(cfg, s, ev)) && OfReceiver(ev)
    ensures Typed(cfg, Step(cfg, s, ev))
  {
    hide OneEach, SlotsOpen, Tokens;
  }

  lemma ReceiverKeepsSlots(cfg: Config, s: State, ev: Event)
    requires Valid(cfg) && Inv(cfg, s) && Enabled(cfg, s, ev) && !Aborted(Step(cfg, s, ev)) && OfReceiver(ev)
    ensures SlotsOpen(Step(cfg, s, ev).conns, Step(cfg, s, ev).slots)
  {
    hide OneEach, Tokens, Typed;
  }

  lemma ReceiverKeepsShape(cfg: Config, s: State, ev: Event)
    requires Valid(cfg) && Inv(cfg, s) && Enabled(cfg, s, ev) && !Aborted(Step(cfg, s, ev)) && OfReceiver(ev)
    ensures Shaped(cfg, Step(cfg, s, ev))
  {
    hide Tokens, Typed, SlotsOpen;
  }

  lemma ReceiverKeepsTokens(cfg: Config, s: State, ev: Event)
    requires Valid(cfg) && Inv(cfg, s) && Enabled(cfg, s, ev) && !Aborted(Step(cfg, s, ev)) && OfReceiver(ev)
    ensures OneEach(cfg.Count(), Step(cfg, s, ev).part.status, Tokens(cfg, Step(cfg, s, ev)))
    ensures Tokens(cfg, s) == Tokens(cfg, Step(cfg, s, ev)) + multiset(WrittenBy(cfg, s, ev))
  {
    hide OneEach, SlotsOpen, Shaped, Typed, Tokens, Step, Enabled;
    if ev.ReceiverTakes? {
      ReceiveKeepsTokens(cfg, s);
    } else {
      HandKeepsTokens(cfg, s, ev);
    }
  }

  lemma HandKeepsTokens(cfg: Config, s: State, ev: Event)
    requires Enabled(cfg, s, ev) && !Aborted(Step(cfg, s, ev)) && OfReceiver(ev) && !ev.ReceiverTakes?
    ensures Step(cfg, s, ev).part == s.part && Tokens(cfg, Step(cfg, s, ev)) == Tokens(cfg, s)
  {
    hide Step, Enabled, Bag, Tokens;
    var t := Step(cfg, s, ev);
    HandFrame(cfg, s, ev);
    if ev.ReceiverResends? {
      BagPush(s.resends, s.receiver.msg);
      ResentTokens(cfg, s, t);
    } else {
      SameTokens(cfg, s, t);
    }
  }

  lemma HandFrame(cfg: Config, s: State, ev: Event)
    requires Enabled(cfg, s, ev) && !Aborted(Step(cfg, s, ev)) && OfReceiver(ev) && !ev.ReceiverTakes?
    ensures
      var t := Step(cfg, s, ev);
      && t.sender == s.sender && t.conns == s.conns && t.replies == s.replies && t.part == s.part
      && (if ev.ReceiverResends?
          then s.receiver.Requeueing? && t.resends == s.resends + [s.receiver.msg] && t.receiver.Receiving?
          else t.resends == s.resends && ReceiverBag(t.receiver) == ReceiverBag(s.receiver))
  {
  }

  lemma SameTokens(cfg: Config, s: State, t: State)
    requires ReceiverBag(t.receiver) == ReceiverBag(s.receiver)
    requires t.sender == s.sender && t.replies == s.replies && t.resends == s.resends && t.conns == s.conns
    ensures Tokens(cfg, t) == Tokens(cfg, s)
  {
  }

  lemma ResentTokens(cfg: Config, s: State, t: State)
    requires Bag(t.resends) == Bag(s.resends) + ReceiverBag(s.receiver) && ReceiverBag(t.receiver) == multiset{}
    requires t.sender == s.sender && t.replies == s.replies && t.conns == s.conns
    ensures Tokens(cfg, t) == Tokens(cfg, s)
  {
    hide ConnsBag, SenderBag, Bag, ReceiverBag, Tokens;
    TokensMoved(cfg, s, t);
  }

  /** A reply is held for resending, held as a Cancel, or its token leaves the ring for good and its status byte
      is set. */
  lemma ReceiveKeepsTokens(cfg: Config, s: State)
    requires Valid(cfg) && Inv(cfg, s) && Enabled(cfg, s, ReceiverTakes) && !Aborted(Step(cfg, s, ReceiverTakes))
    ensures OneEach(cfg.Count(), Step(cfg, s, ReceiverTakes).part.status, Tokens(cfg, Step(cfg, s, ReceiverTakes)))
    ensures Tokens(cfg, s) == Tokens(cfg, Step(cfg, s, ReceiverTakes)) + multiset(WrittenBy(cfg, s, ReceiverTakes))
  {
    hide SlotsOpen, Shaped, ConnsTyped, Tokens, OneEach, PartFile.WriteAt, PartFile.AllOnes, Bag;
    var t := Step(cfg, s, ReceiverTakes);
    BagPop(s.replies);
    if t.receiver.CancelSeen? || t.receiver.Requeueing? {
      HeldTokens(cfg, s, t);
    } else {
      TokenLeaves(cfg, s, t, s.replies[0].index);
    }
  }

  lemma HeldTokens(cfg: Config, s: State, t: State)
    requires Bag(s.replies) == ReceiverBag(t.receiver) + Bag(t.replies) && ReceiverBag(s.receiver) == multiset{}
    requires t.sender == s.sender && t.resends == s.resends && t.conns == s.conns
    ensures Tokens(cfg, t) == Tokens(cfg, s)
  {
    hide ConnsBag, SenderBag, Bag, ReceiverBag, Tokens;
    TokensMoved(cfg, s, t);
  }

  lemma TokenLeaves(cfg: Config, s: State, t: State, k: nat)
    requires OneEach(cfg.Count(), s.part.status, Tokens(cfg, s)) && k < |s.part.status|
    requires Bag(s.replies) == multiset{k} + Bag(t.replies)
    requires t.part.status == PartFile.WriteAt(s.part.status, k, [1])
    requires t.sender == s.sender && t.resends == s.resends && t.conns == s.conns
    requires ReceiverBag(t.receiver) == ReceiverBag(s.receiver) == multiset{}
    ensures OneEach(cfg.Count(), t.part.status, Tokens(cfg, t))
    ensures Tokens(cfg, s) == Tokens(cfg, t) + multiset([k])
  {
    hide ConnsBag, SenderBag, Bag, ReceiverBag;
    assert multiset([k]) == multiset{k};
    forall i: int ensures Tokens(cfg, t)[i] == if i == k then Tokens(cfg, s)[i] - 1 else Tokens(cfg, s)[i] {
      assert Bag(s.replies)[i] == multiset{k}[i] + Bag(t.replies)[i];
    }
  }

  lemma ConnKeepsTypes(cfg: Config, s: State, ev: Event)
    requires Valid(cfg) && Inv(cfg, s) && Enabled(cfg, s, ev) && !Aborted(Step(cfg, s, ev))
    requires !OfSender(ev) && !OfReceiver(ev)
    ensures Typed(cfg, Step(cfg, s, ev))
  {
    hide OneEach, SlotsOpen, Tokens;
  }

  lemma ConnKeepsSlots(cfg: Config, s: State, ev: Event)
    requires Valid(cfg) && Inv(cfg, s) && Enabled(cfg, s, ev) && !Aborted(Step(cfg, s, ev))
    requires !OfSender(ev) && !OfReceiver(ev)
    ensures SlotsOpen(Step(cfg, s, ev).conns, Step(cfg, s, ev).slots)
  {
    hide OneEach, Tokens, SenderTyped, ReceiverTyped, RepliesTyped;
  }

  lemma ConnKeepsShape(cfg: Config, s: State, ev: Event)
    requires Valid(cfg) && Inv(cfg, s) && Enabled(cfg, s, ev) && !Aborted(Step(cfg, s, ev))
    requires !OfSender(ev) && !OfReceiver(ev)
    ensures Shaped(cfg, Step(cfg, s, ev))
  {
    hide Tokens, Typed, SlotsOpen;
  }

  lemma ConnKeepsTokens(cfg: Config, s: State, ev: Event)
    requires Valid(cfg) && Inv(cfg, s) && Enabled(cfg, s, ev) && !Aborted(Step(cfg, s, ev))
    requires !OfSender(ev) && !OfReceiver(ev)
    ensures Step(cfg, s, ev).part == s.part && Tokens(cfg, Step(cfg, s, ev)) == Tokens(cfg, s)
  {
    hide OneEach, SlotsOpen, Shaped, Tokens, ConnsBag, Bag, ConnBag, Step, Enabled;
    var t := Step(cfg, s, ev);
    GotRequest(cfg, s, ev);
    ConnFrame(cfg, s, ev);
    ConnsBagUpdate(s.conns, ev.j, t.conns[ev.j]);
    if ev.ConnTakes? {
      TakeBag(s.conns[ev.j]);
    } else if ev.ConnPushes? {
      PushBag(s.conns[ev.j], s.replies);
    } else {
      SamePhaseBag(s.conns[ev.j], t.conns[ev.j]);
    }
    TokensMoved(cfg, s, t);
  }

  lemma GotRequest(cfg: Config, s: State, ev: Event)
    requires ConnsTyped(cfg, s.conns) && Enabled(cfg, s, ev) && !OfSender(ev) && !OfReceiver(ev)
    ensures ev.j < |s.conns| && (s.conns[ev.j].phase.Got? ==> s.conns[ev.j].phase.req.Request?)
  {
  }

  lemma ConnFrame(cfg: Config, s: State, ev: Event)
    requires Enabled(cfg, s, ev) && !OfSender(ev) && !OfReceiver(ev)
    requires s.conns[ev.j].phase.Got? ==> s.conns[ev.j].phase.req.Request?
    ensures
      var t := Step(cfg, s, ev);
      && t.sender == s.sender && t.receiver == s.receiver && t.resends == s.resends && t.part == s.part
      && ev.j < |s.conns| == |t.conns| && t.conns == s.conns[ev.j := t.conns[ev.j]]
      && var c, d := s.conns[ev.j], t.conns[ev.j];
         if ev.ConnTakes? then
           c.phase.Waiting? && c.queue != [] && d == Connection(c.queue[1..], Got(c.queue[0])) && t.replies == s.replies
         else if ev.ConnPushes? then
           c.phase.Replying? && d == c.(phase := Waiting) && t.replies == s.replies + [c.phase.msg]
         else d.queue == c.queue && PhaseBag(d.phase) == PhaseBag(c.phase) && t.replies == s.replies
  {
    match ev
    case ConnTakes(j) =>
    case ConnPushes(j) =>
    case _ => hide PhaseBag; PhaseFrame(cfg, s, ev);
  }

  lemma PhaseFrame(cfg: Config, s: State, ev: Event)
    requires Enabled(cfg, s, ev) && (ev.ConnOpens? || ev.PeerReplies? || ev.ConnCloses?)
    requires s.conns[ev.j].phase.Got? ==> s.conns[ev.j].phase.req.Request?
    ensures |Step(cfg, s, ev).conns| == |s.conns|
    ensures PhaseBag(Step(cfg, s, ev).conns[ev.j].phase) == PhaseBag(s.conns[ev.j].phase)
  {
  }

  /** A connection event hands its token to the next place on the ring. */
  lemma TakeBag(c: Connection)
    requires c.phase.Waiting? && c.queue != []
    ensures ConnBag(Connection(c.queue[1..], Got(c.queue[0]))) == ConnBag(c)
  {
    BagPop(c.queue);
  }

  lemma SamePhaseBag(c: Connection, d: Connection)
    requires c.queue == d.queue && PhaseBag(c.phase) == PhaseBag(d.phase)
    ensures ConnBag(c) == ConnBag(d)
  {
  }

  lemma PushBag(c: Connection, replies: seq<Message>)
    requires c.phase.Replying?
    ensures forall k: int ::
      ConnBag(c)[k] + Bag(replies)[k] == ConnBag(c.(phase := Waiting))[k] + Bag(replies + [c.phase.msg])[k]
  {
    hide Bag;
    BagPush(replies, c.phase.msg);
  }

  /** Tokens that move between places are still the same tokens. */
  lemma TokensMoved(cfg: Config, s: State, t: State)
    requires forall k: int ::
      SenderBag(cfg, s.sender)[k] + ReceiverBag(s.receiver)[k] + Bag(s.replies)[k] + Bag(s.resends)[k]
      + ConnsBag(s.conns)[k]
      == SenderBag(cfg, t.sender)[k] + ReceiverBag(t.receiver)[k] + Bag(t.replies)[k] + Bag(t.resends)[k]
         + ConnsBag(t.conns)[k]
    ensures Tokens(cfg, s) == Tokens(cfg, t)
  {
    hide SenderBag, ReceiverBag, Bag, ConnsBag;
    forall k: int ensures Tokens(cfg, s)[k] == Tokens(cfg, t)[k] {
    }
    assert Tokens(cfg, s) == Tokens(cfg, t);
  }

  lemma EnqueueBag(conns: seq<Connection>, to: nat, req: Message)
    requires to < |conns|
    ensures forall k: int ::
      ConnsBag(Enqueue(conns, to, req))[k] == ConnsBag(conns)[k] + multiset{req.index}[k]
  {
    hide ConnsBag;
    var c := conns[to].(queue := conns[to].queue + [req]);
    BagPush(conns[to].queue, req);
    ConnsBagUpdate(conns, to, c);
  }

  lemma FirstRequestIndex(cfg: Config, i: nat)
    requires Valid(cfg) && i < cfg.Count()
    ensures FirstRequest(cfg, i).index == i && Range(i, cfg.Count()) == multiset{i} + Range(i + 1, cfg.Count())
  {
  }

  lemma StartKeepsTokens(cfg: Config, s: State)
    requires Enabled(cfg, s, SenderStarts) && !Aborted(Step(cfg, s, SenderStarts)) && SenderTyped(cfg, s.sender)
    ensures Tokens(cfg, Step(cfg, s, SenderStarts)) == Tokens(cfg, s)
  {
    hide ConnsBag, Bag, ReceiverBag;
    assert SenderBag(cfg, Step(cfg, s, SenderStarts).sender) == SenderBag(cfg, s.sender);
  }

  lemma ChooseKeepsTokens(cfg: Config, s: State)
    requires Enabled(cfg, s, SenderChooses) && !Aborted(Step(cfg, s, SenderChooses)) && SenderTyped(cfg, s.sender)
    ensures Tokens(cfg, Step(cfg, s, SenderChooses)) == Tokens(cfg, s)
  {
    hide ConnsBag, Bag, ReceiverBag, Range, Wrap32;
    assert SenderBag(cfg, Step(cfg, s, SenderChooses).sender) == SenderBag(cfg, s.sender);
  }

  lemma LookUpKeepsTokens(cfg: Config, s: State)
    requires Enabled(cfg, s, SenderLooksUp) && !Aborted(Step(cfg, s, SenderLooksUp)) && SenderTyped(cfg, s.sender)
    ensures Tokens(cfg, Step(cfg, s, SenderLooksUp)) == Tokens(cfg, s)
  {
    hide ConnsBag, Bag, ReceiverBag, Range, Wrap32;
    assert SenderBag(cfg, Step(cfg, s, SenderLooksUp).sender) == SenderBag(cfg, s.sender);
  }

  lemma StopKeepsTokens(cfg: Config, s: State)
    requires Enabled(cfg, s, SenderStops) && !Aborted(Step(cfg, s, SenderStops)) && SenderTyped(cfg, s.sender)
    ensures Tokens(cfg, Step(cfg, s, SenderStops)) == Tokens(cfg, s)
  {
    hide ConnsBag, Bag, ReceiverBag, Range, Wrap32;
    assert SenderBag(cfg, Step(cfg, s, SenderStops).sender) == SenderBag(cfg, s.sender);
  }

  lemma TakeKeepsTokens(cfg: Config, s: State)
    requires Enabled(cfg, s, SenderTakes) && !Aborted(Step(cfg, s, SenderTakes)) && SenderTyped(cfg, s.sender)
    ensures Tokens(cfg, Step(cfg, s, SenderTakes)) == Tokens(cfg, s)
  {
    hide ConnsBag, ReceiverBag, Range, Wrap32, Tokens;
    TokensMoved(cfg, s, Step(cfg, s, SenderTakes));
  }

  lemma PushKeepsTokens(cfg: Config, s: State)
    requires Valid(cfg) && Enabled(cfg, s, SenderPushes) && !Aborted(Step(cfg, s, SenderPushes))
    requires SenderTyped(cfg, s.sender)
    ensures Tokens(cfg, Step(cfg, s, SenderPushes)) == Tokens(cfg, s)
  {
    hide ConnsBag, Bag, Range, FirstRequest, Enqueue, SenderBag, Tokens;
    var t := Step(cfg, s, SenderPushes);
    var req := if s.sender.SendingFirst? then FirstRequest(cfg, s.sender.next) else s.sender.req;
    assert t == s.(sender := t.sender, conns := Enqueue(s.conns, s.sender.to, req));
    PushedToken(cfg, s.sender, t.sender, req);
    EnqueueBag(s.conns, s.sender.to, req);
    TokensMoved(cfg, s, t);
  }

  /** The sender gives away the token of the request it sends. */
  lemma PushedToken(cfg: Config, x: Sender, y: Sender, req: Message)
    requires Valid(cfg) && SenderTyped(cfg, x)
    requires x.SendingFirst? ==>
      cfg.conns > 0 && req == FirstRequest(cfg, x.next) && y == Starting(x.next + 1)
    requires !x.SendingFirst? ==> x.SendingAgain? && req == x.req && y == Listening(x.sent + 1)
    ensures forall k: int :: SenderBag(cfg, x)[k] == SenderBag(cfg, y)[k] + multiset{req.index}[k]
  {
    hide FirstRequest;
    if x.SendingFirst? {
      FirstRequestIndex(cfg, x.next);
      hide Range;
      assert SenderBag(cfg, x) == multiset{req.index} + SenderBag(cfg, y);
    }
  }

  /** The indices written to disk along a run, in order. */
  function Written(cfg: Config, s: State, evs: seq<Event>): seq<int>
    requires IsRun(cfg, s, evs)
    decreases |evs|
  {
    if evs == [] then [] else WrittenBy(cfg, s, evs[0]) + Written(cfg, Step(cfg, s, evs[0]), evs[1..])
  }

  lemma {:induction false} RunInv(cfg: Config, s: State, evs: seq<Event>)
    requires Valid(cfg) && Inv(cfg, s) && IsRun(cfg, s, evs) && !Aborted(After(cfg, s, evs))
    ensures Inv(cfg, After(cfg, s, evs))
    ensures Tokens(cfg, s) == Tokens(cfg, After(cfg, s, evs)) + multiset(Written(cfg, s, evs))
    decreases |evs|
  {
    hide Step, Enabled, Inv, Valid, Tokens, Aborted, WrittenBy;
    if evs != [] {
      NotAbortedYet(cfg, s, evs);
      StepInv(cfg, s, evs[0]);
      RunInv(cfg, Step(cfg, s, evs[0]), evs[1..]);
      assert Written(cfg, s, evs) == WrittenBy(cfg, s, evs[0]) + Written(cfg, Step(cfg, s, evs[0]), evs[1..]);
    }
  }

  /** Nothing happens after an abort. */
  lemma NotAbortedYet(cfg: Config, s: State, evs: seq<Event>)
    requires evs != [] && IsRun(cfg, s, evs) && !Aborted(After(cfg, s, evs))
    ensures !Aborted(Step(cfg, s, evs[0]))
  {
    hide Step;
    var t := Step(cfg, s, evs[0]);
    if evs[1..] != [] {
      assert Enabled(cfg, t, evs[1..][0]);
    }
  }

  lemma {:induction false} RangeSize(lo: nat, hi: nat)
    requires lo <= hi
    ensures |Range(lo, hi)| == hi - lo
    decreases hi - lo
  {
    if lo < hi {
      RangeSize(lo + 1, hi);
    }
  }

  lemma InitialTokensAreAll(cfg: Config)
    ensures Tokens(cfg, Initial(cfg)) == Range(0, cfg.Count())
  {
    IdleConnsBag(Initial(cfg).conns);
  }

  /** The indices still on the ring together with the indices written to disk are 0, 1, .., n - 1, each
      exactly once, and nothing is left on the ring exactly when the receiver has seen the file complete. */
  ghost predicate Conserved(cfg: Config, s: State, written: seq<int>) {
    && Tokens(cfg, s) + multiset(written) == Range(0, cfg.Count())
    && (Done(s.receiver) <==> Tokens(cfg, s) == multiset{})
  }

  /** Conservation: in every run that has not aborted, no index is lost and none is written twice. */
  lemma Conservation(cfg: Config, evs: seq<Event>)
    requires Valid(cfg) && IsRun(cfg, Initial(cfg), evs) && !Aborted(After(cfg, Initial(cfg), evs))
    ensures Conserved(cfg, After(cfg, Initial(cfg), evs), Written(cfg, Initial(cfg), evs))
  {
    InitialInv(cfg);
    InitialTokensAreAll(cfg);
    RunInv(cfg, Initial(cfg), evs);
    DoneIsEmpty(cfg, After(cfg, Initial(cfg), evs));
  }

  /** In particular the tokens on the ring and the pieces written are as many as the file has pieces. */
  lemma TokensAndWritten(cfg: Config, evs: seq<Event>)
    requires Valid(cfg) && IsRun(cfg, Initial(cfg), evs) && !Aborted(After(cfg, Initial(cfg), evs))
    ensures |Tokens(cfg, After(cfg, Initial(cfg), evs))| + |Written(cfg, Initial(cfg), evs)| == cfg.Count()
  {
    hide Step, Enabled, Tokens;
    Conservation(cfg, evs);
    RangeSize(0, cfg.Count());
  }

  lemma DoneIsEmpty(cfg: Config, s: State)
    requires Inv(cfg, s)
    ensures Done(s.receiver) <==> Tokens(cfg, s) == multiset{}
  {
    hide Tokens, Typed, SlotsOpen;
    if Done(s.receiver) {
      forall k: int ensures Tokens(cfg, s)[k] == 0 {
      }
      assert Tokens(cfg, s) == multiset{};
    } else {
      var k :| 0 <= k < |s.part.status| && s.part.status[k] != 1;
      assert Tokens(cfg, s)[k] == 1;
    }
  }
}
