/** Gathering requests: while connection 0 never gets to answer and every other answer is corrupted, resends go round
    until some connection has no room left and the sender waits for it. */
module SwarmPools {
  import opened Base
  import opened Wire
  import opened Pieces
  import PartFile
  import opened Swarm
  import opened SwarmTokens
  import opened SwarmTermination
  import opened SwarmSchedules
  import opened SwarmJams

  /** How many steps after number `i` a round robin over `c` places comes to place `j`. */
  function Gap(c: nat, i: nat, j: nat): (g: nat)
    requires j < c
  {
    if j >= i % c then j - i % c else c + j - i % c
  }

  lemma GapNext(c: nat, i: nat, j: nat)
    requires j < c
    ensures j == i % c ==> Gap(c, i, j) == 0 && Gap(c, i + 1, j) == c - 1
    ensures j != i % c ==> Gap(c, i + 1, j) == Gap(c, i, j) - 1
  {
    ModNext(i, c);
  }

  lemma ModNext(i: nat, c: nat)
    requires c > 0
    ensures (i + 1) % c == if i % c == c - 1 then 0 else i % c + 1
  {
    var q, r := i / c, i % c;
    assert i == q * c + r;
    if r == c - 1 {
      assert i + 1 == (q + 1) * c;
      ModUnique(i + 1, c, q + 1, 0);
    } else {
      ModUnique(i + 1, c, q, r + 1);
    }
  }

  lemma ModUnique(x: nat, c: nat, q: nat, r: nat)
    requires r < c && x == q * c + r
    ensures x % c == r
  {
    var d := x / c - q;
    assert x == (x / c) * c + x % c;
    assert d * c == r - x % c;
    Multiples(d, c);
  }

  /** The initial requests from `m` to `i` have been dealt out and none answered: `m` plus `c` for each request that a
      connection holds is at most the number of the next request it gets. */
  ghost predicate Dealt(c: nat, m: nat, i: nat, conns: seq<Connection>) {
    |conns| == c && m <= i && forall j :: 0 <= j < c ==> m + Offset(c, Load(conns[j])) <= i + Gap(c, i, j)
  }

  /** Connection 0 has been sent every `c`-th resend. */
  ghost predicate Banked(c: nat, sent: nat, conns: seq<Connection>) {
    |conns| == c > 0 && sent + Gap(c, sent, 0) <= Offset(c, Load(conns[0]))
  }

  ghost predicate Pooled(cfg: Config, m: nat, s: State) {
    && s.receiver.Receiving? && s.replies == [] && s.part == PartFile.Empty(cfg.Count())
    && s.slots == AllSlots(cfg) && s.numConnections == cfg.conns == |s.conns| > 0 && m <= RESEND_CAP
    && (forall j :: 0 <= j < cfg.conns ==> s.conns[j].phase.Waiting? || s.conns[j].phase.Got?)
    && PooledSender(cfg, m, s)
  }

  ghost predicate PooledSender(cfg: Config, m: nat, s: State)
    requires cfg.conns == |s.conns| > 0
  {
    match s.sender
    case Starting(i) => |s.resends| == m && Dealt(cfg.conns, m, i, s.conns)
    case SendingFirst(i, to) => |s.resends| == m && Dealt(cfg.conns, m, i, s.conns) && to == i % cfg.conns
    case Listening(sent) => |s.resends| <= m && Banked(cfg.conns, sent, s.conns)
    case Choosing(sent, _) => |s.resends| + 1 == m && Banked(cfg.conns, sent, s.conns)
    case Addressing(sent, req) =>
      && |s.resends| + 1 == m && Banked(cfg.conns, sent, s.conns) && req.Request?
      && req.seeder < cfg.conns && (sent % cfg.conns == 0 ==> req.seeder == 0)
    case SendingAgain(sent, _, to) =>
      && |s.resends| + 1 == m && Banked(cfg.conns, sent, s.conns)
      && to < cfg.conns && (sent % cfg.conns == 0 ==> to == 0)
    case _ => false
  }

  predicate Pools(m: nat, s: State, ev: Event) {
    match ev
    case SenderStarts => true
    case SenderPushes => true
    case SenderTakes => |s.resends| == m
    case SenderChooses => true
    case SenderLooksUp => true
    case ConnTakes(_) => true
    case _ => false
  }

  function Sent(x: Sender): nat {
    match x
    case Listening(sent) => sent
    case Choosing(sent, _) => sent
    case Addressing(sent, _) => sent
    case SendingAgain(sent, _, _) => sent
    case _ => 0
  }

  /** Work still to be done, and resends that still fit into connection 0. */
  function PoolRank(cfg: Config, s: State): nat {
    Work(cfg, s) + 11 * Max(0, Offset(cfg.conns, 151) - Sent(s.sender))
  }

  lemma {:induction false} OffsetGrows(c: nat, i: nat, j: nat)
    requires i <= j
    ensures Offset(c, i) <= Offset(c, j)
  {
    if i < j {
      OffsetGrows(c, i, j - 1);
    }
  }

  lemma SentFits(cfg: Config, m: nat, s: State)
    requires Inv(cfg, s) && Pooled(cfg, m, s)
    ensures Sent(s.sender) <= Offset(cfg.conns, 151)
  {
    hide Tokens, OneEach, Offset, Dealt;
    assert ConnTyped(cfg, s.conns[0]);
    OffsetGrows(cfg.conns, Load(s.conns[0]), 151);
  }

  lemma PoolStep(cfg: Config, m: nat, s: State, ev: Event)
    requires Valid(cfg) && Inv(cfg, s) && Pooled(cfg, m, s) && Enabled(cfg, s, ev) && Pools(m, s, ev)
    ensures Pooled(cfg, m, Step(cfg, s, ev)) && !Aborted(Step(cfg, s, ev))
  {
    hide Pooled, Inv, Valid, Step, Enabled;
    if ev.SenderPushes? {
      PoolPush(cfg, m, s);
    } else if ev.ConnTakes? {
      PoolTake(cfg, m, s, ev.j);
    } else {
      PoolSender(cfg, m, s, ev);
    }
  }

  lemma PoolSender(cfg: Config, m: nat, s: State, ev: Event)
    requires Valid(cfg) && Inv(cfg, s) && Pooled(cfg, m, s) && Enabled(cfg, s, ev) && Pools(m, s, ev)
    requires !ev.SenderPushes? && !ev.ConnTakes?
    ensures Pooled(cfg, m, Step(cfg, s, ev)) && !Aborted(Step(cfg, s, ev))
  {
    hide Pooled, Step, Valid, OneEach, Tokens, Typed, SlotsOpen, Shaped;
    if ev.SenderStarts? {
      PoolStarts(cfg, m, s);
    } else if ev.SenderTakes? {
      PoolTakes(cfg, m, s);
    } else if ev.SenderChooses? {
      PoolChooses(cfg, m, s);
    } else {
      PoolLooksUp(cfg, m, s);
    }
  }

  lemma PoolStarts(cfg: Config, m: nat, s: State)
    requires Inv(cfg, s) && Pooled(cfg, m, s) && Enabled(cfg, s, SenderStarts)
    ensures Pooled(cfg, m, Step(cfg, s, SenderStarts)) && !Aborted(Step(cfg, s, SenderStarts))
  {
    hide Dealt, Banked, Tokens, OneEach, ConnsTyped, RepliesTyped, SlotsOpen, Shaped;
    if s.sender.next == cfg.Count() {
      BankedAtFirst(s.conns);
    }
  }

  lemma PoolTakes(cfg: Config, m: nat, s: State)
    requires Pooled(cfg, m, s) && Enabled(cfg, s, SenderTakes) && |s.resends| == m
    ensures Pooled(cfg, m, Step(cfg, s, SenderTakes)) && !Aborted(Step(cfg, s, SenderTakes))
  {
    hide Dealt, Banked;
  }

  lemma PoolChooses(cfg: Config, m: nat, s: State)
    requires Inv(cfg, s) && Pooled(cfg, m, s) && Enabled(cfg, s, SenderChooses)
    ensures Pooled(cfg, m, Step(cfg, s, SenderChooses)) && !Aborted(Step(cfg, s, SenderChooses))
  {
    hide Dealt, Banked, Tokens, OneEach, ConnsTyped, RepliesTyped, SlotsOpen, Shaped;
  }

  lemma PoolLooksUp(cfg: Config, m: nat, s: State)
    requires Pooled(cfg, m, s) && Enabled(cfg, s, SenderLooksUp)
    ensures Pooled(cfg, m, Step(cfg, s, SenderLooksUp)) && !Aborted(Step(cfg, s, SenderLooksUp))
  {
    hide Dealt, Banked;
  }

  lemma PoolTake(cfg: Config, m: nat, s: State, j: nat)
    requires Pooled(cfg, m, s) && Enabled(cfg, s, ConnTakes(j))
    ensures Pooled(cfg, m, Step(cfg, s, ConnTakes(j))) && !Aborted(Step(cfg, s, ConnTakes(j)))
  {
    hide Dealt, Banked, Load;
    var t := Step(cfg, s, ConnTakes(j));
    LoadSame(s.conns[j]);
    assert forall i :: 0 <= i < |s.conns| ==> Load(t.conns[i]) == Load(s.conns[i]);
    SameDeal(cfg.conns, m, s.conns, t.conns);
  }

  lemma BankedAtFirst(conns: seq<Connection>)
    requires |conns| > 0
    ensures Banked(|conns|, 0, conns)
  {
  }

  lemma LoadSame(c: Connection)
    requires c.phase.Waiting? && c.queue != []
    ensures Load(Connection(c.queue[1..], Got(c.queue[0]))) == Load(c)
  {
  }

  lemma SameDeal(c: nat, m: nat, before: seq<Connection>, after: seq<Connection>)
    requires |before| == |after| == c > 0 && forall j :: 0 <= j < c ==> Load(after[j]) == Load(before[j])
    ensures forall i: nat :: Dealt(c, m, i, before) ==> Dealt(c, m, i, after)
    ensures forall i: nat :: Banked(c, i, before) ==> Banked(c, i, after)
  {
    hide Load, Offset, Gap;
  }

  /** One more initial request for the connection whose turn it is. */
  lemma Deals(c: nat, m: nat, i: nat, before: seq<Connection>, after: seq<Connection>)
    requires Dealt(c, m, i, before) && c > 0 && |after| == c
    requires forall j :: 0 <= j < c ==> Load(after[j]) == Load(before[j]) + if j == i % c then 1 else 0
    ensures Dealt(c, m, i + 1, after)
  {
    hide Load, Gap;
    forall j | 0 <= j < c ensures m + Offset(c, Load(after[j])) <= i + 1 + Gap(c, i + 1, j) {
      GapNext(c, i, j);
    }
  }

  /** One more resend, which goes to connection 0 if it is that one's turn. */
  lemma Banks(c: nat, sent: nat, before: seq<Connection>, after: seq<Connection>)
    requires Banked(c, sent, before) && |after| == c
    requires Load(after[0]) >= Load(before[0]) + if sent % c == 0 then 1 else 0
    ensures Banked(c, sent + 1, after)
  {
    hide Load, Gap;
    GapNext(c, sent, 0);
    OffsetGrows(c, Load(before[0]) + (if sent % c == 0 then 1 else 0), Load(after[0]));
  }

  lemma PoolPush(cfg: Config, m: nat, s: State)
    requires Valid(cfg) && Inv(cfg, s) && Pooled(cfg, m, s) && Enabled(cfg, s, SenderPushes)
    ensures Pooled(cfg, m, Step(cfg, s, SenderPushes)) && !Aborted(Step(cfg, s, SenderPushes))
  {
    hide Dealt, Banked, Tokens, OneEach, FirstRequest;
    var t, to := Step(cfg, s, SenderPushes), s.sender.to;
    assert s.slots[to] == to && !s.conns[to].phase.Closed?;
    assert forall j :: 0 <= j < |s.conns| ==> Load(t.conns[j]) == Load(s.conns[j]) + if j == to then 1 else 0;
    if s.sender.SendingFirst? {
      Deals(cfg.conns, m, s.sender.next, s.conns, t.conns);
    } else {
      Banks(cfg.conns, s.sender.sent, s.conns, t.conns);
    }
  }

  lemma PoolOn(cfg: Config, p: seq<u8>, m: nat, s: State, ev: Event)
    requires Valid(cfg) && Reaches(cfg, [], Initial(cfg), s) && Pooled(cfg, m, s)
    requires Enabled(cfg, s, ev) && Pools(m, s, ev)
    ensures
      var t := Step(cfg, s, ev);
      Reaches(cfg, [], Initial(cfg), t) && Pooled(cfg, m, t) && PoolRank(cfg, t) < PoolRank(cfg, s)
  {
    hide Step, Enabled, Reaches, Initial, Work, Valid, Inv, Offset, Pooled;
    PooledAlive(cfg, m, s);
    ReachedInv(cfg, [], s);
    PoolStep(cfg, m, s, ev);
    Then(cfg, [], Initial(cfg), s, ev);
    TameWorks(cfg, p, s, ev);
    ReachedInv(cfg, [], Step(cfg, s, ev));
    SentFits(cfg, m, Step(cfg, s, ev));
    SentGrows(cfg, m, s, ev);
  }

  lemma PooledAlive(cfg: Config, m: nat, s: State)
    requires Pooled(cfg, m, s)
    ensures !Aborted(s)
  {
  }

  lemma SentGrows(cfg: Config, m: nat, s: State, ev: Event)
    requires Enabled(cfg, s, ev) && Pools(m, s, ev) && !Aborted(Step(cfg, s, ev))
    ensures Sent(Step(cfg, s, ev).sender)
            >= Sent(s.sender) + if ev.SenderPushes? && s.sender.SendingAgain? then 1 else 0
  {
  }

  /** A connection other than 0 answers with a corrupted payload, which ends up in the resend queue. */
  lemma Recycles(cfg: Config, bad: seq<u8>, m: nat, s: State, j: nat) returns (t: State)
    requires Valid(cfg) && Reaches(cfg, [], Initial(cfg), s) && Pooled(cfg, m, s) && Corrupt(cfg, bad)
    requires s.sender.Listening? && |s.resends| < m && 0 < j < |s.conns| && s.conns[j].phase.Got?
    ensures Reaches(cfg, [], Initial(cfg), t) && Pooled(cfg, m, t) && PoolRank(cfg, t) < PoolRank(cfg, s)
  {
    hide Reaches, Initial, Valid, Tokens, OneEach, Work, Corrupt, Banked, Dealt;
    ReachedInv(cfg, [], s);
    assert ConnTyped(cfg, s.conns[j]);
    var req := s.conns[j].phase.req;
    var answer := Piece(req.index, bad);
    CorruptFits(cfg, bad);
    Answers(cfg, [], Initial(cfg), s, j, bad);
    var u := SetPhase(s, j, Waiting).(replies := [answer]);
    assert [] + [answer] == [answer];
    PutsBack(cfg, bad, u);
    t := SetPhase(s, j, Waiting).(resends := s.resends + [answer]);
    Recycled(cfg, s, t, j, answer);
    BankedAlike(cfg.conns, s.sender.sent, s.conns, t.conns);
  }

  lemma CorruptFits(cfg: Config, bad: seq<u8>)
    requires Corrupt(cfg, bad)
    ensures |bad| <= cfg.PL()
  {
  }

  /** A corrupted answer goes from the reply queue into the resend queue. */
  lemma PutsBack(cfg: Config, bad: seq<u8>, s: State)
    requires Valid(cfg) && Corrupt(cfg, bad) && Reaches(cfg, [], Initial(cfg), s)
    requires s.receiver.Receiving? && !Aborted(s) && |s.resends| < RESEND_CAP
    requires |s.replies| == 1 && Carries(bad, s.replies[0]) && s.replies[0].index < cfg.Count()
    ensures Reaches(cfg, [], Initial(cfg), s.(replies := [], resends := s.resends + s.replies))
  {
    hide Reaches, Initial;
    var m := s.replies[0];
    assert s.replies == [m] && s.replies[1..] == [];
    Then(cfg, [], Initial(cfg), s, ReceiverTakes);
    var t := s.(replies := [], receiver := Requeueing(m));
    assert Step(cfg, s, ReceiverTakes) == t;
    Then(cfg, [], Initial(cfg), t, ReceiverResends);
    assert Step(cfg, t, ReceiverResends) == s.(replies := [], resends := s.resends + s.replies);
  }

  lemma BankedAlike(c: nat, sent: nat, before: seq<Connection>, after: seq<Connection>)
    requires Banked(c, sent, before) && |after| == |before| && after[0] == before[0]
    ensures Banked(c, sent, after)
  {
  }

  lemma Recycled(cfg: Config, s: State, t: State, j: nat, answer: Message)
    requires j < |s.conns| && s.conns[j].phase.Got?
    requires t == SetPhase(s, j, Waiting).(resends := s.resends + [answer])
    ensures Work(cfg, t) < Work(cfg, s)
  {
    hide ConnsRank, ConnsDebt, SenderRank, ReceiverRank, RepliesRank;
    ConnsRankUpdate(cfg, s.conns, j, t.conns[j]);
    ConnsDebtUpdate(s.conns, j, t.conns[j]);
  }

  ghost predicate PoolRest(cfg: Config, m: nat, s: State) {
    && (forall ev :: Pools(m, s, ev) ==> !Enabled(cfg, s, ev))
    && (s.sender.Listening? && |s.resends| < m ==> forall j :: 0 < j < |s.conns| ==> !s.conns[j].phase.Got?)
  }

  /** Gathering comes to rest. */
  lemma Pool(cfg: Config, bad: seq<u8>, m: nat, s: State) returns (t: State)
    requires Valid(cfg) && Reaches(cfg, [], Initial(cfg), s) && Pooled(cfg, m, s) && (m > 0 ==> Corrupt(cfg, bad))
    ensures Reaches(cfg, [], Initial(cfg), t) && Pooled(cfg, m, t) && PoolRest(cfg, m, t)
    decreases PoolRank(cfg, s)
  {
    hide Step, Enabled, Pools, Reaches, Initial, Valid, Pooled, PoolRank, Corrupt;
    if ev :| Pools(m, s, ev) && Enabled(cfg, s, ev) {
      PoolOn(cfg, bad, m, s, ev);
      t := Pool(cfg, bad, m, Step(cfg, s, ev));
    } else if s.sender.Listening? && |s.resends| < m && exists j :: 0 < j < |s.conns| && s.conns[j].phase.Got? {
      var j :| 0 < j < |s.conns| && s.conns[j].phase.Got?;
      t := Recycles(cfg, bad, m, s, j);
      t := Pool(cfg, bad, m, t);
    } else {
      t := s;
    }
  }

  /** Nothing has been written or answered, and the sender waits for a connection that has no room. */
  ghost predicate Jammed(cfg: Config, s: State) {
    && GuardHeld(s) && Frozen(s, s.sender.to) && s.receiver.Receiving? && s.replies == []
    && s.part == PartFile.Empty(cfg.Count()) && s.slots == AllSlots(cfg) && s.numConnections == cfg.conns == |s.conns|
    && (forall j :: 0 <= j < |s.conns| ==>
          s.conns[j].phase.Got? || (s.conns[j].phase.Waiting? && s.conns[j].queue == []))
  }

  lemma RestingPool(cfg: Config, m: nat, s: State)
    requires Valid(cfg) && Inv(cfg, s) && Pooled(cfg, m, s) && PoolRest(cfg, m, s)
    ensures s.sender.Listening? || s.sender.SendingFirst? || s.sender.SendingAgain?
    ensures s.sender.Listening? ==> |s.resends| < m || m == 0
    ensures forall j :: 0 <= j < |s.conns| ==> Load(s.conns[j]) <= 151
    ensures forall j :: 0 <= j < |s.conns| ==>
              s.conns[j].phase.Got? || (s.conns[j].phase.Waiting? && s.conns[j].queue == [])
    ensures s.sender.Listening? && |s.resends| < m ==> forall j :: 0 < j < |s.conns| ==> Load(s.conns[j]) == 0
    ensures GuardHeld(s) ==> s.sender.to < |s.conns| && |s.conns[s.sender.to].queue| == REQUEST_CAP
  {
    hide OneEach, Tokens, Dealt, Banked, Offset, Gap;
    assert !Enabled(cfg, s, SenderStarts) && !Enabled(cfg, s, SenderPushes);
    assert |s.resends| == m ==> !Enabled(cfg, s, SenderTakes);
    assert !Enabled(cfg, s, SenderChooses) && !Enabled(cfg, s, SenderLooksUp);
    forall j: nat | j < |s.conns|
      ensures Load(s.conns[j]) <= 151
      ensures s.conns[j].phase.Got? || (s.conns[j].phase.Waiting? && s.conns[j].queue == [])
    {
      assert ConnTyped(cfg, s.conns[j]);
      assert !Enabled(cfg, s, ConnTakes(j));
    }
    if GuardHeld(s) {
      assert ConnTyped(cfg, s.conns[s.sender.to]);
    }
  }

  /** A connection that has had 151 initial requests has had them over 151 rounds. */
  lemma FullShare(c: nat, m: nat, i: nat, conns: seq<Connection>)
    requires c >= 2 && Dealt(c, m, i, conns) && Load(conns[i % c]) == 151
    ensures i >= m + 302
  {
    hide Load, Offset;
    GapNext(c, i, i % c);
    OffsetIsProduct(c, 151);
  }

  /** Over two or more connections gathering ends in a jam, with enough requests handed out. */
  lemma RestIsJam(cfg: Config, m: nat, s: State)
    requires Valid(cfg) && Inv(cfg, s) && Pooled(cfg, m, s) && PoolRest(cfg, m, s)
    requires cfg.conns >= 2 && cfg.Count() >= 302 + Max(m, 1) && (m == 0 ==> cfg.conns == 2)
    ensures Jammed(cfg, s) && cfg.Count() >= |SenderBag(cfg, s.sender)| + |s.resends| + 302
    ensures m == RESEND_CAP && cfg.Count() >= 403 ==> cfg.Count() >= |SenderBag(cfg, s.sender)| + 402
  {
    hide OneEach, Tokens, Dealt, Banked, SenderBag, ConnsTyped, RepliesTyped;
    RestingPool(cfg, m, s);
    UnsentCount(cfg, s.sender);
    Totals(cfg, s);
    if s.sender.Listening? {
      if m == 0 {
        FullLoads(s.conns);
      } else {
        LoadsApart(s.conns, 0);
      }
    } else if s.sender.SendingFirst? {
      FullShare(cfg.conns, m, s.sender.next, s.conns);
    }
  }
}
