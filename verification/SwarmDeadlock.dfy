/** The progress bounds are tight, for every number of connections: with one more piece and the right schedule
    all tasks wait for each other. */
module SwarmDeadlock {
  import opened Base
  import opened Wire
  import PartFile
  import opened Swarm
  import opened SwarmTokens
  import opened SwarmProgress
  import opened SwarmSchedules
  import opened SwarmJams
  import opened SwarmPools

  function Rejected(bad: seq<u8>, m: nat): (q: seq<Message>)
    ensures |q| == m
  {
    if m == 0 then [] else Rejected(bad, m - 1) + [Piece(Wrap32(m - 1), bad)]
  }

  /** The first `m` answers are corrupted and wait in the resend queue. */
  lemma {:induction false} RejectsMany(cfg: Config, bad: seq<u8>, m: nat)
    requires Valid(cfg) && Corrupt(cfg, bad) && m <= cfg.Count() && m <= RESEND_CAP
    ensures Reaches(cfg, [], Initial(cfg), Round(cfg, m, Rejected(bad, m), PartFile.Empty(cfg.Count())))
  {
    hide Reaches, Corrupt;
    var part := PartFile.Empty(cfg.Count());
    if m == 0 {
      InitialIsRound(cfg);
      ReachesSelf(cfg, Initial(cfg));
    } else {
      RejectsMany(cfg, bad, m - 1);
      Rejects(cfg, bad, m - 1, Rejected(bad, m - 1), part);
    }
  }

  /** The answer to request `i` is rejected. */
  lemma Rejects(cfg: Config, bad: seq<u8>, i: nat, re: seq<Message>, part: PartFile.Part)
    requires Valid(cfg) && Corrupt(cfg, bad) && i < cfg.Count() && |re| < RESEND_CAP
    requires Reaches(cfg, [], Initial(cfg), Round(cfg, i, re, part))
    ensures Reaches(cfg, [], Initial(cfg), Round(cfg, i + 1, re + [Piece(i, bad)], part))
  {
    hide Reaches, Corrupt, Initial;
    var answer := Piece(i, bad);
    CorruptFits(cfg, bad);
    Asks(cfg, Initial(cfg), i, re, part, bad);
    var s := Round(cfg, i + 1, re, part).(replies := [answer]);
    PutsBack(cfg, bad, s);
  }

  /** After that, gathering requests ends in a jam. */
  lemma Jams(cfg: Config, bad: seq<u8>, m: nat) returns (t: State)
    requires Valid(cfg) && cfg.conns >= 2 && cfg.Count() >= 302 + Max(m, 1) && m <= RESEND_CAP
    requires if m == 0 then cfg.conns == 2 else Corrupt(cfg, bad)
    ensures Reaches(cfg, [], Initial(cfg), t) && Jammed(cfg, t)
    ensures cfg.Count() >= |SenderBag(cfg, t.sender)| + |t.resends| + 302
    ensures m == RESEND_CAP && cfg.Count() >= 403 ==> cfg.Count() >= |SenderBag(cfg, t.sender)| + 402
  {
    hide Reaches, Corrupt, Jammed, Pooled, PoolRest, SenderBag, Valid, Initial;
    var s := Round(cfg, m, Rejected(bad, m), PartFile.Empty(cfg.Count()));
    if m == 0 {
      InitialIsRound(cfg);
      ReachesSelf(cfg, Initial(cfg));
    } else {
      RejectsMany(cfg, bad, m);
    }
    RoundIsPooled(cfg, m, Rejected(bad, m));
    t := Pool(cfg, bad, m, s);
    PooledAlive(cfg, m, t);
    ReachedInv(cfg, [], t);
    RestIsJam(cfg, m, t);
  }

  lemma RoundIsPooled(cfg: Config, m: nat, re: seq<Message>)
    requires cfg.conns > 0 && |re| == m <= RESEND_CAP
    ensures Pooled(cfg, m, Round(cfg, m, re, PartFile.Empty(cfg.Count())))
  {
  }

  /** Around a jam, a flood of corrupted answers blocks everything if there are enough tokens. */
  lemma FloodsJam(cfg: Config, failed: seq<nat>, p: seq<u8>, s: State) returns (t: State)
    requires Valid(cfg) && Reaches(cfg, failed, Initial(cfg), s) && Calm(cfg, p, s)
    requires GuardHeld(s) && Frozen(s, s.sender.to) && !s.receiver.CancelSeen?
    requires s.receiver.AwaitRemove? ==> cfg.Count() >= |SenderBag(cfg, s.sender)| + |s.resends| + 302
    requires !s.receiver.AwaitRemove? ==> cfg.Count() >= |SenderBag(cfg, s.sender)| + 402
    ensures Reaches(cfg, failed, Initial(cfg), t) && Blocked(cfg, t)
  {
    hide Reaches, Calm, Frozen, AtRest, Blocked, Inv, SenderBag, Valid, Initial;
    t := Flood(cfg, failed, p, s.sender.to, s);
    CalmAlive(cfg, p, t);
    ReachedInv(cfg, failed, t);
    FrozenRest(cfg, p, s.sender.to, t);
  }

  lemma CalmAlive(cfg: Config, p: seq<u8>, s: State)
    requires Calm(cfg, p, s)
    ensures !Aborted(s)
  {
  }

  /** In a jam some other connection has a request in hand. */
  lemma OtherRequest(cfg: Config, s: State) returns (j: nat)
    requires Inv(cfg, s) && Jammed(cfg, s) && cfg.Count() >= |SenderBag(cfg, s.sender)| + |s.resends| + 302
    ensures j < |s.conns| && j != s.sender.to && s.conns[j].phase.Got? && s.conns[j].phase.req.Request?
  {
    hide OneEach, Tokens, Typed, Shaped, SlotsOpen;
    Totals(cfg, s);
    if forall i :: 0 <= i < |s.conns| && i != s.sender.to ==> Load(s.conns[i]) == 0 {
      LoadsApart(s.conns, s.sender.to);
    }
    j :| j < |s.conns| && j != s.sender.to && Load(s.conns[j]) != 0;
    GotIsRequest(cfg, s, j);
  }

  lemma GotIsRequest(cfg: Config, s: State, j: nat)
    requires Typed(cfg, s) && j < |s.conns| && s.conns[j].phase.Got?
    ensures s.conns[j].phase.req.Request?
  {
    assert ConnTyped(cfg, s.conns[j]);
  }

  /** Its stream fails, and the receiver queues for the write lock that the jammed sender keeps from it. */
  lemma CancelsInJam(cfg: Config, s: State) returns (j: nat, t: State)
    requires Valid(cfg) && Reaches(cfg, [], Initial(cfg), s) && Jammed(cfg, s)
    requires cfg.Count() >= |SenderBag(cfg, s.sender)| + |s.resends| + 302
    ensures Reaches(cfg, [j], Initial(cfg), t) && Calm(cfg, [], t) && t.receiver.AwaitRemove?
    ensures t.sender == s.sender && t.resends == s.resends && GuardHeld(t) && Frozen(t, t.sender.to)
  {
    hide Reaches, Valid, Initial, Inv, SenderBag;
    ReachedInv(cfg, [], s);
    j := OtherRequest(cfg, s);
    var x := CancelOf(s.conns[j].phase.req);
    Fails(cfg, [], Initial(cfg), s, j);
    assert [] + [j] == [j] && s.replies + [x] == [x];
    var u := SetPhase(s, j, Waiting).(replies := [x]);
    Then(cfg, [j], Initial(cfg), u, ReceiverTakes);
    var v := SetPhase(s, j, Waiting).(receiver := CancelSeen(x));
    assert [x][1..] == [] && Step(cfg, u, ReceiverTakes) == v;
    Then(cfg, [j], Initial(cfg), v, ReceiverQueues);
    t := SetPhase(s, j, Waiting).(receiver := AwaitRemove(x));
  }

  /** Over one connection: the first request fails, and the Cancel is in the receiver's hand. */
  lemma SeesCancel(cfg: Config) returns (t: State)
    requires Valid(cfg) && cfg.conns == 1
    ensures Reaches(cfg, [0], Initial(cfg), t) && Calm(cfg, [], t)
    ensures t.receiver.CancelSeen? && t.resends == [] && t.sender.Starting?
  {
    hide Reaches, Initial;
    var r, part := FirstRequest(cfg, 0), PartFile.Empty(cfg.Count());
    InitialIsRound(cfg);
    ReachesSelf(cfg, Initial(cfg));
    Hands(cfg, Initial(cfg), 0, [], part);
    var v := SetConn(Round(cfg, 1, [], part), 0, Connection([], Got(r)));
    Fails(cfg, [], Initial(cfg), v, 0);
    var x := CancelOf(r);
    var w := SetPhase(v, 0, Waiting).(replies := [x]);
    assert [] + [0] == [0] && [] + [x] == [x];
    Then(cfg, [0], Initial(cfg), w, ReceiverTakes);
    t := w.(replies := [], receiver := CancelSeen(x));
    assert [x][1..] == [] && Step(cfg, w, ReceiverTakes) == t;
  }

  lemma LoneDeadlock(cfg: Config) returns (t: State)
    requires Valid(cfg) && cfg.conns == 1 && cfg.Count() >= 303
    ensures Reaches(cfg, [0], Initial(cfg), t) && Blocked(cfg, t)
  {
    hide Reaches, Calm, AtRest, Blocked, Inv, Valid, Initial, ConnsRest;
    var s := SeesCancel(cfg);
    var u := Flood(cfg, [0], [], 1, s);
    CalmAlive(cfg, [], u);
    ReachedInv(cfg, [0], u);
    LoneRest(cfg, [], u);
    t := u.(receiver := AwaitRemove(u.receiver.msg));
    Then(cfg, [0], Initial(cfg), u, ReceiverQueues);
  }

  /** One failed stream and 303 pieces suffice for a reachable deadlock. Over more than two connections some corrupted
      answers are needed as well. */
  lemma DeadlockWithCancel(cfg: Config, bad: seq<u8>) returns (j: nat, t: State)
    requires Valid(cfg) && cfg.Count() >= 303 && (cfg.conns <= 2 || Corrupt(cfg, bad))
    ensures Deadlocks(cfg, [j], t)
  {
    hide Reaches, Corrupt, Stuck, Blocked, Calm, Frozen, Jammed, Valid, Initial;
    if cfg.conns == 1 {
      j := 0;
      t := LoneDeadlock(cfg);
    } else {
      ConnsPositive(cfg);
      var s := Jams(cfg, bad, if cfg.conns == 2 then 0 else 1);
      var u;
      j, u := CancelsInJam(cfg, s);
      t := FloodsJam(cfg, [j], [], u);
    }
    BlockedIsStuck(cfg, t);
  }

  /** Without any failed stream, corrupted answers and 403 pieces suffice. */
  lemma DeadlockWithoutCancel(cfg: Config, bad: seq<u8>) returns (t: State)
    requires Valid(cfg) && cfg.Count() >= 403 && Corrupt(cfg, bad)
    ensures Deadlocks(cfg, [], t)
  {
    hide Reaches, Corrupt, Stuck, Blocked, Calm, Frozen, Jammed, Valid, Initial, Inv, AtRest;
    if cfg.conns == 1 {
      var s := Round(cfg, 100, Rejected(bad, 100), PartFile.Empty(cfg.Count()));
      RejectsMany(cfg, bad, 100);
      RoundIsCalm(cfg, bad, 100, Rejected(bad, 100));
      t := Flood(cfg, [], bad, 1, s);
      CalmAlive(cfg, bad, t);
      ReachedInv(cfg, [], t);
      LoneRest(cfg, bad, t);
    } else {
      ConnsPositive(cfg);
      var s := Jams(cfg, bad, 100);
      JamIsCalm(cfg, bad, s);
      t := FloodsJam(cfg, [], bad, s);
    }
    BlockedIsStuck(cfg, t);
  }

  lemma RoundIsCalm(cfg: Config, bad: seq<u8>, i: nat, re: seq<Message>)
    requires cfg.conns > 0 && Corrupt(cfg, bad)
    ensures Calm(cfg, bad, Round(cfg, i, re, PartFile.Empty(cfg.Count())))
  {
  }

  lemma JamIsCalm(cfg: Config, bad: seq<u8>, s: State)
    requires cfg.conns > 0 && Corrupt(cfg, bad) && Jammed(cfg, s)
    ensures Calm(cfg, bad, s) && GuardHeld(s) && Frozen(s, s.sender.to) && s.receiver.Receiving?
  {
  }

  /** A state that is neither finished nor aborted, reached while these streams failed, is stuck. */
  ghost predicate Deadlocks(cfg: Config, failed: seq<nat>, t: State) {
    Reaches(cfg, failed, Initial(cfg), t) && Stuck(cfg, t) && !Aborted(t) && !t.receiver.Finished?
  }

  /** No state that is reachable with at most so many failed streams, and neither finished nor aborted, is stuck. */
  ghost predicate NeverStuck(cfg: Config, failures: nat) {
    forall failed, t :: |failed| <= failures ==> !Deadlocks(cfg, failed, t)
  }

  lemma FewPiecesNeverStuck(cfg: Config, failures: nat)
    requires Valid(cfg) && cfg.Count() <= if failures == 0 then 402 else 302
    ensures NeverStuck(cfg, failures)
  {
    hide Step, Enabled, Stuck;
    forall failed, t | |failed| <= failures && Reaches(cfg, failed, Initial(cfg), t) && !Aborted(t)
                       && !t.receiver.Finished?
      ensures !Stuck(cfg, t)
    {
      var evs :| Leads(cfg, failed, Initial(cfg), evs, t);
      if failures == 0 {
        assert failed == [];
        NoneFailed(evs);
        ProgressWithoutCancels(cfg, evs);
        EnabledNotStuck(cfg, t);
      } else {
        Progress(cfg, evs);
      }
    }
  }

  lemma EnabledNotStuck(cfg: Config, t: State)
    requires exists ev :: Enabled(cfg, t, ev) && CancelFree(ev)
    ensures !Stuck(cfg, t)
  {
  }

  /** The exact bound, over any number of connections: if some payload is rejected for every piece, a download in
      which at most so many streams fail can always go on if and only if it has at most 302 pieces, or 402 if none
      fails. */
  lemma ProgressIff(cfg: Config, bad: seq<u8>, failures: nat)
    requires Valid(cfg) && Corrupt(cfg, bad)
    ensures NeverStuck(cfg, failures) <==> cfg.Count() <= if failures == 0 then 402 else 302
  {
    hide Step, Enabled, Stuck, Reaches, Corrupt;
    if cfg.Count() <= if failures == 0 then 402 else 302 {
      FewPiecesNeverStuck(cfg, failures);
    } else if failures == 0 {
      var t := DeadlockWithoutCancel(cfg, bad);
      assert Deadlocks(cfg, [], t);
    } else {
      var j, t := DeadlockWithCancel(cfg, bad);
      assert Deadlocks(cfg, [j], t);
    }
  }

  /** Over one or two connections a failed stream is enough, whatever the peers answer. */
  lemma ProgressIffFewPeers(cfg: Config, failures: nat)
    requires Valid(cfg) && cfg.conns <= 2 && failures > 0
    ensures NeverStuck(cfg, failures) <==> cfg.Count() <= 302
  {
    hide Step, Enabled, Stuck, Reaches;
    if cfg.Count() <= 302 {
      FewPiecesNeverStuck(cfg, failures);
    } else {
      var j, t := DeadlockWithCancel(cfg, []);
      assert Deadlocks(cfg, [j], t);
    }
  }
}
