/** Whose slot a Cancel removes. */
module SwarmSlots {
  import opened Base
  import opened Wire
  import PartFile
  import opened Swarm
  import opened SwarmTokens
  import opened SwarmProgress
  import opened SwarmSchedules
  import opened SwarmJams
  import opened SwarmPools
  import opened SwarmCancels

  /** Requests that connection `j` holds name slot `j`, and so does a Cancel it passes on. */
  ghost predicate SeededConn(j: nat, c: Connection) {
    && (forall i :: 0 <= i < |c.queue| ==> Names(c.queue[i], j))
    && match c.phase
       case Got(m) => Names(m, j)
       case InFlight(m) => Names(m, j)
       case Replying(m) => Names(m, j)
       case _ => true
  }

  predicate Names(m: Message, j: nat) {
    !m.Piece? ==> m.seeder == j
  }

  ghost predicate SeededConns(conns: seq<Connection>) {
    forall j :: 0 <= j < |conns| ==> SeededConn(j, conns[j])
  }

  predicate SeededSender(cfg: Config, x: Sender)
    requires cfg.conns > 0
  {
    match x
    case SendingFirst(i, to) => to == i % cfg.conns
    case SendingAgain(_, req, to) => Names(req, to)
    case _ => true
  }

  /** No slot has been removed. */
  ghost predicate Untouched(cfg: Config, s: State)
    requires cfg.conns > 0
  {
    s.slots == AllSlots(cfg) && SeededConns(s.conns) && SeededSender(cfg, s.sender)
  }

  predicate IsCancel(m: Message) {
    m.Cancel?
  }

  ghost predicate ConnsQuiet(s: State) {
    forall j :: 0 <= j < |s.conns| && s.conns[j].phase.Replying? ==> !IsCancel(s.conns[j].phase.msg)
  }

  ghost predicate RepliesQuiet(s: State) {
    forall i :: 0 <= i < |s.replies| ==> !IsCancel(s.replies[i])
  }

  predicate ReceiverQuiet(s: State) {
    !s.receiver.CancelSeen? && !s.receiver.AwaitRemove?
  }

  /** Exactly one Cancel is under way to the slots, and it names slot `f`. */
  ghost predicate Pending(s: State, f: nat) {
    || (RepliesQuiet(s) && ReceiverQuiet(s) && OneConnCancels(s, f))
    || (ConnsQuiet(s) && ReceiverQuiet(s) && OneReplyCancels(s, f))
    || (ConnsQuiet(s) && RepliesQuiet(s) && !ReceiverQuiet(s) && Names(s.receiver.msg, f) && IsCancel(s.receiver.msg))
  }

  ghost predicate OneConnCancels(s: State, f: nat) {
    f < |s.conns| && forall j :: 0 <= j < |s.conns| ==>
      (s.conns[j].phase.Replying? && IsCancel(s.conns[j].phase.msg) <==> j == f)
  }

  ghost predicate OneReplyCancels(s: State, f: nat) {
    exists k :: 0 <= k < |s.replies| && Names(s.replies[k], f) && OnlyCancel(s.replies, k)
  }

  ghost predicate OnlyCancel(replies: seq<Message>, k: nat) {
    forall i :: 0 <= i < |replies| ==> (IsCancel(replies[i]) <==> i == k)
  }

  function Others(cfg: Config, f: nat): seq<nat>
    requires f < cfg.conns
  {
    AllSlots(cfg)[..f] + AllSlots(cfg)[f + 1..]
  }

  /** With at most one failed stream: nothing has happened to the slots, or its Cancel is under way, or it has removed
      the slot of the connection that failed. */
  ghost predicate Traced(cfg: Config, failed: seq<nat>, s: State)
    requires cfg.conns > 0
  {
    ResendClosed(s) ||
    match |failed|
    case 0 => Untouched(cfg, s) && ConnsQuiet(s) && RepliesQuiet(s) && ReceiverQuiet(s)
    case 1 =>
      failed[0] < cfg.conns &&
      ((Untouched(cfg, s) && Pending(s, failed[0]))
       || (s.slots == Others(cfg, failed[0]) && ConnsQuiet(s) && RepliesQuiet(s) && ReceiverQuiet(s)))
    case _ => false
  }

  predicate TouchesSlots(s: State, ev: Event) {
    ev.ReceiverWrites? && (s.receiver.AwaitRemove? || s.receiver.AwaitDrain?)
  }

  lemma StepUntouched(cfg: Config, s: State, ev: Event)
    requires Valid(cfg) && cfg.conns <= U32_SIZE && Inv(cfg, s) && Untouched(cfg, s)
    requires Enabled(cfg, s, ev) && !Aborted(Step(cfg, s, ev)) && !TouchesSlots(s, ev)
    ensures Untouched(cfg, Step(cfg, s, ev))
  {
    hide OneEach, Tokens, Typed, Shaped, SlotsOpen;
    if OfSender(ev) {
      SenderUntouched(cfg, s, ev);
    } else if OfReceiver(ev) {
      ReceiverUntouched(cfg, s, ev);
    } else {
      ConnUntouched(cfg, s, ev);
    }
  }

  lemma SenderUntouched(cfg: Config, s: State, ev: Event)
    requires Valid(cfg) && cfg.conns <= U32_SIZE && Untouched(cfg, s)
    requires Enabled(cfg, s, ev) && !Aborted(Step(cfg, s, ev)) && OfSender(ev)
    ensures Untouched(cfg, Step(cfg, s, ev))
  {
    if ev.SenderPushes? {
      assert SeededConn(s.sender.to, s.conns[s.sender.to]);
    }
  }

  lemma ReceiverUntouched(cfg: Config, s: State, ev: Event)
    requires cfg.conns > 0 && Untouched(cfg, s) && Enabled(cfg, s, ev) && OfReceiver(ev) && !TouchesSlots(s, ev)
    ensures Untouched(cfg, Step(cfg, s, ev))
  {
    hide SeededConn, PartFile.Apply, PartFile.AllOnes;
  }

  lemma ConnUntouched(cfg: Config, s: State, ev: Event)
    requires cfg.conns > 0 && Untouched(cfg, s) && Enabled(cfg, s, ev) && !OfSender(ev) && !OfReceiver(ev)
    ensures Untouched(cfg, Step(cfg, s, ev))
  {
    assert SeededConn(ev.j, s.conns[ev.j]);
  }

  /** No Cancel comes up by itself. */
  lemma StepQuiet(cfg: Config, s: State, ev: Event)
    requires Enabled(cfg, s, ev) && CancelFree(ev)
    ensures ConnsQuiet(s) ==> ConnsQuiet(Step(cfg, s, ev))
    ensures ConnsQuiet(s) && RepliesQuiet(s) ==> RepliesQuiet(Step(cfg, s, ev))
    ensures RepliesQuiet(s) && ReceiverQuiet(s) ==> ReceiverQuiet(Step(cfg, s, ev))
  {
    hide PartFile.Apply, PartFile.AllOnes, FirstRequest;
  }

  /** The failed stream's Cancel is the only one. */
  lemma StreamFails(cfg: Config, s: State, ev: Event)
    requires Inv(cfg, s) && ConnsQuiet(s) && RepliesQuiet(s) && ReceiverQuiet(s)
    requires Enabled(cfg, s, ev) && !CancelFree(ev)
    ensures ev.j < |s.conns| && Pending(Step(cfg, s, ev), ev.j)
  {
    hide OneEach, Tokens, Shaped, SlotsOpen;
    assert ConnTyped(cfg, s.conns[ev.j]);
    assert OneConnCancels(Step(cfg, s, ev), ev.j);
  }

  lemma StepPending(cfg: Config, s: State, ev: Event, f: nat)
    requires SeededConns(s.conns) && Pending(s, f) && Enabled(cfg, s, ev) && CancelFree(ev)
    requires !TouchesSlots(s, ev)
    ensures Pending(Step(cfg, s, ev), f)
  {
    hide Pending, SeededConns, Step, Enabled;
    if OfSender(ev) {
      SenderPending(cfg, s, ev, f);
    } else if OfReceiver(ev) {
      ReceiverPending(cfg, s, ev, f);
    } else {
      ConnPending(cfg, s, ev, f);
    }
  }

  lemma SenderPending(cfg: Config, s: State, ev: Event, f: nat)
    requires Pending(s, f) && Enabled(cfg, s, ev) && OfSender(ev)
    ensures Pending(Step(cfg, s, ev), f)
  {
    hide FirstRequest;
    var t := Step(cfg, s, ev);
    assert |t.conns| == |s.conns| && forall j :: 0 <= j < |s.conns| ==> t.conns[j].phase == s.conns[j].phase;
    assert t.replies == s.replies && t.receiver == s.receiver;
  }

  lemma ReceiverPending(cfg: Config, s: State, ev: Event, f: nat)
    requires Pending(s, f) && Enabled(cfg, s, ev) && OfReceiver(ev) && !TouchesSlots(s, ev)
    ensures Pending(Step(cfg, s, ev), f)
  {
    hide PartFile.Apply, PartFile.AllOnes;
    var t := Step(cfg, s, ev);
    assert t.conns == s.conns;
    if ev.ReceiverTakes? && OneReplyCancels(s, f) {
      var k :| 0 <= k < |s.replies| && Names(s.replies[k], f) && OnlyCancel(s.replies, k);
      if k > 0 {
        assert OnlyCancel(t.replies, k - 1);
      }
    }
  }

  lemma ConnPending(cfg: Config, s: State, ev: Event, f: nat)
    requires SeededConns(s.conns) && Pending(s, f)
    requires Enabled(cfg, s, ev) && CancelFree(ev) && !OfSender(ev) && !OfReceiver(ev)
    ensures Pending(Step(cfg, s, ev), f)
  {
    var t := Step(cfg, s, ev);
    if ev.ConnPushes? {
      assert SeededConn(ev.j, s.conns[ev.j]);
      PushPending(s, t, ev.j, f);
    }
  }

  lemma PushPending(s: State, t: State, j: nat, f: nat)
    requires j < |s.conns| && s.conns[j].phase.Replying? && Names(s.conns[j].phase.msg, j) && Pending(s, f)
    requires t.conns == s.conns[j := s.conns[j].(phase := Waiting)] && t.receiver == s.receiver
    requires t.replies == s.replies + [s.conns[j].phase.msg]
    ensures Pending(t, f)
  {
    if OneConnCancels(s, f) && RepliesQuiet(s) {
      if j == f {
        assert OnlyCancel(t.replies, |s.replies|) && Names(t.replies[|s.replies|], f);
      } else {
        assert OneConnCancels(t, f);
      }
    } else if OneReplyCancels(s, f) && ConnsQuiet(s) {
      var k :| 0 <= k < |s.replies| && Names(s.replies[k], f) && OnlyCancel(s.replies, k);
      assert OnlyCancel(t.replies, k) && t.replies[k] == s.replies[k];
    }
  }

  /** The Cancel removes the slot of the connection that failed. */
  lemma RemovesOwnSlot(cfg: Config, s: State, f: nat)
    requires cfg.conns > 0 && Untouched(cfg, s) && Pending(s, f) && f < cfg.conns && s.receiver.AwaitRemove?
    requires Enabled(cfg, s, ReceiverWrites)
    ensures
      var t := Step(cfg, s, ReceiverWrites);
      t.slots == Others(cfg, f) && ConnsQuiet(t) && RepliesQuiet(t) && ReceiverQuiet(t)
  {
  }

  lemma SlotsKept(cfg: Config, s: State, ev: Event)
    requires Enabled(cfg, s, ev) && !Aborted(Step(cfg, s, ev))
    ensures ResendClosed(s) ==> ResendClosed(Step(cfg, s, ev))
    ensures ResendClosed(Step(cfg, s, ev)) || TouchesSlots(s, ev) || Step(cfg, s, ev).slots == s.slots
    ensures ev.ReceiverWrites? && s.receiver.AwaitDrain? ==> ResendClosed(Step(cfg, s, ev))
  {
    hide PartFile.Apply, PartFile.AllOnes, FirstRequest;
  }

  lemma StepTraced(cfg: Config, failed: seq<nat>, s: State, ev: Event)
    requires Valid(cfg) && cfg.conns <= U32_SIZE && Inv(cfg, s) && Traced(cfg, failed, s)
    requires Enabled(cfg, s, ev) && !Aborted(Step(cfg, s, ev)) && |failed + FailedBy(ev)| <= 1
    ensures Traced(cfg, failed + FailedBy(ev), Step(cfg, s, ev))
  {
    hide Step, Enabled, Untouched, Pending, ConnsQuiet, RepliesQuiet, Inv, Others, Aborted;
    SlotsKept(cfg, s, ev);
    ConnsPositive(cfg);
    if ResendClosed(s) {
    } else if failed == [] {
      QuietStep(cfg, s, ev);
      assert [] + FailedBy(ev) == FailedBy(ev);
    } else {
      assert failed + FailedBy(ev) == failed;
      FailureStep(cfg, failed[0], s, ev);
    }
  }

  lemma QuietStep(cfg: Config, s: State, ev: Event)
    requires Valid(cfg) && cfg.conns <= U32_SIZE && Inv(cfg, s) && Traced(cfg, [], s) && !ResendClosed(s)
    requires Enabled(cfg, s, ev) && !Aborted(Step(cfg, s, ev))
    ensures Traced(cfg, FailedBy(ev), Step(cfg, s, ev))
  {
    hide Step, Enabled, Untouched, Pending, ConnsQuiet, RepliesQuiet, ResendClosed;
    SlotsKept(cfg, s, ev);
    if !TouchesSlots(s, ev) {
      StepUntouched(cfg, s, ev);
    }
    if CancelFree(ev) {
      StepQuiet(cfg, s, ev);
    } else {
      StreamFails(cfg, s, ev);
    }
  }

  lemma FailureStep(cfg: Config, f: nat, s: State, ev: Event)
    requires Valid(cfg) && cfg.conns <= U32_SIZE && Inv(cfg, s) && Traced(cfg, [f], s) && !ResendClosed(s)
    requires Enabled(cfg, s, ev) && CancelFree(ev) && !Aborted(Step(cfg, s, ev))
    ensures Traced(cfg, [f], Step(cfg, s, ev))
  {
    hide Step, Enabled, Pending, ConnsQuiet, RepliesQuiet, ResendClosed, Others, SeededConns, SeededSender, Inv, Valid;
    SlotsKept(cfg, s, ev);
    ConnsPositive(cfg);
    if Untouched(cfg, s) && Pending(s, f) {
      if !TouchesSlots(s, ev) {
        StepUntouched(cfg, s, ev);
        StepPending(cfg, s, ev, f);
      } else if s.receiver.AwaitRemove? {
        RemovesOwnSlot(cfg, s, f);
      }
    } else {
      StepQuiet(cfg, s, ev);
    }
  }

  lemma {:induction false} RunTraced(cfg: Config, failed: seq<nat>, s: State, evs: seq<Event>)
    requires Valid(cfg) && cfg.conns <= U32_SIZE && Inv(cfg, s) && Traced(cfg, failed, s)
    requires IsRun(cfg, s, evs) && !Aborted(After(cfg, s, evs)) && |failed + Failures(evs)| <= 1
    ensures Traced(cfg, failed + Failures(evs), After(cfg, s, evs))
    decreases |evs|
  {
    hide Step, Enabled, Inv, Valid, Traced, Aborted, FailedBy;
    ConnsPositive(cfg);
    if evs == [] {
      assert failed + [] == failed;
    } else {
      NotAbortedYet(cfg, s, evs);
      StepInv(cfg, s, evs[0]);
      assert failed + Failures(evs) == failed + FailedBy(evs[0]) + Failures(evs[1..]);
      StepTraced(cfg, failed, s, evs[0]);
      RunTraced(cfg, failed + FailedBy(evs[0]), Step(cfg, s, evs[0]), evs[1..]);
    }
  }

  lemma InitialTraced(cfg: Config)
    requires cfg.conns > 0
    ensures Traced(cfg, [], Initial(cfg))
  {
  }

  /** A connection none of whose streams has failed keeps its slot until the download is complete. */
  ghost predicate HealthyKept(cfg: Config, failed: seq<nat>, t: State) {
    Aborted(t) || ResendClosed(t) || forall j: nat :: j < cfg.conns && j !in failed ==> j in t.slots
  }

  ghost predicate KeepsHealthy(cfg: Config, failures: nat) {
    forall failed, t :: |failed| <= failures && Reaches(cfg, failed, Initial(cfg), t) ==> HealthyKept(cfg, failed, t)
  }

  lemma OneFailureKeepsHealthy(cfg: Config, failed: seq<nat>, t: State)
    requires Valid(cfg) && cfg.conns <= U32_SIZE && |failed| <= 1 && Reaches(cfg, failed, Initial(cfg), t)
    ensures HealthyKept(cfg, failed, t)
  {
    hide Step, Enabled, Traced, Aborted;
    var evs :| Leads(cfg, failed, Initial(cfg), evs, t);
    ConnsPositive(cfg);
    if !Aborted(t) {
      InitialInv(cfg);
      InitialTraced(cfg);
      assert [] + Failures(evs) == failed;
      RunTraced(cfg, [], Initial(cfg), evs);
      TracedKeepsHealthy(cfg, failed, t);
    }
  }

  lemma TracedKeepsHealthy(cfg: Config, failed: seq<nat>, t: State)
    requires cfg.conns > 0 && Traced(cfg, failed, t)
    ensures HealthyKept(cfg, failed, t)
  {
    hide Pending, SeededConns, ConnsQuiet, RepliesQuiet;
    forall j: nat | !ResendClosed(t) && j < cfg.conns && j !in failed ensures j in t.slots {
      assert AllSlots(cfg)[j] == j;
      if t.slots != AllSlots(cfg) {
        var f := failed[0];
        assert j in failed <==> j == f;
        assert Others(cfg, f)[if j < f then j else j - 1] == j;
      }
    }
  }

  /** Connections 0 and 1 fail once each. The second Cancel names slot 1, which by then is that of connection 2. */
  lemma NeighbourRemoved(cfg: Config) returns (t: State)
    requires Valid(cfg) && 3 <= cfg.conns && 2 <= cfg.Count()
    ensures Reaches(cfg, [0, 1], Initial(cfg), t) && !Aborted(t) && t.receiver.SlotRemoved? && 2 !in t.slots
  {
    hide Reaches, Initial, FirstRequest;
    FirstSeeder(cfg, 0);
    var r0, r1 := FirstRequest(cfg, 0), FirstRequest(cfg, 1);
    var x0 := CancelOf(r0);
    var s := Spreads(cfg, 1);
    Sends(cfg, [], Initial(cfg), s, 1);
    var s1 := SetQueue(s, 1, [r1]).(sender := Starting(2));
    FirstFails(cfg, [], s1, r0);
    assert [] + [0] == [0] && [x0][1..] == [];
    var s2 := SetPhase(s1, 0, Waiting).(replies := [x0]);
    HandlesCancel(cfg, [0], s2);
    var s3 := s2.(replies := [], slots := s2.slots[1..], numConnections := cfg.conns - 1, receiver := Requeueing(x0));
    t := SecondFails(cfg, s3, r1);
  }

  lemma FirstSeeder(cfg: Config, i: nat)
    requires i < cfg.conns && i < U32_SIZE
    ensures FirstRequest(cfg, i).Request? && FirstRequest(cfg, i).seeder == i
  {
    WrapSmall(i);
    assert i % cfg.conns == i;
    hide Wrap32;
  }

  lemma WrapSmall(i: nat)
    requires i < U32_SIZE
    ensures Wrap32(i) == i
  {
  }

  lemma SecondFails(cfg: Config, s: State, r: Message) returns (t: State)
    requires Reaches(cfg, [0], Initial(cfg), s) && !Aborted(s) && !GuardHeld(s) && s.receiver.Requeueing?
    requires cfg.conns >= 3 && s.resends == [] && s.slots == AllSlots(cfg)[1..] && s.replies == [] && |s.conns| > 1
    requires s.conns[1] == Connection([r], Waiting) && r == FirstRequest(cfg, 1)
    ensures Reaches(cfg, [0, 1], Initial(cfg), t) && !Aborted(t) && t.receiver.SlotRemoved? && 2 !in t.slots
  {
    hide Reaches, Initial, FirstRequest;
    FirstSeeder(cfg, 1);
    var x := CancelOf(r);
    Then(cfg, [0], Initial(cfg), s, ReceiverResends);
    var s' := s.(resends := [s.receiver.msg], receiver := Receiving);
    assert Step(cfg, s, ReceiverResends) == s';
    Takes(cfg, [0], Initial(cfg), s', 1);
    var u := SetConn(s', 1, Connection([], Got(r)));
    assert [r][1..] == [];
    Fails(cfg, [0], Initial(cfg), u, 1);
    assert [0] + [1] == [0, 1] && [] + [x] == [x] && [x][1..] == [];
    var v := SetPhase(u, 1, Waiting).(replies := [x]);
    RemovesNamed(cfg, [0, 1], v);
    t := v.(replies := [], slots := v.slots[..1] + v.slots[2..], receiver := SlotRemoved(x));
  }

  /** With two pieces over two connections, a rejected answer makes connection 0 hold both requests. */
  lemma BothAtFirst(cfg: Config, bad: seq<u8>) returns (t: State)
    requires Valid(cfg) && cfg.conns == 2 == cfg.Count() && Corrupt(cfg, bad)
    ensures Reaches(cfg, [], Initial(cfg), t) && !Aborted(t) && !GuardHeld(t) && t.receiver.Receiving?
    ensures t.slots == [0, 1] && t.numConnections == 2 && t.replies == t.resends == [] && |t.conns| == 2
    ensures t.conns[0].phase == Got(FirstRequest(cfg, 0))
    ensures |t.conns[0].queue| == 1 && Names(t.conns[0].queue[0], 0) && t.conns[0].queue[0].Request?
  {
    hide Reaches, Initial, Corrupt, FirstRequest;
    CorruptFits(cfg, bad);
    var r, answer := FirstRequest(cfg, 1), Piece(1, bad);
    var s := SecondHands(cfg);
    SecondRequest(cfg);
    Answers(cfg, [], Initial(cfg), s, 1, bad);
    var u := SetPhase(s, 1, Waiting).(replies := [answer]);
    assert [] + [answer] == [answer];
    PutsBack(cfg, bad, u);
    t := ResendsToFirst(cfg, u.(replies := [], resends := [answer]), answer);
  }

  /** Both connections have their initial request in hand. */
  lemma SecondHands(cfg: Config) returns (t: State)
    requires Valid(cfg) && cfg.conns == 2 == cfg.Count()
    ensures Reaches(cfg, [], Initial(cfg), t)
    ensures t.conns == [Connection([], Got(FirstRequest(cfg, 0))), Connection([], Got(FirstRequest(cfg, 1)))]
    ensures t.sender == Starting(2) && t.receiver.Receiving? && t.slots == [0, 1] && t.numConnections == 2
    ensures t.replies == t.resends == []
  {
    hide Reaches, Initial, FirstRequest;
    var r := FirstRequest(cfg, 1);
    var s := SpreadsFirst(cfg);
    Sends(cfg, [], Initial(cfg), s, 1);
    var u := SetQueue(s, 1, [r]).(sender := Starting(2));
    Takes(cfg, [], Initial(cfg), u, 1);
    t := SetConn(u, 1, Connection([], Got(r)));
    assert [r][1..] == [];
  }

  lemma SecondRequest(cfg: Config)
    requires cfg.conns == 2
    ensures
      var r := FirstRequest(cfg, 1);
      r.index == 1 && r.length == cfg.PL() && r.Request?
  {
  }

  lemma ResendsToFirst(cfg: Config, s: State, answer: Message) returns (t: State)
    requires Reaches(cfg, [], Initial(cfg), s) && !Aborted(s) && s.receiver.Receiving? && cfg.conns == 2 == |s.conns|
    requires s.sender == Starting(cfg.Count()) && s.resends == [answer] && answer.Piece? && s.slots == [0, 1]
    requires s.numConnections == 2 && s.conns[0].queue == [] && !s.conns[0].phase.Closed?
    ensures Reaches(cfg, [], Initial(cfg), t) && !Aborted(t)
    ensures exists r: Message :: r.Request? && Names(r, 0)
              && t == SetQueue(s, 0, [r]).(sender := Listening(1), resends := [])
  {
    hide Reaches, Initial;
    var r := RepeatRequest(cfg, 0, answer);
    var u := Chooses(cfg, s, answer);
    Then(cfg, [], Initial(cfg), u, SenderLooksUp);
    var v := s.(sender := SendingAgain(0, r, 0), resends := []);
    assert Step(cfg, u, SenderLooksUp) == v;
    Then(cfg, [], Initial(cfg), v, SenderPushes);
    assert [] + [r] == [r];
    t := SetQueue(s, 0, [r]).(sender := Listening(1), resends := []);
    assert Step(cfg, v, SenderPushes) == t;
  }

  lemma Chooses(cfg: Config, s: State, answer: Message) returns (t: State)
    requires Reaches(cfg, [], Initial(cfg), s) && !Aborted(s) && s.receiver.Receiving? && s.numConnections > 0
    requires s.sender == Starting(cfg.Count()) && s.resends == [answer] && answer.Piece?
    ensures t == s.(sender := Addressing(0, RepeatRequest(cfg, 0, answer)), resends := [])
    ensures Reaches(cfg, [], Initial(cfg), t)
  {
    hide Reaches, Initial, RepeatRequest;
    Then(cfg, [], Initial(cfg), s, SenderStarts);
    var u := s.(sender := Listening(0));
    Then(cfg, [], Initial(cfg), u, SenderTakes);
    var v := s.(sender := Choosing(0, answer), resends := []);
    assert Step(cfg, u, SenderTakes) == v;
    Then(cfg, [], Initial(cfg), v, SenderChooses);
    t := s.(sender := Addressing(0, RepeatRequest(cfg, 0, answer)), resends := []);
    assert 0 % s.numConnections == 0;
    assert Step(cfg, v, SenderChooses) == t;
  }

  lemma BothFail(cfg: Config, bad: seq<u8>) returns (t: State)
    requires Valid(cfg) && cfg.conns == 2 == cfg.Count() && Corrupt(cfg, bad)
    ensures Reaches(cfg, [0, 0], Initial(cfg), t) && !Aborted(t) && t.receiver.SlotRemoved? && t.slots == []
  {
    hide Reaches, Initial, Corrupt, FirstRequest;
    FirstSeeder(cfg, 0);
    var s := BothAtFirst(cfg, bad);
    var r, x := s.conns[0].queue[0], CancelOf(FirstRequest(cfg, 0));
    FirstFails(cfg, [], s, FirstRequest(cfg, 0));
    assert [] + [0] == [0] && [x][1..] == [];
    var u := SetPhase(s, 0, Waiting).(replies := [x]);
    HandlesCancel(cfg, [0], u);
    t := SecondCancel(cfg, r,
      u.(replies := [], slots := u.slots[1..], numConnections := 1, receiver := Requeueing(x)));
  }

  /** Two failures can take a healthy connection's slot away, while the download goes on. */
  lemma TwoFailuresRemoveHealthy(cfg: Config, bad: seq<u8>) returns (failed: seq<nat>, t: State)
    requires Valid(cfg) && 2 <= cfg.conns <= cfg.Count() && (cfg.Count() >= 3 || Corrupt(cfg, bad))
    ensures |failed| == 2 && Reaches(cfg, failed, Initial(cfg), t) && !HealthyKept(cfg, failed, t)
  {
    hide Reaches, Initial, Corrupt;
    if cfg.conns >= 3 {
      failed := [0, 1];
      t := NeighbourRemoved(cfg);
      assert 2 !in failed && 2 < cfg.conns;
    } else {
      failed := [0, 0];
      if cfg.Count() >= 3 {
        t := WrongSlotRemoved(cfg);
      } else {
        t := BothFail(cfg, bad);
      }
      assert 1 !in failed && 1 < cfg.conns && 1 !in t.slots;
    }
  }

  /** How many failed streams leave every healthy connection its slot: one. (Over two connections with two pieces, the
      second failure does harm only if an answer can be rejected.) */
  lemma KeepsHealthyIff(cfg: Config, bad: seq<u8>, failures: nat)
    requires Valid(cfg) && 2 <= cfg.conns <= cfg.Count() && (cfg.Count() >= 3 || Corrupt(cfg, bad))
    ensures KeepsHealthy(cfg, failures) <==> failures <= 1
  {
    hide Reaches, Initial, HealthyKept, Corrupt;
    if failures <= 1 {
      forall failed, t | |failed| <= failures && Reaches(cfg, failed, Initial(cfg), t)
        ensures HealthyKept(cfg, failed, t)
      {
        OneFailureKeepsHealthy(cfg, failed, t);
      }
    } else {
      var failed, t := TwoFailuresRemoveHealthy(cfg, bad);
    }
  }
}
