/** Every Cancel costs the download one connection slot, whichever connection sent it. */
module SwarmCancels {
  import opened Base
  import opened Wire
  import PartFile
  import opened Swarm
  import opened SwarmTokens
  import opened SwarmSchedules
  import opened SwarmSuccess

  predicate Removes(s: State, ev: Event) {
    ev.ReceiverWrites? && s.receiver.AwaitRemove?
  }

  /** The slot removals along a run. */
  function Removals(cfg: Config, s: State, evs: seq<Event>): nat
    requires IsRun(cfg, s, evs)
    decreases |evs|
  {
    if evs == [] then 0
    else (if Removes(s, evs[0]) then 1 else 0) + Removals(cfg, Step(cfg, s, evs[0]), evs[1..])
  }

  /** As long as the slots are not drained, at least one is left whenever the receiver is not in the
      middle of a removal. */
  ghost predicate SlotLeft(s: State) {
    !ResendClosed(s) && !s.receiver.SlotRemoved? && !s.receiver.AwaitDecrement? && !s.receiver.Decremented?
    ==> |s.slots| > 0
  }

  lemma StepSlots(cfg: Config, s: State, ev: Event)
    requires Valid(cfg) && Inv(cfg, s) && SlotLeft(s) && Enabled(cfg, s, ev) && !Aborted(Step(cfg, s, ev))
    ensures SlotLeft(Step(cfg, s, ev))
    ensures ResendClosed(s) ==> ResendClosed(Step(cfg, s, ev))
    ensures !ResendClosed(Step(cfg, s, ev)) ==> |Step(cfg, s, ev).slots| == |s.slots| - if Removes(s, ev) then 1 else 0
  {
    hide Tokens, OneEach, ConnsTyped, RepliesTyped, SlotsOpen, SenderTyped;
  }

  lemma {:induction false} RunSlots(cfg: Config, s: State, evs: seq<Event>)
    requires Valid(cfg) && Inv(cfg, s) && SlotLeft(s) && IsRun(cfg, s, evs) && !Aborted(After(cfg, s, evs))
    ensures SlotLeft(After(cfg, s, evs))
    ensures ResendClosed(s) ==> ResendClosed(After(cfg, s, evs))
    ensures !ResendClosed(After(cfg, s, evs)) ==> |After(cfg, s, evs).slots| == |s.slots| - Removals(cfg, s, evs)
    decreases |evs|
  {
    hide Step, Enabled, Inv, Valid, Aborted, SlotLeft, ResendClosed, Removes;
    if evs != [] {
      NotAbortedYet(cfg, s, evs);
      StepInv(cfg, s, evs[0]);
      StepSlots(cfg, s, evs[0]);
      RunSlots(cfg, Step(cfg, s, evs[0]), evs[1..]);
    }
  }

  /** While a download over `c` connections is going on, the Cancels handled so far and the slots left add up
      to `c`, and one slot is left. So more than `c - 1` Cancels are never survived; that one need not be is shown
      below. */
  lemma CancelBudget(cfg: Config, evs: seq<Event>)
    requires Valid(cfg) && IsRun(cfg, Initial(cfg), evs)
    requires !Aborted(After(cfg, Initial(cfg), evs)) && After(cfg, Initial(cfg), evs).receiver.Receiving?
    ensures
      var s := After(cfg, Initial(cfg), evs);
      && |s.slots| + Removals(cfg, Initial(cfg), evs) == cfg.conns
      && s.numConnections == |s.slots| > 0
  {
    hide Step, Enabled, Tokens, Typed;
    InitialInv(cfg);
    RunInv(cfg, Initial(cfg), evs);
    RunSlots(cfg, Initial(cfg), evs);
  }

  /** Initial requests have gone to the connections before `i`, and connection 0 has taken its own. */
  ghost predicate Spread(cfg: Config, i: nat, s: State) {
    && |s.conns| == cfg.conns > 0
    && s == State(Starting(i), Receiving, s.conns, AllSlots(cfg), cfg.conns, [], [], PartFile.Empty(cfg.Count()), None)
    && s.conns[0] == Connection([], Got(FirstRequest(cfg, 0)))
    && forall j :: i <= j < cfg.conns ==> s.conns[j] == Connection([], Waiting)
  }

  lemma {:induction false} Spreads(cfg: Config, i: nat) returns (t: State)
    requires Valid(cfg) && 1 <= i <= cfg.conns && i <= cfg.Count()
    ensures Reaches(cfg, [], Initial(cfg), t) && Spread(cfg, i, t)
  {
    hide Reaches, FirstRequest, Initial, Valid;
    if i == 1 {
      t := SpreadsFirst(cfg);
    } else {
      var s := Spreads(cfg, i - 1);
      Sends(cfg, [], Initial(cfg), s, i - 1);
      t := SetQueue(s, i - 1, [FirstRequest(cfg, i - 1)]).(sender := Starting(i));
    }
  }

  lemma SpreadsFirst(cfg: Config) returns (t: State)
    requires Valid(cfg)
    ensures Reaches(cfg, [], Initial(cfg), t) && Spread(cfg, 1, t)
  {
    hide Reaches, FirstRequest, Initial;
    var part := PartFile.Empty(cfg.Count());
    InitialIsRound(cfg);
    ReachesSelf(cfg, Initial(cfg));
    Hands(cfg, Initial(cfg), 0, [], part);
    t := SetConn(Round(cfg, 1, [], part), 0, Connection([], Got(FirstRequest(cfg, 0))));
  }

  /** The receiver takes a Cancel and removes the slot it names. */
  lemma RemovesNamed(cfg: Config, failed: seq<nat>, s: State)
    requires Reaches(cfg, failed, Initial(cfg), s) && s.receiver.Receiving? && !Aborted(s) && !GuardHeld(s)
    requires s.replies != [] && s.replies[0].Cancel? && s.replies[0].seeder < |s.slots|
    ensures
      var k := s.replies[0].seeder;
      Reaches(cfg, failed, Initial(cfg), s.(replies := s.replies[1..], slots := s.slots[..k] + s.slots[k + 1..],
                                            receiver := SlotRemoved(s.replies[0])))
  {
    hide Reaches, Initial;
    var m := s.replies[0];
    Then(cfg, failed, Initial(cfg), s, ReceiverTakes);
    var t := s.(replies := s.replies[1..], receiver := CancelSeen(m));
    Then(cfg, failed, Initial(cfg), t, ReceiverQueues);
    Then(cfg, failed, Initial(cfg), t.(receiver := AwaitRemove(m)), ReceiverWrites);
    var u := t.(slots := s.slots[..m.seeder] + s.slots[m.seeder + 1..], receiver := SlotRemoved(m));
    assert Step(cfg, t.(receiver := AwaitRemove(m)), ReceiverWrites) == u;
  }

  lemma RemovesSlot(cfg: Config, failed: seq<nat>, s: State)
    requires Reaches(cfg, failed, Initial(cfg), s) && s.receiver.Receiving? && !Aborted(s) && !GuardHeld(s)
    requires s.replies != [] && s.replies[0].Cancel? && s.replies[0].seeder == 0 && s.slots != []
    ensures Reaches(cfg, failed, Initial(cfg),
                    s.(replies := s.replies[1..], slots := s.slots[1..], receiver := SlotRemoved(s.replies[0])))
  {
    hide Reaches, Initial;
    RemovesNamed(cfg, failed, s);
    assert s.slots[..0] + s.slots[1..] == s.slots[1..];
  }

  /** Then it decrements the counter and checks it. */
  lemma HandlesCancel(cfg: Config, failed: seq<nat>, s: State)
    requires Reaches(cfg, failed, Initial(cfg), s) && s.receiver.Receiving? && !Aborted(s) && !GuardHeld(s)
    requires s.replies != [] && s.replies[0].Cancel? && s.replies[0].seeder == 0 && s.slots != []
    requires s.numConnections > 0
    ensures Reaches(cfg, failed, Initial(cfg),
                    s.(replies := s.replies[1..], slots := s.slots[1..], numConnections := s.numConnections - 1,
                       receiver := if s.numConnections == 1 then Failed else Requeueing(s.replies[0])))
  {
    hide Reaches, Initial;
    var m := s.replies[0];
    RemovesSlot(cfg, failed, s);
    var u := s.(replies := s.replies[1..], slots := s.slots[1..], receiver := SlotRemoved(m));
    Then(cfg, failed, Initial(cfg), u, ReceiverQueues);
    Then(cfg, failed, Initial(cfg), u.(receiver := AwaitDecrement(m)), ReceiverWrites);
    var v := u.(numConnections := s.numConnections - 1, receiver := Decremented(m));
    assert Step(cfg, u.(receiver := AwaitDecrement(m)), ReceiverWrites) == v;
    Then(cfg, failed, Initial(cfg), v, ReceiverChecks);
  }

  /** The request in the hand of connection 0 fails; its Cancel is the only reply. */
  lemma FirstFails(cfg: Config, failed: seq<nat>, s: State, r: Message)
    requires Reaches(cfg, failed, Initial(cfg), s) && !Aborted(s) && |s.conns| > 0 && s.replies == []
    requires s.conns[0].phase == Got(r) && r.Request?
    ensures Reaches(cfg, failed + [0], Initial(cfg), SetPhase(s, 0, Waiting).(replies := [CancelOf(r)]))
  {
    hide Reaches, Initial;
    Fails(cfg, failed, Initial(cfg), s, 0);
    assert [] + [CancelOf(r)] == [CancelOf(r)];
  }

  /** With as many pieces as connections or more, a single failed stream can abort the download: over one connection
      none is left, over several the initial loop comes to a slot that is no longer there. */
  lemma OneFailureAborts(cfg: Config) returns (t: State)
    requires Valid(cfg) && cfg.Count() >= cfg.conns
    ensures Reaches(cfg, [0], Initial(cfg), t) && Aborted(t)
    ensures |t.slots| == cfg.conns - 1
  {
    hide Reaches, Initial, Spread, Valid;
    if cfg.conns == 1 {
      var s := Spreads(cfg, 1);
      t := LoneFailure(cfg, s);
    } else {
      ConnsPositive(cfg);
      var s := Spreads(cfg, cfg.conns - 1);
      t := MissesSlot(cfg, s);
    }
  }

  lemma LoneFailure(cfg: Config, s: State) returns (t: State)
    requires Reaches(cfg, [], Initial(cfg), s) && cfg.conns == 1 && Spread(cfg, 1, s)
    ensures Reaches(cfg, [0], Initial(cfg), t) && Aborted(t) && t.slots == []
  {
    hide Reaches, Initial;
    var x := CancelOf(FirstRequest(cfg, 0));
    FirstFails(cfg, [], s, FirstRequest(cfg, 0));
    assert [] + [0] == [0] && [x][1..] == [];
    var u := SetPhase(s, 0, Waiting).(replies := [x]);
    HandlesCancel(cfg, [0], u);
    t := u.(replies := [], slots := u.slots[1..], numConnections := 0, receiver := Failed);
  }

  lemma MissesSlot(cfg: Config, s: State) returns (t: State)
    requires Reaches(cfg, [], Initial(cfg), s) && 2 <= cfg.conns <= cfg.Count() && Spread(cfg, cfg.conns - 1, s)
    ensures Reaches(cfg, [0], Initial(cfg), t) && Aborted(t) && |t.slots| == cfg.conns - 1
  {
    hide Reaches, Initial;
    var x := CancelOf(FirstRequest(cfg, 0));
    FirstFails(cfg, [], s, FirstRequest(cfg, 0));
    assert [] + [0] == [0] && [x][1..] == [];
    var u := SetPhase(s, 0, Waiting).(replies := [x]);
    RemovesSlot(cfg, [0], u);
    var v := u.(replies := [], slots := u.slots[1..], receiver := SlotRemoved(x));
    Then(cfg, [0], Initial(cfg), v, SenderStarts);
    t := v.(sender := Crashed);
  }

  /** No run in which at most so many streams fail aborts. */
  ghost predicate NeverAborted(cfg: Config, failures: nat) {
    forall failed, t :: |failed| <= failures && Reaches(cfg, failed, Initial(cfg), t) ==> !Aborted(t)
  }

  /** How many failed streams a download is sure to survive, over any number of connections: none. */
  lemma SurvivesIff(cfg: Config, failures: nat)
    requires Valid(cfg) && !cfg.targetExists && cfg.Count() >= cfg.conns
    ensures NeverAborted(cfg, failures) <==> failures == 0
  {
    hide Step, Enabled, Aborted;
    if failures == 0 {
      forall failed, t | |failed| <= failures && Reaches(cfg, failed, Initial(cfg), t) ensures !Aborted(t) {
        var evs :| Leads(cfg, failed, Initial(cfg), evs, t);
        assert failed == [];
        NoneFailed(evs);
        NeverAborts(cfg, evs);
      }
    } else {
      var t := OneFailureAborts(cfg);
      assert |[0]| <= failures;
    }
  }

  /** A Cancel names the slot its request was sent with. Two failures of connection 0 remove the slots of connections
      0 and 1, although no stream of connection 1 has failed. */
  lemma WrongSlotRemoved(cfg: Config) returns (t: State)
    requires Valid(cfg) && 2 <= cfg.conns < cfg.Count()
    ensures Reaches(cfg, [0, 0], Initial(cfg), t) && t.slots == seq(cfg.conns - 2, i => i + 2)
    ensures t.receiver.SlotRemoved? && !Aborted(t)
  {
    hide Reaches, Initial;
    var c, r := cfg.conns, FirstRequest(cfg, 0);
    var s := Spreads(cfg, c);
    assert c % c == 0;
    Sends(cfg, [], Initial(cfg), s, c);
    var s1 := SetQueue(s, 0, [FirstRequest(cfg, c)]).(sender := Starting(c + 1));
    FirstFails(cfg, [], s1, r);
    assert [] + [0] == [0] && [CancelOf(r)][1..] == [];
    var s2 := SetPhase(s1, 0, Waiting).(replies := [CancelOf(r)]);
    HandlesCancel(cfg, [0], s2);
    t := SecondCancel(cfg, FirstRequest(cfg, c),
      s2.(replies := [], slots := s2.slots[1..], numConnections := c - 1, receiver := Requeueing(CancelOf(r))));
  }

  lemma SecondCancel(cfg: Config, r: Message, s: State) returns (t: State)
    requires Reaches(cfg, [0], Initial(cfg), s) && !Aborted(s) && !GuardHeld(s) && s.replies == s.resends == []
    requires s.receiver.Requeueing? && |s.conns| > 0 && s.conns[0] == Connection([r], Waiting)
    requires r.Request? && r.seeder == 0 && s.slots != []
    ensures Reaches(cfg, [0, 0], Initial(cfg), t) && t.slots == s.slots[1..]
    ensures t.receiver.SlotRemoved? && !Aborted(t)
  {
    hide Reaches, Initial;
    Then(cfg, [0], Initial(cfg), s, ReceiverResends);
    var u := s.(resends := [s.receiver.msg], receiver := Receiving);
    assert Step(cfg, s, ReceiverResends) == u;
    Takes(cfg, [0], Initial(cfg), u, 0);
    var v := SetConn(u, 0, Connection([], Got(r)));
    assert [r][1..] == [];
    FirstFails(cfg, [0], v, r);
    assert [0] + [0] == [0, 0];
    var w := SetPhase(v, 0, Waiting).(replies := [CancelOf(r)]);
    RemovesSlot(cfg, [0, 0], w);
    t := w.(replies := [], slots := w.slots[1..], receiver := SlotRemoved(CancelOf(r)));
    assert [CancelOf(r)][1..] == [];
  }
}
