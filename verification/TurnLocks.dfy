/** The lock around the relay's sessions (server/src/turn.rs, `send` and `register_for_session`): a packet is forwarded
    under the read lock, and the guard is held while the packet waits for room; a registration takes the write lock. */
module TurnLocks {
  import opened Base
  import opened TurnRelay

  /** A packet being forwarded, with the session id of its stream; its task holds a read guard. */
  datatype Guarded = Guarded(header: string, packet: Packet)

  /** A registration queued for the write lock. */
  datatype Waiting = Waiting(sessionId: string, role: Role)

  datatype LockState = LockState(relay: State, forwarding: seq<Guarded>, waiting: seq<Waiting>)

  datatype LockEvent =
    | Begin(header: string, packet: Packet)
    | Finish(k: nat)
    | Queue(sessionId: string, role: Role)
    | Enter
    | Unlocked(ev: Event)

  /** The lock is fair: nobody starts to read while a writer waits. */
  predicate CanHappen(s: LockState, ev: LockEvent) {
    match ev
    case Begin(_, _) => s.waiting == []
    case Finish(k) => k < |s.forwarding| && Enabled(s.relay, Forward(s.forwarding[k].header, s.forwarding[k].packet))
    case Queue(_, _) => true
    case Enter => s.waiting != [] && s.forwarding == []
    case Unlocked(e) => (e.Arrive? || e.Receive? || e.HangUp?) && Enabled(s.relay, e)
  }

  /** What happens to the relay, if anything. */
  function Relayed(s: LockState, ev: LockEvent): seq<Event>
    requires CanHappen(s, ev)
  {
    match ev
    case Begin(_, _) => []
    case Finish(k) => [Forward(s.forwarding[k].header, s.forwarding[k].packet)]
    case Queue(_, _) => []
    case Enter => [Register(s.waiting[0].sessionId, s.waiting[0].role)]
    case Unlocked(e) => [e]
  }

  function Happens(s: LockState, ev: LockEvent): LockState
    requires CanHappen(s, ev)
  {
    match ev
    case Begin(header, packet) => s.(forwarding := s.forwarding + [Guarded(header, packet)])
    case Finish(k) =>
      LockState(Step(s.relay, Relayed(s, ev)[0]), s.forwarding[..k] + s.forwarding[k + 1..], s.waiting)
    case Queue(id, role) => s.(waiting := s.waiting + [Waiting(id, role)])
    case Enter => LockState(Step(s.relay, Relayed(s, ev)[0]), s.forwarding, s.waiting[1..])
    case Unlocked(_) => s.(relay := Step(s.relay, Relayed(s, ev)[0]))
  }

  /** Runs grow at the end. */
  predicate IsLockRun(evs: seq<LockEvent>)
    decreases |evs|, 0
  {
    evs == [] || (IsLockRun(evs[..|evs| - 1]) && CanHappen(LockedAfter(evs[..|evs| - 1]), evs[|evs| - 1]))
  }

  function LockedAfter(evs: seq<LockEvent>): LockState
    requires IsLockRun(evs)
    decreases |evs|, 1
  {
    if evs == [] then LockState(After([]), [], [])
    else Happens(LockedAfter(evs[..|evs| - 1]), evs[|evs| - 1])
  }

  function RelayRun(evs: seq<LockEvent>): seq<Event>
    requires IsLockRun(evs)
  {
    if evs == [] then []
    else RelayRun(evs[..|evs| - 1]) + Relayed(LockedAfter(evs[..|evs| - 1]), evs[|evs| - 1])
  }

  lemma RelayedSteps(s: LockState, ev: LockEvent)
    requires CanHappen(s, ev)
    ensures
      var more := Relayed(s, ev);
      if more == [] then Happens(s, ev).relay == s.relay
      else |more| == 1 && Enabled(s.relay, more[0]) && Happens(s, ev).relay == Step(s.relay, more[0])
  {
  }

  /** Every run with the lock is a run of the relay, so what holds of those holds of it. */
  lemma {:induction false} LocksRefine(evs: seq<LockEvent>)
    requires IsLockRun(evs)
    ensures IsRun(RelayRun(evs)) && After(RelayRun(evs)) == LockedAfter(evs).relay
  {
    hide Step, Enabled, Happens, CanHappen, Relayed;
    if evs != [] {
      var front, ev := evs[..|evs| - 1], evs[|evs| - 1];
      LocksRefine(front);
      var before, more := RelayRun(front), Relayed(LockedAfter(front), ev);
      RelayedSteps(LockedAfter(front), ev);
      if more == [] {
        assert before + more == before;
      } else {
        assert (before + more)[..|before + more| - 1] == before;
      }
    }
  }

  function QueuedBy(ev: LockEvent): seq<Waiting> {
    match ev case Queue(id, role) => [Waiting(id, role)] case _ => []
  }

  function EnteredBy(ev: Event): seq<Waiting> {
    match ev case Register(id, role) => [Waiting(id, role)] case _ => []
  }

  /** The registrations queued for the lock along a run, in order, and those that have entered. */
  function Queued(evs: seq<LockEvent>): seq<Waiting> {
    if evs == [] then [] else Queued(evs[..|evs| - 1]) + QueuedBy(evs[|evs| - 1])
  }

  function Entered(evs: seq<Event>): seq<Waiting> {
    if evs == [] then [] else Entered(evs[..|evs| - 1]) + EnteredBy(evs[|evs| - 1])
  }

  lemma EntersStep(s: LockState, ev: LockEvent)
    requires CanHappen(s, ev)
    ensures
      var more := Relayed(s, ev);
      && |more| <= 1
      && (if more == [] then [] else EnteredBy(more[0])) + Happens(s, ev).waiting == s.waiting + QueuedBy(ev)
  {
  }

  /** Registrations enter in the order in which they queued, and none is lost. */
  lemma {:induction false} EntersInOrder(evs: seq<LockEvent>)
    requires IsLockRun(evs)
    ensures Entered(RelayRun(evs)) + LockedAfter(evs).waiting == Queued(evs)
  {
    hide Happens, CanHappen, Relayed, QueuedBy, EnteredBy;
    if evs != [] {
      var front, ev := evs[..|evs| - 1], evs[|evs| - 1];
      var s := LockedAfter(front);
      EntersInOrder(front);
      EntersStep(s, ev);
      EnteredNext(RelayRun(front), Relayed(s, ev));
      Regroup(Entered(RelayRun(front)), if Relayed(s, ev) == [] then [] else EnteredBy(Relayed(s, ev)[0]),
              LockedAfter(evs).waiting, s.waiting, QueuedBy(ev));
    }
  }

  lemma Regroup(a: seq<Waiting>, b: seq<Waiting>, c: seq<Waiting>, d: seq<Waiting>, e: seq<Waiting>)
    requires b + c == d + e
    ensures (a + b) + c == (a + d) + e
  {
    assert (a + b) + c == a + (b + c);
    assert (a + d) + e == a + (d + e);
  }

  lemma EnteredNext(before: seq<Event>, more: seq<Event>)
    requires |more| <= 1
    ensures Entered(before + more) == Entered(before) + if more == [] then [] else EnteredBy(more[0])
  {
    if more == [] {
      assert before + more == before;
    } else {
      assert (before + more)[..|before + more| - 1] == before;
    }
  }

  function BegunBy(ev: LockEvent): multiset<Guarded> {
    match ev case Begin(header, packet) => multiset{Guarded(header, packet)} case _ => multiset{}
  }

  function ForwardedBy(ev: Event): multiset<Guarded> {
    match ev case Forward(header, packet) => multiset{Guarded(header, packet)} case _ => multiset{}
  }

  /** What a run has begun to forward, and what it has forwarded. */
  function Begun(evs: seq<LockEvent>): multiset<Guarded> {
    if evs == [] then multiset{} else Begun(evs[..|evs| - 1]) + BegunBy(evs[|evs| - 1])
  }

  function Forwarded(evs: seq<Event>): multiset<Guarded> {
    if evs == [] then multiset{} else Forwarded(evs[..|evs| - 1]) + ForwardedBy(evs[|evs| - 1])
  }

  lemma ForwardsStep(s: LockState, ev: LockEvent)
    requires CanHappen(s, ev)
    ensures
      var more := Relayed(s, ev);
      && |more| <= 1
      && (if more == [] then multiset{} else ForwardedBy(more[0])) + multiset(Happens(s, ev).forwarding)
         == multiset(s.forwarding) + BegunBy(ev)
  {
    hide Step;
    if ev.Finish? {
      WithoutOne(s.forwarding, ev.k);
    } else if ev.Begin? {
      assert multiset(s.forwarding + [Guarded(ev.header, ev.packet)])
             == multiset(s.forwarding) + multiset{Guarded(ev.header, ev.packet)};
    } else {
      assert Happens(s, ev).forwarding == s.forwarding && BegunBy(ev) == multiset{};
    }
  }

  lemma WithoutOne(q: seq<Guarded>, k: nat)
    requires k < |q|
    ensures multiset(q[..k] + q[k + 1..]) + multiset{q[k]} == multiset(q)
  {
    assert q == q[..k] + [q[k]] + q[k + 1..];
  }

  /** Every packet begun is forwarded once or still under way. */
  lemma {:induction false} PacketsKept(evs: seq<LockEvent>)
    requires IsLockRun(evs)
    ensures Forwarded(RelayRun(evs)) + multiset(LockedAfter(evs).forwarding) == Begun(evs)
  {
    hide Happens, CanHappen, Relayed, BegunBy, ForwardedBy;
    if evs != [] {
      var front, ev := evs[..|evs| - 1], evs[|evs| - 1];
      var s := LockedAfter(front);
      PacketsKept(front);
      ForwardsStep(s, ev);
      ForwardedNext(RelayRun(front), Relayed(s, ev));
      RegroupBags(Forwarded(RelayRun(front)),
                  if Relayed(s, ev) == [] then multiset{} else ForwardedBy(Relayed(s, ev)[0]),
                  multiset(LockedAfter(evs).forwarding), multiset(s.forwarding), BegunBy(ev));
    }
  }

  lemma RegroupBags(
    a: multiset<Guarded>, b: multiset<Guarded>, c: multiset<Guarded>, d: multiset<Guarded>, e: multiset<Guarded>)
    requires b + c == d + e
    ensures (a + b) + c == (a + d) + e
  {
    assert (a + b) + c == a + (b + c);
    assert (a + d) + e == a + (d + e);
  }

  lemma ForwardedNext(before: seq<Event>, more: seq<Event>)
    requires |more| <= 1
    ensures Forwarded(before + more) == Forwarded(before) + if more == [] then multiset{} else ForwardedBy(more[0])
  {
    if more == [] {
      assert before + more == before;
    } else {
      assert (before + more)[..|before + more| - 1] == before;
    }
  }

  /** How many of the packets under way are meant for registration `i`. */
  function Under(relay: State, forwarding: seq<Guarded>, i: nat): nat {
    if forwarding == [] then 0
    else (if MeantFor(relay, forwarding[0], i) then 1 else 0) + Under(relay, forwarding[1..], i)
  }

  predicate MeantFor(relay: State, g: Guarded, i: nat) {
    Target(relay, g.header, g.packet) == Some(i)
  }

  lemma {:induction false} UnderWithout(relay: State, forwarding: seq<Guarded>, k: nat, i: nat)
    requires k < |forwarding|
    ensures Under(relay, forwarding[..k] + forwarding[k + 1..], i)
            + (if MeantFor(relay, forwarding[k], i) then 1 else 0) == Under(relay, forwarding, i)
  {
    hide MeantFor;
    if k == 0 {
      assert forwarding[..0] + forwarding[1..] == forwarding[1..];
    } else {
      UnderWithout(relay, forwarding[1..], k - 1, i);
      var rest := forwarding[..k] + forwarding[k + 1..];
      assert rest[0] == forwarding[0] && rest[1..] == forwarding[1..][..k - 1] + forwarding[1..][k..];
    }
  }

  lemma {:induction false} UnderAlike(s: State, t: State, forwarding: seq<Guarded>, i: nat)
    requires s.sessions == t.sessions
    ensures Under(s, forwarding, i) == Under(t, forwarding, i)
  {
    if forwarding != [] {
      UnderAlike(s, t, forwarding[1..], i);
    }
  }

  /** The packets under way for an open channel do not all fit into it. */
  predicate Overfull(s: LockState, i: nat) {
    i < |s.relay.registrations| && s.relay.registrations[i].open &&
    |s.relay.registrations[i].queued| + Under(s.relay, s.forwarding, i) > PACKET_CAP
  }

  /** And a registration waits for the lock. */
  predicate Stalled(s: LockState, i: nat) {
    s.waiting != [] && Overfull(s, i)
  }

  predicate QueuesFit(s: State) {
    forall i :: 0 <= i < |s.registrations| ==> |s.registrations[i].queued| <= PACKET_CAP
  }

  lemma StepQueues(s: State, ev: Event)
    requires QueuesFit(s) && Enabled(s, ev)
    ensures QueuesFit(Step(s, ev))
  {
  }

  lemma {:induction false} RunQueues(evs: seq<Event>)
    requires IsRun(evs)
    ensures QueuesFit(After(evs))
  {
    hide Step, Enabled, QueuesFit;
    if evs == [] {
      NoQueues();
    } else {
      RunQueues(evs[..|evs| - 1]);
      StepQueues(After(evs[..|evs| - 1]), evs[|evs| - 1]);
    }
  }

  lemma NoQueues()
    ensures QueuesFit(State(map[], []))
  {
  }

  /** What reading and dropping a stream, besides the lock, can change about a stall. */
  predicate Relieves(ev: LockEvent, i: nat) {
    ev == Unlocked(Receive(i)) || ev == Unlocked(HangUp(i))
  }

  lemma StallStays(s: LockState, i: nat, ev: LockEvent)
    requires Stalled(s, i) && QueuesFit(s.relay) && CanHappen(s, ev) && !Relieves(ev, i)
    ensures !ev.Begin? && !ev.Enter?
    ensures Stalled(Happens(s, ev), i) && Happens(s, ev).relay.sessions == s.relay.sessions
    ensures Happens(s, ev).relay.registrations[i].sessionId == s.relay.registrations[i].sessionId
    ensures Happens(s, ev).relay.registrations[i].role == s.relay.registrations[i].role
  {
    hide Under;
    assert ev.Enter? ==> Under(s.relay, s.forwarding, i) == 0 by { NoneUnder(s.relay, i); }
    ChannelStays(s, i, ev);
    if ev.Finish? {
      UnderWithout(s.relay, s.forwarding, ev.k, i);
    }
    UnderAlike(s.relay, Happens(s, ev).relay, Happens(s, ev).forwarding, i);
  }

  lemma NoneUnder(relay: State, i: nat)
    ensures Under(relay, [], i) == 0
  {
  }

  /** Between registrations, a channel that nobody reads from or closes only gets what is meant for it. */
  lemma ChannelStays(s: LockState, i: nat, ev: LockEvent)
    requires i < |s.relay.registrations| && s.relay.registrations[i].open
    requires CanHappen(s, ev) && !Relieves(ev, i) && !ev.Enter?
    ensures
      var t := Happens(s, ev);
      && t.relay.sessions == s.relay.sessions && |t.relay.registrations| == |s.relay.registrations|
      && var r, r' := s.relay.registrations[i], t.relay.registrations[i];
         && r'.open && r'.sessionId == r.sessionId && r'.role == r.role
         && |r'.queued| == |r.queued| + if ev.Finish? && MeantFor(s.relay, s.forwarding[ev.k], i) then 1 else 0
  {
  }

  lemma LockQueues(evs: seq<LockEvent>)
    requires IsLockRun(evs)
    ensures QueuesFit(LockedAfter(evs).relay)
  {
    hide IsLockRun, LockedAfter, QueuesFit, IsRun, After;
    LocksRefine(evs);
    RunQueues(RelayRun(evs));
  }

  /** One client that does not read stops the whole relay: until it takes a packet off its stream or drops it, no
      registration of any session comes through, and no packet of any session that is not under way already. */
  lemma {:induction false} StallsEverybody(evs: seq<LockEvent>, more: seq<LockEvent>, i: nat)
    requires IsLockRun(evs) && Stalled(LockedAfter(evs), i)
    requires IsLockRun(evs + more) && forall ev :: ev in more ==> !Relieves(ev, i)
    ensures Stalled(LockedAfter(evs + more), i)
    ensures LockedAfter(evs + more).relay.sessions == LockedAfter(evs).relay.sessions
    ensures forall ev :: ev in more ==> !ev.Begin? && !ev.Enter?
  {
    hide Happens, CanHappen, Stalled, QueuesFit;
    if more == [] {
      assert evs + more == evs;
    } else {
      var front, ev := more[..|more| - 1], more[|more| - 1];
      assert (evs + more)[..|evs + more| - 1] == evs + front;
      assert more == front + [ev];
      StallsEverybody(evs, front, i);
      LockQueues(evs + front);
      StallStays(LockedAfter(evs + front), i, ev);
    }
  }

  /** Nobody has come, or ever will while the lock is waited for, to admit this client, so it cannot read. */
  predicate Alone(s: LockState, i: nat) {
    i < |s.relay.registrations| && Partner(s.relay, i).None?
  }

  lemma AloneCannotRelieve(evs: seq<LockEvent>, i: nat, ev: LockEvent)
    requires IsLockRun(evs) && Alone(LockedAfter(evs), i) && CanHappen(LockedAfter(evs), ev)
    ensures !Relieves(ev, i)
  {
    hide IsLockRun, LockedAfter, IsRun, After;
    LocksRefine(evs);
    if LockedAfter(evs).relay.registrations[i].progress.Admitted? {
      BothRolesArrived(RelayRun(evs), i);
    }
  }

  /** If the client has no partner, the stall is for ever. */
  lemma {:induction false} StallsForEver(evs: seq<LockEvent>, more: seq<LockEvent>, i: nat)
    requires IsLockRun(evs) && Stalled(LockedAfter(evs), i) && Alone(LockedAfter(evs), i) && IsLockRun(evs + more)
    ensures Stalled(LockedAfter(evs + more), i) && Alone(LockedAfter(evs + more), i)
    ensures forall ev :: ev in more ==> !ev.Begin? && !ev.Enter?
  {
    hide Happens, CanHappen, Stalled, Relieves, QueuesFit;
    if more == [] {
      assert evs + more == evs;
    } else {
      var front, ev := more[..|more| - 1], more[|more| - 1];
      assert (evs + more)[..|evs + more| - 1] == evs + front;
      assert more == front + [ev];
      StallsForEver(evs, front, i);
      AloneCannotRelieve(evs + front, i, ev);
      LockQueues(evs + front);
      StallStays(LockedAfter(evs + front), i, ev);
      StillThere(LockedAfter(evs + more), i);
    }
  }

  lemma StillThere(s: LockState, i: nat)
    requires Stalled(s, i)
    ensures i < |s.relay.registrations|
  {
  }

  lemma Nothing()
    ensures IsLockRun([]) && LockedAfter([]) == LockState(State(map[], []), [], [])
  {
  }

  /** A session with a seeder who has not taken `n` packets off its stream. */
  ghost predicate Unread(s: LockState, id: string, n: nat) {
    && s.forwarding == [] && s.waiting == [] && |s.relay.registrations| == 1
    && Slot(s.relay, id, Seeder) == Some(0) && Slot(s.relay, id, Leecher) == None
    && s.relay.registrations[0].sessionId == id && s.relay.registrations[0].role == Seeder
    && s.relay.registrations[0].open && |s.relay.registrations[0].queued| == n
  }

  lemma {:induction false} PilesUp(id: string, packet: Packet, n: nat) returns (evs: seq<LockEvent>)
    requires n <= PACKET_CAP && Recipient(packet) == Some(Seeder)
    ensures IsLockRun(evs) && Unread(LockedAfter(evs), id, n)
  {
    hide IsLockRun, LockedAfter;
    if n == 0 {
      Nothing();
      Extend([], Queue(id, Seeder));
      evs := [] + [Queue(id, Seeder)];
      Extend(evs, Enter);
      evs := evs + [Enter];
    } else {
      evs := PilesUp(id, packet, n - 1);
      Extend(evs, Begin(id, packet));
      evs := evs + [Begin(id, packet)];
      Extend(evs, Finish(0));
      evs := evs + [Finish(0)];
    }
  }

  /** A stall for ever can be reached in any session, with any registration waiting. */
  lemma StallReached(id: string, packet: Packet, other: string, role: Role) returns (evs: seq<LockEvent>)
    requires Recipient(packet) == Some(Seeder)
    ensures IsLockRun(evs) && Stalled(LockedAfter(evs), 0) && Alone(LockedAfter(evs), 0)
    ensures LockedAfter(evs).waiting == [Waiting(other, role)]
  {
    hide IsLockRun, LockedAfter;
    evs := PilesUp(id, packet, PACKET_CAP);
    Extend(evs, Begin(id, packet));
    evs := evs + [Begin(id, packet)];
    Extend(evs, Queue(other, role));
    evs := evs + [Queue(other, role)];
    var s := LockedAfter(evs);
    assert s.forwarding == [Guarded(id, packet)] && s.forwarding[1..] == [];
    assert MeantFor(s.relay, s.forwarding[0], 0);
  }
  lemma Extend(evs: seq<LockEvent>, ev: LockEvent)
    requires IsLockRun(evs) && CanHappen(LockedAfter(evs), ev)
    ensures IsLockRun(evs + [ev]) && LockedAfter(evs + [ev]) == Happens(LockedAfter(evs), ev)
  {
    assert (evs + [ev])[..|evs + [ev]| - 1] == evs;
  }

  /** This continuation brings a waiting registration through. */
  predicate Enters(evs: seq<LockEvent>, more: seq<LockEvent>) {
    IsLockRun(evs + more) && Enter in more
  }

  /** A forwarded packet, an arrival, a packet read or a stream dropped overfills no channel. */
  lemma Eases(s: LockState, ev: LockEvent, i: nat)
    requires CanHappen(s, ev) && !ev.Begin? && !ev.Queue? && !ev.Enter? && Overfull(Happens(s, ev), i)
    ensures Overfull(s, i) && (Alone(s, i) <==> Alone(Happens(s, ev), i))
  {
    hide Under;
    var t := Happens(s, ev);
    SameChannel(s, i, ev);
    if ev.Finish? {
      UnderWithout(s.relay, s.forwarding, ev.k, i);
    }
    UnderAlike(s.relay, t.relay, t.forwarding, i);
    if !Relieves(ev, i) {
      ChannelStays(s, i, ev);
    }
  }

  lemma SameChannel(s: LockState, i: nat, ev: LockEvent)
    requires CanHappen(s, ev) && !ev.Begin? && !ev.Queue? && !ev.Enter?
    ensures
      var t := Happens(s, ev);
      && t.waiting == s.waiting && t.relay.sessions == s.relay.sessions
      && (if ev.Finish? then t.forwarding == s.forwarding[..ev.k] + s.forwarding[ev.k + 1..]
          else t.forwarding == s.forwarding)
      && |t.relay.registrations| == |s.relay.registrations|
      && (i < |s.relay.registrations| ==>
            var r, r' := s.relay.registrations[i], t.relay.registrations[i];
            && r'.sessionId == r.sessionId && r'.role == r.role && (r'.open ==> r.open)
            && (Relieves(ev, i) ==> |r'.queued| <= |r.queued|))
  {
  }

  /** The task whose turn it is can finish, unless its packet is for a full channel. */
  lemma HeadFinishes(evs: seq<LockEvent>)
    requires IsLockRun(evs) && LockedAfter(evs).forwarding != []
    ensures
      var s := LockedAfter(evs);
      CanHappen(s, Finish(0)) || exists i: nat :: Overfull(s, i) && Blocks(s, i)
  {
    hide IsLockRun, LockedAfter, Under, IsRun, After;
    var s := LockedAfter(evs);
    var g := s.forwarding[0];
    LocksRefine(evs);
    RunExact(RelayRun(evs));
    LockQueues(evs);
    if Target(s.relay, g.header, g.packet).Some? {
      var i := Target(s.relay, g.header, g.packet).value;
      assert SlotExact(RelayRun(evs), s.relay, g.header, Recipient(g.packet).value);
      if !CanHappen(s, Finish(0)) {
        HeadUnder(s, i);
        assert Overfull(s, i) && Blocks(s, i);
      }
    }
  }

  /** The packet at the head is for registration `i`, whose open channel is full. */
  predicate Blocks(s: LockState, i: nat) {
    && s.forwarding != [] && MeantFor(s.relay, s.forwarding[0], i) && i < |s.relay.registrations|
    && s.relay.registrations[i].open && |s.relay.registrations[i].queued| == PACKET_CAP
    && !s.relay.registrations[i].progress.Refused?
  }

  lemma HeadUnder(s: LockState, i: nat)
    requires s.forwarding != [] && MeantFor(s.relay, s.forwarding[0], i)
    ensures Under(s.relay, s.forwarding, i) > 0
  {
  }

  /** Everything under way fits: all tasks finish, and the first registration enters. */
  lemma {:induction false} Drains(evs: seq<LockEvent>) returns (more: seq<LockEvent>)
    requires IsLockRun(evs) && LockedAfter(evs).waiting != [] && forall i: nat :: !Overfull(LockedAfter(evs), i)
    ensures Enters(evs, more) && forall ev :: ev in more ==> ev.Finish? || ev.Enter?
    decreases |LockedAfter(evs).forwarding|
  {
    hide IsLockRun, LockedAfter, Overfull;
    var s := LockedAfter(evs);
    if s.forwarding == [] {
      Extend(evs, Enter);
      more := [Enter];
    } else {
      HeadFinishes(evs);
      forall i: nat ensures !Overfull(Happens(s, Finish(0)), i) {
        if Overfull(Happens(s, Finish(0)), i) {
          Eases(s, Finish(0), i);
        }
      }
      Extend(evs, Finish(0));
      var rest := Drains(evs + [Finish(0)]);
      more := [Finish(0)] + rest;
      assert evs + [Finish(0)] + rest == evs + more;
    }
  }

  /** When a waiting registration can come through without anybody reading or hanging up: exactly if all packets under
      way fit into their channels. */
  lemma EntersUnrelievedIff(evs: seq<LockEvent>)
    requires IsLockRun(evs) && LockedAfter(evs).waiting != []
    ensures (exists more :: Enters(evs, more) && forall ev, i: nat :: ev in more ==> !Relieves(ev, i))
            <==> forall i: nat :: !Overfull(LockedAfter(evs), i)
  {
    hide IsLockRun, LockedAfter, Overfull;
    if forall i: nat :: !Overfull(LockedAfter(evs), i) {
      var more := Drains(evs);
      assert Enters(evs, more);
    } else {
      var i: nat :| Overfull(LockedAfter(evs), i);
      forall more | Enters(evs, more) && forall ev, j: nat :: ev in more ==> !Relieves(ev, j) ensures false {
        StallsEverybody(evs, more, i);
      }
    }
  }

  /** What happens outside the lock leaves the tasks, the queue for the lock and the partners as they are. */
  ghost predicate Softer(s: LockState, t: LockState) {
    && t.forwarding == s.forwarding && t.waiting == s.waiting && t.relay.sessions == s.relay.sessions
    && forall i: nat :: Overfull(t, i) ==> Overfull(s, i) && (Alone(s, i) <==> Alone(t, i))
  }

  lemma Unlock(evs: seq<LockEvent>, e: Event)
    requires IsLockRun(evs) && CanHappen(LockedAfter(evs), Unlocked(e))
    ensures IsLockRun(evs + [Unlocked(e)])
    ensures LockedAfter(evs + [Unlocked(e)]) == Happens(LockedAfter(evs), Unlocked(e))
    ensures Softer(LockedAfter(evs), LockedAfter(evs + [Unlocked(e)]))
  {
    hide IsLockRun, LockedAfter, Overfull, Alone;
    Extend(evs, Unlocked(e));
    var s := LockedAfter(evs);
    SameChannel(s, 0, Unlocked(e));
    forall i: nat | Overfull(Happens(s, Unlocked(e)), i)
      ensures Overfull(s, i) && (Alone(s, i) <==> Alone(Happens(s, Unlocked(e)), i))
    {
      Eases(s, Unlocked(e), i);
    }
  }

  lemma SofterTrans(s: LockState, t: LockState, u: LockState)
    requires Softer(s, t) && Softer(t, u)
    ensures Softer(s, u)
  {
    hide Overfull, Alone;
  }

  /** A client whose partner has a slot can be admitted: one of the two, or both one after the other, arrive. */
  lemma Admits(evs: seq<LockEvent>, i: nat) returns (more: seq<LockEvent>)
    requires IsLockRun(evs) && Blocks(LockedAfter(evs), i) && !Alone(LockedAfter(evs), i)
    ensures IsLockRun(evs + more) && Softer(LockedAfter(evs), LockedAfter(evs + more))
    ensures Blocks(LockedAfter(evs + more), i) && LockedAfter(evs + more).relay.registrations[i].progress.Admitted?
  {
    hide IsLockRun, LockedAfter, Overfull, IsRun, After;
    var s := LockedAfter(evs);
    match s.relay.registrations[i].progress
    case Admitted =>
      more := [];
      assert evs + [] == evs;
    case AtBarrier =>
      more := PartnerArrives(evs, i);
    case Placed =>
      Unlock(evs, Arrive(i));
      var first := [Unlocked(Arrive(i))];
      ArrivesOrWaits(s, i);
      if LockedAfter(evs + first).relay.registrations[i].progress.Admitted? {
        more := first;
      } else {
        var rest := PartnerArrives(evs + first, i);
        more := first + rest;
        assert evs + first + rest == evs + more;
        SofterTrans(s, LockedAfter(evs + first), LockedAfter(evs + more));
      }
  }

  lemma ArrivesOrWaits(s: LockState, i: nat)
    requires Blocks(s, i) && s.relay.registrations[i].progress.Placed?
    ensures CanHappen(s, Unlocked(Arrive(i)))
    ensures
      var t := Happens(s, Unlocked(Arrive(i)));
      && Blocks(t, i) && (t.relay.registrations[i].progress.Admitted? || t.relay.registrations[i].progress.AtBarrier?)
      && (Alone(t, i) <==> Alone(s, i))
  {
  }

  /** The client already waits; its partner arrives, and both are admitted. */
  lemma PartnerArrives(evs: seq<LockEvent>, i: nat) returns (more: seq<LockEvent>)
    requires IsLockRun(evs) && Blocks(LockedAfter(evs), i) && !Alone(LockedAfter(evs), i)
    requires LockedAfter(evs).relay.registrations[i].progress.AtBarrier?
    ensures IsLockRun(evs + more) && Softer(LockedAfter(evs), LockedAfter(evs + more))
    ensures Blocks(LockedAfter(evs + more), i) && LockedAfter(evs + more).relay.registrations[i].progress.Admitted?
  {
    hide IsLockRun, LockedAfter, Overfull, IsRun, After, Softer, Blocks;
    var s := LockedAfter(evs);
    BlockerThere(s, i);
    LocksRefine(evs);
    RunExact(RelayRun(evs));
    RunBarriers(RelayRun(evs));
    ExactIsProper(RelayRun(evs), s.relay);
    var p := Partner(s.relay, i).value;
    PartnerOf(s.relay, i);
    assert BarrierHolds(s.relay, i);
    PartnerReleases(s, i, p);
    Unlock(evs, Arrive(p));
    more := [Unlocked(Arrive(p))];
  }

  lemma BlockerThere(s: LockState, i: nat)
    requires Blocks(s, i)
    ensures i < |s.relay.registrations| && !s.relay.registrations[i].progress.Refused?
  {
  }

  lemma PartnerReleases(s: LockState, i: nat, p: nat)
    requires Blocks(s, i) && s.relay.registrations[i].progress.AtBarrier? && p < |s.relay.registrations|
    requires s.relay.registrations[p].progress.Placed?
    requires s.relay.registrations[p].sessionId == s.relay.registrations[i].sessionId
    ensures CanHappen(s, Unlocked(Arrive(p)))
    ensures
      var t := Happens(s, Unlocked(Arrive(p)));
      Blocks(t, i) && t.relay.registrations[i].progress.Admitted?
  {
    assert WaitsIn(s.relay.registrations[i], s.relay.registrations[p].sessionId);
  }

  lemma ReadingMakesRoom(s: LockState, i: nat)
    requires Blocks(s, i) && s.relay.registrations[i].progress.Admitted?
    ensures CanHappen(s, Unlocked(Receive(i))) && CanHappen(Happens(s, Unlocked(Receive(i))), Finish(0))
  {
  }

  /** If every overfull channel belongs to a client with a partner, the task at the head can be brought to finish. */
  lemma MakesRoom(evs: seq<LockEvent>) returns (more: seq<LockEvent>)
    requires IsLockRun(evs) && LockedAfter(evs).forwarding != []
    requires forall i: nat :: Overfull(LockedAfter(evs), i) ==> !Alone(LockedAfter(evs), i)
    ensures IsLockRun(evs + more) && Softer(LockedAfter(evs), LockedAfter(evs + more))
    ensures CanHappen(LockedAfter(evs + more), Finish(0))
  {
    hide IsLockRun, LockedAfter, Overfull, Alone, Blocks, CanHappen, Happens;
    var s := LockedAfter(evs);
    HeadFinishes(evs);
    if CanHappen(s, Finish(0)) {
      more := [];
      assert evs + [] == evs;
    } else {
      var i: nat :| Overfull(s, i) && Blocks(s, i);
      var first := Admits(evs, i);
      ReadingMakesRoom(LockedAfter(evs + first), i);
      Unlock(evs + first, Receive(i));
      more := first + [Unlocked(Receive(i))];
      assert evs + first + [Unlocked(Receive(i))] == evs + more;
      SofterTrans(s, LockedAfter(evs + first), LockedAfter(evs + more));
    }
  }

  lemma {:induction false} Relieved(evs: seq<LockEvent>) returns (more: seq<LockEvent>)
    requires IsLockRun(evs) && LockedAfter(evs).waiting != []
    requires forall i: nat :: Overfull(LockedAfter(evs), i) ==> !Alone(LockedAfter(evs), i)
    ensures Enters(evs, more)
    decreases |LockedAfter(evs).forwarding|
  {
    hide IsLockRun, LockedAfter, Overfull, Alone;
    var s := LockedAfter(evs);
    if s.forwarding == [] {
      Extend(evs, Enter);
      more := [Enter];
    } else {
      var room := MakesRoom(evs);
      var t := LockedAfter(evs + room);
      forall i: nat | Overfull(Happens(t, Finish(0)), i) ensures !Alone(Happens(t, Finish(0)), i) {
        Eases(t, Finish(0), i);
      }
      Extend(evs + room, Finish(0));
      var rest := Relieved(evs + room + [Finish(0)]);
      more := room + [Finish(0)] + rest;
      assert evs + room + [Finish(0)] + rest == evs + more;
    }
  }

  /** When a waiting registration can come through at all: exactly if every channel for which too many packets are under
      way belongs to a client whose partner has come. */
  lemma EntersIff(evs: seq<LockEvent>)
    requires IsLockRun(evs) && LockedAfter(evs).waiting != []
    ensures (exists more :: Enters(evs, more))
            <==> forall i: nat :: Overfull(LockedAfter(evs), i) ==> !Alone(LockedAfter(evs), i)
  {
    hide IsLockRun, LockedAfter, Overfull, Alone;
    if forall i: nat :: Overfull(LockedAfter(evs), i) ==> !Alone(LockedAfter(evs), i) {
      var more := Relieved(evs);
    } else {
      var i: nat :| Overfull(LockedAfter(evs), i) && Alone(LockedAfter(evs), i);
      forall more | Enters(evs, more) ensures false {
        StallsForEver(evs, more, i);
      }
    }
  }
}
