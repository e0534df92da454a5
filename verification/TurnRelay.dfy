/** The relay between a seeder and a leecher (server/src/turn.rs): sessions with one slot per role,
    a two-party barrier, and packets forwarded by the kind of their body. */
module TurnRelay {
  import opened Base

  datatype Role = Seeder | Leecher

  datatype Body = PieceBody(payload: seq<u8>, index: u32) | RequestBody(hash: seq<u8>, index: u32)

  datatype Packet = Packet(sessionId: string, body: Option<Body>)

  const PACKET_CAP: nat := 128

  /** A registration, its number being that of its channel: refused, waiting for the other role, or admitted.
      `received` are the packets the client has taken off its stream, `queued` those still in the channel; a client
      that drops its stream closes the channel. */
  datatype Progress = Refused | Placed | AtBarrier | Admitted

  datatype Registration = Registration(
    sessionId: string, role: Role, progress: Progress, received: seq<Packet>, queued: seq<Packet>, open: bool)

  /** Each role's slot holds the number of the registration whose channel it is. */
  datatype Session = Session(seeder: Option<nat>, leecher: Option<nat>)

  datatype State = State(sessions: map<string, Session>, registrations: seq<Registration>)

  /** `Forward` carries the session id from the stream's header, which decides where the packet goes. */
  datatype Event =
    | Register(sessionId: string, role: Role)
    | Arrive(i: nat)
    | Forward(header: string, packet: Packet)
    | Receive(i: nat)
    | HangUp(i: nat)

  function Slot(s: State, id: string, role: Role): Option<nat> {
    if id !in s.sessions then None else if role.Seeder? then s.sessions[id].seeder else s.sessions[id].leecher
  }

  /** Requests go to the seeder, pieces to the leecher, an empty packet to nobody. */
  function Recipient(p: Packet): Option<Role> {
    match p.body
    case Some(RequestBody(_, _)) => Some(Seeder)
    case Some(PieceBody(_, _)) => Some(Leecher)
    case None => None
  }

  function Target(s: State, header: string, p: Packet): Option<nat> {
    if Recipient(p).None? then None else Slot(s, header, Recipient(p).value)
  }

  predicate Enabled(s: State, ev: Event) {
    match ev
    case Register(_, _) => true
    case Arrive(i) => i < |s.registrations| && s.registrations[i].progress.Placed?
    case Forward(header, p) =>
      Target(s, header, p).Some? ==>
        Target(s, header, p).value < |s.registrations| && HasRoom(s.registrations[Target(s, header, p).value])
    case Receive(i) => i < |s.registrations| && Listens(s.registrations[i]) && s.registrations[i].queued != []
    case HangUp(i) => i < |s.registrations| && Listens(s.registrations[i])
  }

  /** A send returns at once if there is room, or if the channel is closed; then the packet is dropped. */
  predicate HasRoom(r: Registration) {
    r.open ==> |r.queued| < PACKET_CAP
  }

  predicate Listens(r: Registration) {
    r.progress.Admitted? && r.open
  }

  function AddRole(x: Session, role: Role, i: nat): Session {
    if role.Seeder? then x.(seeder := Some(i)) else x.(leecher := Some(i))
  }

  predicate WaitsIn(r: Registration, id: string) {
    r.sessionId == id && r.progress.AtBarrier?
  }

  /** The barrier lets two tasks through as soon as two have arrived. */
  function Release(rs: seq<Registration>, i: nat): seq<Registration>
    requires i < |rs|
  {
    var id := rs[i].sessionId;
    if exists j :: 0 <= j < |rs| && WaitsIn(rs[j], id) then
      seq(|rs|, k requires 0 <= k < |rs| =>
        if k == i || WaitsIn(rs[k], id) then rs[k].(progress := Admitted) else rs[k])
    else rs[i := rs[i].(progress := AtBarrier)]
  }

  function Step(s: State, ev: Event): State
    requires Enabled(s, ev)
  {
    match ev
    case Register(id, role) =>
      if Slot(s, id, role).Some? then
        s.(registrations := s.registrations + [Registration(id, role, Refused, [], [], true)])
      else
        var session := if id in s.sessions then s.sessions[id] else Session(None, None);
        State(s.sessions[id := AddRole(session, role, |s.registrations|)],
              s.registrations + [Registration(id, role, Placed, [], [], true)])
    case Arrive(i) => s.(registrations := Release(s.registrations, i))
    case Forward(header, p) =>
      if Target(s, header, p).None? || !s.registrations[Target(s, header, p).value].open then s
      else
        var i := Target(s, header, p).value;
        s.(registrations := s.registrations[i := s.registrations[i].(queued := s.registrations[i].queued + [p])])
    case Receive(i) =>
      var r := s.registrations[i];
      s.(registrations := s.registrations[i := r.(received := r.received + [r.queued[0]], queued := r.queued[1..])])
    case HangUp(i) => s.(registrations := s.registrations[i := s.registrations[i].(open := false)])
  }

  /** Runs grow at the end. */
  predicate IsRun(evs: seq<Event>)
    decreases |evs|, 0
  {
    evs == [] || (IsRun(evs[..|evs| - 1]) && Enabled(After(evs[..|evs| - 1]), evs[|evs| - 1]))
  }

  function After(evs: seq<Event>): State
    requires IsRun(evs)
    decreases |evs|, 1
  {
    if evs == [] then State(map[], []) else Step(After(evs[..|evs| - 1]), evs[|evs| - 1])
  }

  /** The number of the registration that was first to claim a role, counted over the events alone. */
  function FirstClaim(evs: seq<Event>, id: string, role: Role): Option<nat> {
    if evs == [] then None
    else
      var front, ev := evs[..|evs| - 1], evs[|evs| - 1];
      if FirstClaim(front, id, role).Some? then FirstClaim(front, id, role)
      else if ev == Register(id, role) then Some(Registrations(front))
      else None
  }

  function Registrations(evs: seq<Event>): nat {
    if evs == [] then 0 else Registrations(evs[..|evs| - 1]) + if evs[|evs| - 1].Register? then 1 else 0
  }

  /** This packet goes into the channel of whoever has claimed the role and not hung up. */
  predicate Delivers(front: seq<Event>, ev: Event, id: string, role: Role) {
    && ev.Forward? && ev.header == id && Recipient(ev.packet) == Some(role)
    && FirstClaim(front, id, role).Some? && HangUp(FirstClaim(front, id, role).value) !in front
  }

  /** The packets of a role's kind forwarded under a session's header since the role was claimed and until its client
      hung up, in order. */
  function Addressed(evs: seq<Event>, id: string, role: Role): seq<Packet> {
    if evs == [] then []
    else
      var front, ev := evs[..|evs| - 1], evs[|evs| - 1];
      Addressed(front, id, role) + if Delivers(front, ev, id, role) then [ev.packet] else []
  }

  /** Everything that has gone into a registration's channel. */
  function Stream(r: Registration): seq<Packet> {
    r.received + r.queued
  }

  /** The slots follow the first claims; the claimed channel carries exactly the packets addressed to its role. */
  ghost predicate SlotExact(evs: seq<Event>, s: State, id: string, role: Role) {
    && Slot(s, id, role) == FirstClaim(evs, id, role)
    && (Slot(s, id, role).Some? ==>
          var i := Slot(s, id, role).value;
          && i < |s.registrations| && s.registrations[i].sessionId == id && s.registrations[i].role == role
          && !s.registrations[i].progress.Refused? && (s.registrations[i].open <==> HangUp(i) !in evs)
          && Stream(s.registrations[i]) == Addressed(evs, id, role))
  }

  ghost predicate Exact(evs: seq<Event>, s: State) {
    && |s.registrations| == Registrations(evs)
    && (forall i: nat :: HangUp(i) in evs ==> i < |s.registrations|)
    && (forall id, role :: SlotExact(evs, s, id, role))
    && (forall i :: 0 <= i < |s.registrations| ==> OwnSlot(s, i))
  }

  /** A registration that was not refused owns its slot; a refused one never gets a packet. */
  predicate OwnSlot(s: State, i: nat)
    requires i < |s.registrations|
  {
    var r := s.registrations[i];
    if r.progress.Refused? then Stream(r) == [] else Slot(s, r.sessionId, r.role) == Some(i)
  }

  lemma {:induction false} RunExact(evs: seq<Event>)
    requires IsRun(evs)
    ensures Exact(evs, After(evs))
  {
    if evs != [] {
      var front, ev := evs[..|evs| - 1], evs[|evs| - 1];
      RunExact(front);
      assert front + [ev] == evs;
      StepExact(front, After(front), ev);
    }
  }

  lemma StepExact(front: seq<Event>, s: State, ev: Event)
    requires Exact(front, s) && Enabled(s, ev)
    ensures Exact(front + [ev], Step(s, ev))
  {
    hide Step, Enabled, SlotExact, OwnSlot;
    var t := Step(s, ev);
    forall id, role ensures SlotExact(front + [ev], t, id, role) {
      StepSlotExact(front, s, ev, id, role);
    }
    StepOwnSlots(front, s, ev);
  }

  lemma StepSlotExact(front: seq<Event>, s: State, ev: Event, id: string, role: Role)
    requires Exact(front, s) && Enabled(s, ev)
    ensures SlotExact(front + [ev], Step(s, ev), id, role)
  {
    hide Step, Enabled, SlotExact, OwnSlot;
    assert SlotExact(front, s, id, role);
    match ev
    case Register(_, _) => RegisterExact(front, s, ev, id, role);
    case Arrive(_) => ArriveExact(front, s, ev, id, role);
    case Forward(_, _) => ForwardExact(front, s, ev, id, role);
    case Receive(_) => ReceiveExact(front, s, ev, id, role);
    case HangUp(_) => HangUpExact(front, s, ev, id, role);
  }

  /** How the history functions grow by one event. */
  lemma Grow(front: seq<Event>, ev: Event, id: string, role: Role)
    ensures
      var evs := front + [ev];
      && Registrations(evs) == Registrations(front) + (if ev.Register? then 1 else 0)
      && FirstClaim(evs, id, role) == (if FirstClaim(front, id, role).Some? then FirstClaim(front, id, role)
                                       else if ev == Register(id, role) then Some(Registrations(front)) else None)
      && Addressed(evs, id, role) ==
           Addressed(front, id, role) + (if Delivers(front, ev, id, role) then [ev.packet] else [])
      && (forall i: nat :: HangUp(i) in evs <==> HangUp(i) in front || ev == HangUp(i))
  {
    var evs := front + [ev];
    assert evs[..|evs| - 1] == front && evs[|evs| - 1] == ev;
  }

  lemma {:induction false} UnclaimedUnaddressed(evs: seq<Event>, id: string, role: Role)
    requires FirstClaim(evs, id, role).None?
    ensures Addressed(evs, id, role) == []
  {
    if evs != [] {
      UnclaimedUnaddressed(evs[..|evs| - 1], id, role);
    }
  }

  lemma RegisterExact(front: seq<Event>, s: State, ev: Event, id: string, role: Role)
    requires |s.registrations| == Registrations(front) && SlotExact(front, s, id, role)
    requires forall i: nat :: HangUp(i) in front ==> i < |s.registrations|
    requires Enabled(s, ev) && ev.Register?
    ensures SlotExact(front + [ev], Step(s, ev), id, role)
  {
    hide Registrations, FirstClaim, Addressed;
    Grow(front, ev, id, role);
    if FirstClaim(front, id, role).None? {
      UnclaimedUnaddressed(front, id, role);
    }
  }

  lemma ArriveExact(front: seq<Event>, s: State, ev: Event, id: string, role: Role)
    requires SlotExact(front, s, id, role) && Enabled(s, ev) && ev.Arrive?
    ensures SlotExact(front + [ev], Step(s, ev), id, role)
  {
    hide Registrations, FirstClaim, Addressed;
    Grow(front, ev, id, role);
    ReleaseKeeps(s.registrations, ev.i);
  }

  /** The barrier changes nobody's place and nobody's packets, and refuses nobody. */
  lemma ReleaseKeeps(rs: seq<Registration>, i: nat)
    requires i < |rs| && rs[i].progress.Placed?
    ensures |Release(rs, i)| == |rs|
    ensures forall k :: 0 <= k < |rs| ==>
      && Release(rs, i)[k].sessionId == rs[k].sessionId && Release(rs, i)[k].role == rs[k].role
      && Stream(Release(rs, i)[k]) == Stream(rs[k])
      && (Release(rs, i)[k].progress.Refused? <==> rs[k].progress.Refused?)
      && Release(rs, i)[k].open == rs[k].open
  {
  }

  lemma ForwardExact(front: seq<Event>, s: State, ev: Event, id: string, role: Role)
    requires Exact(front, s) && SlotExact(front, s, id, role) && Enabled(s, ev) && ev.Forward?
    ensures SlotExact(front + [ev], Step(s, ev), id, role)
  {
    hide Registrations, FirstClaim, Addressed;
    Grow(front, ev, id, role);
    if Target(s, ev.header, ev.packet).Some? {
      assert SlotExact(front, s, ev.header, Recipient(ev.packet).value);
      var r := s.registrations[Target(s, ev.header, ev.packet).value];
      assert r.received + (r.queued + [ev.packet]) == Stream(r) + [ev.packet];
    }
  }

  lemma ReceiveExact(front: seq<Event>, s: State, ev: Event, id: string, role: Role)
    requires SlotExact(front, s, id, role) && Enabled(s, ev) && ev.Receive?
    ensures SlotExact(front + [ev], Step(s, ev), id, role)
  {
    hide Registrations, FirstClaim, Addressed;
    Grow(front, ev, id, role);
    var r := s.registrations[ev.i];
    assert r.received + [r.queued[0]] + r.queued[1..] == Stream(r);
  }

  lemma HangUpExact(front: seq<Event>, s: State, ev: Event, id: string, role: Role)
    requires SlotExact(front, s, id, role) && Enabled(s, ev) && ev.HangUp?
    ensures SlotExact(front + [ev], Step(s, ev), id, role)
  {
    hide Registrations, FirstClaim, Addressed;
    Grow(front, ev, id, role);
  }

  lemma StepOwnSlots(front: seq<Event>, s: State, ev: Event)
    requires Exact(front, s) && Enabled(s, ev)
    ensures |Step(s, ev).registrations| == Registrations(front + [ev])
    ensures forall i: nat :: HangUp(i) in front + [ev] ==> i < |Step(s, ev).registrations|
    ensures forall i :: 0 <= i < |Step(s, ev).registrations| ==> OwnSlot(Step(s, ev), i)
  {
    hide SlotExact, Registrations, FirstClaim, Addressed;
    Grow(front, ev, "", Seeder);
    if ev.Arrive? {
      ReleaseKeeps(s.registrations, ev.i);
      hide Release;
      ArriveOwnSlots(s, ev);
    } else if ev.Forward? {
      ForwardOwnSlots(front, s, ev);
    } else if ev.Receive? || ev.HangUp? {
      ReceiveOwnSlots(s, ev);
    } else {
      RegisterOwnSlots(s, ev);
    }
  }

  lemma ArriveOwnSlots(s: State, ev: Event)
    requires Enabled(s, ev) && ev.Arrive? && forall i :: 0 <= i < |s.registrations| ==> OwnSlot(s, i)
    ensures |Step(s, ev).registrations| == |s.registrations|
    ensures forall i :: 0 <= i < |s.registrations| ==> OwnSlot(Step(s, ev), i)
  {
    ReleaseKeeps(s.registrations, ev.i);
    forall i | 0 <= i < |s.registrations| ensures OwnSlot(Step(s, ev), i) {
      assert OwnSlot(s, i);
    }
  }

  lemma ForwardOwnSlots(front: seq<Event>, s: State, ev: Event)
    requires Exact(front, s) && Enabled(s, ev) && ev.Forward?
    ensures |Step(s, ev).registrations| == |s.registrations|
    ensures forall i :: 0 <= i < |s.registrations| ==> OwnSlot(Step(s, ev), i)
  {
    if Target(s, ev.header, ev.packet).Some? {
      assert SlotExact(front, s, ev.header, Recipient(ev.packet).value);
    }
    forall i | 0 <= i < |s.registrations| ensures OwnSlot(Step(s, ev), i) {
      assert OwnSlot(s, i);
    }
  }

  lemma ReceiveOwnSlots(s: State, ev: Event)
    requires Enabled(s, ev) && (ev.Receive? || ev.HangUp?)
    requires forall i :: 0 <= i < |s.registrations| ==> OwnSlot(s, i)
    ensures |Step(s, ev).registrations| == |s.registrations|
    ensures forall i :: 0 <= i < |s.registrations| ==> OwnSlot(Step(s, ev), i)
  {
    var r := s.registrations[ev.i];
    assert ev.Receive? ==> r.received + [r.queued[0]] + r.queued[1..] == Stream(r);
    forall i | 0 <= i < |s.registrations| ensures OwnSlot(Step(s, ev), i) {
      assert OwnSlot(s, i);
    }
  }

  lemma RegisterOwnSlots(s: State, ev: Event)
    requires ev.Register? && forall i :: 0 <= i < |s.registrations| ==> OwnSlot(s, i)
    ensures |Step(s, ev).registrations| == |s.registrations| + 1
    ensures forall i :: 0 <= i < |s.registrations| + 1 ==> OwnSlot(Step(s, ev), i)
  {
    forall i | 0 <= i < |s.registrations| ensures OwnSlot(Step(s, ev), i) {
      assert OwnSlot(s, i);
    }
  }

  function Other(role: Role): Role {
    if role.Seeder? then Leecher else Seeder
  }

  /** The other role's place in the same session. */
  function Partner(s: State, i: nat): Option<nat>
    requires i < |s.registrations|
  {
    Slot(s, s.registrations[i].sessionId, Other(s.registrations[i].role))
  }

  /** An admitted client's partner is admitted too; a client waits at the barrier only while its partner has not
      come. */
  ghost predicate BarrierHolds(s: State, i: nat)
    requires i < |s.registrations|
  {
    var p := Partner(s, i);
    && (s.registrations[i].progress.Admitted? ==>
          p.Some? && p.value < |s.registrations| && s.registrations[p.value].progress.Admitted?)
    && (s.registrations[i].progress.AtBarrier? && p.Some? ==>
          p.value < |s.registrations| && s.registrations[p.value].progress.Placed?)
  }

  ghost predicate AllBarriersHold(s: State) {
    forall i :: 0 <= i < |s.registrations| ==> BarrierHolds(s, i)
  }

  /** The two slots of a session hold different registrations, each of its own role. */
  ghost predicate SlotsProper(s: State) {
    && (forall i :: 0 <= i < |s.registrations| ==> OwnSlot(s, i))
    && (forall id, role :: Slot(s, id, role).Some? ==>
          var i := Slot(s, id, role).value;
          && i < |s.registrations| && s.registrations[i].sessionId == id && s.registrations[i].role == role
          && !s.registrations[i].progress.Refused?)
  }

  lemma ExactIsProper(evs: seq<Event>, s: State)
    requires Exact(evs, s)
    ensures SlotsProper(s)
  {
    hide OwnSlot;
    forall id, role | Slot(s, id, role).Some?
      ensures
        var i := Slot(s, id, role).value;
        && i < |s.registrations| && s.registrations[i].sessionId == id && s.registrations[i].role == role
        && !s.registrations[i].progress.Refused?
    {
      assert SlotExact(evs, s, id, role);
    }
  }

  lemma StepBarriers(s: State, ev: Event)
    requires SlotsProper(s) && AllBarriersHold(s) && Enabled(s, ev)
    ensures AllBarriersHold(Step(s, ev))
  {
    if ev.Arrive? {
      ArriveBarriers(s, ev.i);
    } else if ev.Register? {
      RegisterBarriers(s, ev);
    } else {
      hide SlotsProper;
      forall k | 0 <= k < |Step(s, ev).registrations| ensures BarrierHolds(Step(s, ev), k) {
        assert BarrierHolds(s, k);
      }
    }
  }

  lemma RegisterBarriers(s: State, ev: Event)
    requires SlotsProper(s) && AllBarriersHold(s) && ev.Register?
    ensures AllBarriersHold(Step(s, ev))
  {
    forall k | 0 <= k < |Step(s, ev).registrations| ensures BarrierHolds(Step(s, ev), k) {
      if k < |s.registrations| {
        assert BarrierHolds(s, k);
      }
    }
  }

  /** Who else can be waiting in a session is the partner. */
  lemma OnlyPartnerWaits(s: State, i: nat, j: nat)
    requires SlotsProper(s) && i < |s.registrations| && j < |s.registrations| && i != j
    requires s.registrations[i].progress.Placed? && WaitsIn(s.registrations[j], s.registrations[i].sessionId)
    ensures Partner(s, i) == Some(j) && Partner(s, j) == Some(i)
  {
    assert OwnSlot(s, i) && OwnSlot(s, j);
  }

  lemma ArriveBarriers(s: State, i: nat)
    requires SlotsProper(s) && AllBarriersHold(s) && Enabled(s, Arrive(i))
    ensures AllBarriersHold(Step(s, Arrive(i)))
  {
    var t := Step(s, Arrive(i));
    forall k | 0 <= k < |t.registrations| ensures BarrierHolds(t, k) {
      hide AllBarriersHold;
      ArriveBarrier(s, i, k);
    }
  }

  lemma PartnerOf(s: State, k: nat)
    requires SlotsProper(s) && k < |s.registrations| && !s.registrations[k].progress.Refused? && Partner(s, k).Some?
    ensures
      var p := Partner(s, k).value;
      && p < |s.registrations| && p != k && !s.registrations[p].progress.Refused?
      && s.registrations[p].sessionId == s.registrations[k].sessionId
      && Partner(s, p) == Some(k)
  {
    assert OwnSlot(s, k);
  }

  /** The registrations after `i` has arrived at the barrier. */
  lemma ArriveBarrier(s: State, i: nat, k: nat)
    requires SlotsProper(s) && AllBarriersHold(s) && Enabled(s, Arrive(i)) && k < |s.registrations|
    ensures |Step(s, Arrive(i)).registrations| == |s.registrations| && BarrierHolds(Step(s, Arrive(i)), k)
  {
    var t, id := Step(s, Arrive(i)), s.registrations[i].sessionId;
    assert BarrierHolds(s, i) && BarrierHolds(s, k) && OwnSlot(s, k);
    assert Partner(t, k) == Partner(s, k);
    if !s.registrations[k].progress.Refused? && Partner(s, k).Some? {
      PartnerOf(s, k);
      assert BarrierHolds(s, Partner(s, k).value);
    }
    hide SlotsProper, AllBarriersHold, OwnSlot;
    if j :| 0 <= j < |s.registrations| && WaitsIn(s.registrations[j], id) {
      OthersWait(s, i, j);
      assert t.registrations[i].progress.Admitted? && t.registrations[j].progress.Admitted?;
    }
  }

  lemma OthersWait(s: State, i: nat, j: nat)
    requires SlotsProper(s) && i < |s.registrations| && j < |s.registrations|
    requires s.registrations[i].progress.Placed? && WaitsIn(s.registrations[j], s.registrations[i].sessionId)
    ensures Partner(s, i) == Some(j) && Partner(s, j) == Some(i)
    ensures forall m :: 0 <= m < |s.registrations| && WaitsIn(s.registrations[m], s.registrations[i].sessionId)
              ==> m == j
  {
    OnlyPartnerWaits(s, i, j);
    forall m | 0 <= m < |s.registrations| && WaitsIn(s.registrations[m], s.registrations[i].sessionId) ensures m == j {
      OnlyPartnerWaits(s, i, m);
    }
  }

  lemma {:induction false} RunBarriers(evs: seq<Event>)
    requires IsRun(evs)
    ensures AllBarriersHold(After(evs))
  {
    if evs != [] {
      var front := evs[..|evs| - 1];
      RunBarriers(front);
      RunExact(front);
      ExactIsProper(front, After(front));
      StepBarriers(After(front), evs[|evs| - 1]);
    }
  }

  lemma {:induction false} ClaimStands(evs: seq<Event>, more: seq<Event>, id: string, role: Role)
    requires FirstClaim(evs, id, role).Some?
    ensures FirstClaim(evs + more, id, role) == FirstClaim(evs, id, role)
  {
    if more == [] {
      assert evs + more == evs;
    } else {
      ClaimStands(evs, more[..|more| - 1], id, role);
      var all := evs + more;
      assert all[..|all| - 1] == evs + more[..|more| - 1];
    }
  }

  /** A role's slot, once filled, is never given to another registration. */
  lemma SlotNeverReplaced(evs: seq<Event>, more: seq<Event>, id: string, role: Role)
    requires IsRun(evs) && IsRun(evs + more) && Slot(After(evs), id, role).Some?
    ensures Slot(After(evs + more), id, role) == Slot(After(evs), id, role)
  {
    hide After;
    RunExact(evs);
    RunExact(evs + more);
    assert SlotExact(evs, After(evs), id, role) && SlotExact(evs + more, After(evs + more), id, role);
    ClaimStands(evs, more, id, role);
  }

  /** No registration succeeds before both roles have arrived: an admitted client's partner holds the other slot
      of the same session and is admitted as well. */
  lemma BothRolesArrived(evs: seq<Event>, i: nat)
    requires IsRun(evs) && i < |After(evs).registrations| && After(evs).registrations[i].progress.Admitted?
    ensures
      var s := After(evs);
      var p := Partner(s, i);
      && Slot(s, s.registrations[i].sessionId, s.registrations[i].role) == Some(i)
      && p.Some? && p.value < |s.registrations| && p.value != i
      && s.registrations[p.value].sessionId == s.registrations[i].sessionId
      && s.registrations[p.value].role == Other(s.registrations[i].role)
      && s.registrations[p.value].progress.Admitted?
  {
    var s := After(evs);
    RunBarriers(evs);
    RunExact(evs);
    ExactIsProper(evs, s);
    hide After;
    assert OwnSlot(s, i) && BarrierHolds(s, i);
  }

  /** What an admitted client has received, followed by what waits for it, is exactly the packets of its kind
      forwarded under its own session's header since it registered and until it hung up: in order, none lost, none
      twice, none from another session. A refused registration gets nothing. */
  lemma RelayDelivers(evs: seq<Event>, i: nat)
    requires IsRun(evs) && i < |After(evs).registrations|
    ensures
      var r := After(evs).registrations[i];
      r.received + r.queued == if r.progress.Refused? then [] else Addressed(evs, r.sessionId, r.role)
  {
    hide After;
    RunExact(evs);
    var s := After(evs);
    assert OwnSlot(s, i) && SlotExact(evs, s, s.registrations[i].sessionId, s.registrations[i].role);
  }

  /** A seeder gets only requests and a leecher only pieces. */
  lemma RolesGetTheirKind(evs: seq<Event>, i: nat)
    requires IsRun(evs) && i < |After(evs).registrations|
    ensures
      var r := After(evs).registrations[i];
      forall k :: 0 <= k < |Stream(r)| ==>
        Stream(r)[k].body.Some? && if r.role.Seeder? then Stream(r)[k].body.value.RequestBody?
                                   else Stream(r)[k].body.value.PieceBody?
  {
    hide After, Stream, Addressed;
    var r := After(evs).registrations[i];
    RelayDelivers(evs, i);
    AddressedKind(evs, r.sessionId, r.role);
    StreamIs(r);
  }

  lemma StreamIs(r: Registration)
    ensures Stream(r) == r.received + r.queued
  {
  }

  lemma {:induction false} AddressedKind(evs: seq<Event>, id: string, role: Role)
    ensures forall k :: 0 <= k < |Addressed(evs, id, role)| ==>
              var p := Addressed(evs, id, role)[k];
              p.body.Some? && if role.Seeder? then p.body.value.RequestBody? else p.body.value.PieceBody?
  {
    if evs != [] {
      AddressedKind(evs[..|evs| - 1], id, role);
    }
  }

  /** A packet for an open channel has to wait exactly if 128 packets are in it, and no channel ever holds more. */
  lemma {:induction false} ChannelsHold128(evs: seq<Event>, header: string, p: Packet)
    requires IsRun(evs)
    ensures
      var s := After(evs);
      && (forall i :: 0 <= i < |s.registrations| ==> |s.registrations[i].queued| <= 128)
      && (Enabled(s, Forward(header, p)) <==>
            forall i: nat :: Target(s, header, p) == Some(i) ==>
              i < |s.registrations| && (s.registrations[i].open ==> |s.registrations[i].queued| != 128))
  {
    if evs != [] {
      var front, ev := evs[..|evs| - 1], evs[|evs| - 1];
      ChannelsHold128(front, header, p);
      StepHolds(After(front), ev);
    }
  }

  lemma StepHolds(s: State, ev: Event)
    requires Enabled(s, ev) && forall i :: 0 <= i < |s.registrations| ==> |s.registrations[i].queued| <= 128
    ensures forall i :: 0 <= i < |Step(s, ev).registrations| ==> |Step(s, ev).registrations[i].queued| <= 128
  {
  }

  /** As soon as both have arrived, both are admitted. */
  lemma BothAreAdmitted(evs: seq<Event>, i: nat)
    requires IsRun(evs) && Enabled(After(evs), Arrive(i))
    requires
      var s := After(evs);
      && Partner(s, i).Some? && Partner(s, i).value < |s.registrations|
      && s.registrations[Partner(s, i).value].progress.AtBarrier?
    ensures
      var s := After(evs);
      var t := Step(s, Arrive(i));
      && |t.registrations| == |s.registrations|
      && t.registrations[i].progress.Admitted? && t.registrations[Partner(s, i).value].progress.Admitted?
  {
    hide After;
    var s := After(evs);
    RunExact(evs);
    ExactIsProper(evs, s);
    PartnerOf(s, i);
    assert WaitsIn(s.registrations[Partner(s, i).value], s.registrations[i].sessionId);
  }

  /** The service object. */
  class TurnService {
    var sessions: map<string, Session>
    var registrations: seq<Registration>

    ghost function Snapshot(): State
      reads this
    {
      State(sessions, registrations)
    }

    constructor ()
      ensures Snapshot() == After([])
    {
      sessions, registrations := map[], [];
    }

    /** `register_for_session` up to the barrier: create the session if needed and fill the role's slot. */
    method RegisterForSession(id: string, role: Role) returns (ok: bool)
      modifies this
      ensures Snapshot() == Step(old(Snapshot()), Register(id, role))
      ensures ok <==> Slot(old(Snapshot()), id, role).None?
    {
      var i := |registrations|;
      var session := if id in sessions then sessions[id] else Session(None, None);
      match role {
        case Seeder =>
          ok := session.seeder.None?;
          if ok { session := session.(seeder := Some(i)); }
        case Leecher =>
          ok := session.leecher.None?;
          if ok { session := session.(leecher := Some(i)); }
      }
      if ok {
        sessions := sessions[id := session];
      }
      registrations := registrations + [Registration(id, role, if ok then Placed else Refused, [], [], true)];
    }

    /** The last client to arrive lets everybody waiting in its session through. */
    method WaitAtBarrier(i: nat)
      requires Enabled(Snapshot(), Arrive(i))
      modifies this`registrations
      ensures Snapshot() == Step(old(Snapshot()), Arrive(i))
    {
      var id := registrations[i].sessionId;
      var found, j := false, 0;
      while j < |registrations|
        invariant j <= |registrations| && registrations == old(registrations)
        invariant found <==> exists k :: 0 <= k < j && WaitsIn(registrations[k], id)
      {
        found := found || WaitsIn(registrations[j], id);
        j := j + 1;
      }
      if !found {
        registrations := registrations[i := registrations[i].(progress := AtBarrier)];
        return;
      }
      j := 0;
      while j < |registrations|
        invariant j <= |registrations| == |old(registrations)|
        invariant forall k :: 0 <= k < |registrations| ==>
          registrations[k] == (if k < j && (k == i || WaitsIn(old(registrations)[k], id))
                               then old(registrations)[k].(progress := Admitted) else old(registrations)[k])
      {
        if j == i || WaitsIn(registrations[j], id) {
          registrations := registrations[j := registrations[j].(progress := Admitted)];
        }
        j := j + 1;
      }
    }

    /** The client drops its stream. */
    method CloseStream(i: nat)
      requires Enabled(Snapshot(), HangUp(i))
      modifies this`registrations
      ensures Snapshot() == Step(old(Snapshot()), HangUp(i))
    {
      registrations := registrations[i := registrations[i].(open := false)];
    }

    /** One packet of `send`'s relay loop; one for a closed channel is dropped. */
    method ForwardPacket(header: string, packet: Packet)
      requires Enabled(Snapshot(), Forward(header, packet))
      modifies this`registrations
      ensures Snapshot() == Step(old(Snapshot()), Forward(header, packet))
    {
      if header !in sessions || packet.body.None? {
        return;
      }
      var session := sessions[header];
      var slot :=
        match packet.body.value case RequestBody(_, _) => session.seeder case PieceBody(_, _) => session.leecher;
      if slot.Some? {
        var i := slot.value;
        if !registrations[i].open {
          return;
        }
        registrations := registrations[i := registrations[i].(queued := registrations[i].queued + [packet])];
      }
    }
  }
}
