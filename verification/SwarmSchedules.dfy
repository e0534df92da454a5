/** Building schedules step by step: which states a download can reach, and which streams fail on the way. */
module SwarmSchedules {
  import opened Base
  import opened Wire
  import PartFile
  import opened Swarm
  import opened SwarmTokens
  import opened SwarmProgress

  /** The connections whose streams do not open or bring back a Cancel, one entry for each time, in order. */
  function Failures(evs: seq<Event>): seq<nat> {
    if evs == [] then [] else FailedBy(evs[0]) + Failures(evs[1..])
  }

  function FailedBy(ev: Event): seq<nat> {
    if CancelFree(ev) then [] else [ev.j]
  }

  lemma {:induction false} FailedConcat(a: seq<Event>, b: seq<Event>)
    ensures Failures(a + b) == Failures(a) + Failures(b)
  {
    hide FailedBy;
    if a == [] {
      assert a + b == b;
    } else {
      FailedConcat(a[1..], b);
      assert (a + b)[0] == a[0] && (a + b)[1..] == a[1..] + b;
    }
  }

  lemma {:induction false} NoneFailed(evs: seq<Event>)
    ensures Failures(evs) == [] <==> forall ev :: ev in evs ==> CancelFree(ev)
  {
    hide CancelFree;
    if evs != [] {
      NoneFailed(evs[1..]);
      assert evs == [evs[0]] + evs[1..];
    }
  }

  /** Some run leads from `s` to `t` in which exactly these streams fail. */
  ghost predicate Reaches(cfg: Config, failed: seq<nat>, s: State, t: State) {
    exists evs :: Leads(cfg, failed, s, evs, t)
  }

  ghost predicate Leads(cfg: Config, failed: seq<nat>, s: State, evs: seq<Event>, t: State) {
    IsRun(cfg, s, evs) && After(cfg, s, evs) == t && Failures(evs) == failed
  }

  lemma ReachesSelf(cfg: Config, s: State)
    ensures Reaches(cfg, [], s, s)
  {
    assert Leads(cfg, [], s, [], s);
  }

  lemma ReachesStep(cfg: Config, s: State, ev: Event)
    requires Enabled(cfg, s, ev)
    ensures Reaches(cfg, Failures([ev]), s, Step(cfg, s, ev))
  {
    hide Step, Enabled;
    assert [ev][1..] == [];
    assert After(cfg, Step(cfg, s, ev), []) == Step(cfg, s, ev);
    assert Leads(cfg, Failures([ev]), s, [ev], Step(cfg, s, ev));
  }

  lemma ReachesTrans(cfg: Config, f: seq<nat>, g: seq<nat>, s: State, t: State, u: State)
    requires Reaches(cfg, f, s, t) && Reaches(cfg, g, t, u)
    ensures Reaches(cfg, f + g, s, u)
  {
    hide Step, Enabled, Failures;
    var a :| Leads(cfg, f, s, a, t);
    var b :| Leads(cfg, g, t, b, u);
    RunsConcat(cfg, s, a, b);
    FailedConcat(a, b);
    assert Leads(cfg, f + g, s, a + b, u);
  }

  /** One step in which no stream fails, after a state already reached. */
  lemma Then(cfg: Config, failed: seq<nat>, s: State, t: State, ev: Event)
    requires Reaches(cfg, failed, s, t) && Enabled(cfg, t, ev) && CancelFree(ev)
    ensures Reaches(cfg, failed, s, Step(cfg, t, ev))
  {
    hide Step, Enabled, Reaches;
    ReachesStep(cfg, t, ev);
    assert Failures([ev]) == [];
    ReachesTrans(cfg, failed, [], s, t, Step(cfg, t, ev));
    assert failed + [] == failed;
  }

  /** One step in which a stream fails. */
  lemma ThenFails(cfg: Config, failed: seq<nat>, s: State, t: State, ev: Event)
    requires Reaches(cfg, failed, s, t) && Enabled(cfg, t, ev) && !CancelFree(ev)
    ensures Reaches(cfg, failed + [ev.j], s, Step(cfg, t, ev))
  {
    hide Step, Enabled, Reaches;
    ReachesStep(cfg, t, ev);
    assert Failures([ev]) == [ev.j];
    ReachesTrans(cfg, failed, [ev.j], s, t, Step(cfg, t, ev));
  }

  lemma ReachedInv(cfg: Config, failed: seq<nat>, s: State)
    requires Valid(cfg) && Reaches(cfg, failed, Initial(cfg), s) && !Aborted(s)
    ensures Inv(cfg, s)
  {
    hide Step, Enabled, Failures;
    var evs :| Leads(cfg, failed, Initial(cfg), evs, s);
    InitialInv(cfg);
    RunInv(cfg, Initial(cfg), evs);
  }

  function AllSlots(cfg: Config): seq<nat> {
    seq(cfg.conns, i => i)
  }

  /** All connections idle, no reply under way, request `i` the next to go out. */
  function Round(cfg: Config, i: nat, resends: seq<Message>, part: PartFile.Part): State {
    State(Starting(i), Receiving, seq(cfg.conns, _ => Connection([], Waiting)), AllSlots(cfg), cfg.conns,
          [], resends, part, None)
  }

  lemma InitialIsRound(cfg: Config)
    ensures Initial(cfg) == Round(cfg, 0, [], PartFile.Empty(cfg.Count()))
  {
  }

  function SetQueue(s: State, j: nat, q: seq<Message>): State
    requires j < |s.conns|
  {
    s.(conns := s.conns[j := s.conns[j].(queue := q)])
  }

  /** The next initial request joins the queue of the connection whose turn it is. */
  lemma Sends(cfg: Config, failed: seq<nat>, s0: State, s: State, i: nat)
    requires Reaches(cfg, failed, s0, s) && !Aborted(s) && !WriterQueued(s)
    requires cfg.conns > 0 && i < cfg.Count() && s.sender == Starting(i)
    requires s.slots == AllSlots(cfg) && |s.conns| == cfg.conns
    requires !s.conns[i % cfg.conns].phase.Closed? && s.conns[i % cfg.conns].queue == []
    ensures Reaches(cfg, failed, s0, SetQueue(s, i % cfg.conns, [FirstRequest(cfg, i)]).(sender := Starting(i + 1)))
  {
    hide Reaches, FirstRequest;
    var j := i % cfg.conns;
    Then(cfg, failed, s0, s, SenderStarts);
    var t := s.(sender := SendingFirst(i, j));
    assert Step(cfg, s, SenderStarts) == t;
    Then(cfg, failed, s0, t, SenderPushes);
    assert [] + [FirstRequest(cfg, i)] == [FirstRequest(cfg, i)];
    assert Step(cfg, t, SenderPushes) == SetQueue(s, j, [FirstRequest(cfg, i)]).(sender := Starting(i + 1));
  }

  /** A connection takes the head of its queue. */
  lemma Takes(cfg: Config, failed: seq<nat>, s0: State, s: State, j: nat)
    requires Reaches(cfg, failed, s0, s) && !Aborted(s)
    requires j < |s.conns| && s.conns[j].phase.Waiting? && s.conns[j].queue != []
    ensures Reaches(cfg, failed, s0, SetConn(s, j, Connection(s.conns[j].queue[1..], Got(s.conns[j].queue[0]))))
  {
    hide Reaches;
    Then(cfg, failed, s0, s, ConnTakes(j));
  }

  /** A stream opens, the peer answers with this payload, and the answer enters the reply queue. */
  lemma Answers(cfg: Config, failed: seq<nat>, s0: State, s: State, j: nat, p: seq<u8>)
    requires Reaches(cfg, failed, s0, s) && !Aborted(s) && |s.replies| < REPLY_CAP
    requires j < |s.conns| && s.conns[j].phase.Got? && s.conns[j].phase.req.Request?
    requires |p| <= s.conns[j].phase.req.length
    ensures Reaches(cfg, failed, s0,
                    SetPhase(s, j, Waiting).(replies := s.replies + [Piece(s.conns[j].phase.req.index, p)]))
  {
    hide Reaches;
    var req := s.conns[j].phase.req;
    Then(cfg, failed, s0, s, ConnOpens(j, true));
    var t := SetPhase(s, j, InFlight(req));
    assert Step(cfg, s, ConnOpens(j, true)) == t;
    Then(cfg, failed, s0, t, PeerReplies(j, Piece(req.index, p)));
    var u := SetPhase(s, j, Replying(Piece(req.index, p)));
    assert Step(cfg, t, PeerReplies(j, Piece(req.index, p))) == u;
    Then(cfg, failed, s0, u, ConnPushes(j));
    assert Step(cfg, u, ConnPushes(j)) == SetPhase(s, j, Waiting).(replies := s.replies + [Piece(req.index, p)]);
  }

  /** A stream fails and the Cancel enters the reply queue. */
  lemma Fails(cfg: Config, failed: seq<nat>, s0: State, s: State, j: nat)
    requires Reaches(cfg, failed, s0, s) && !Aborted(s) && |s.replies| < REPLY_CAP
    requires j < |s.conns| && s.conns[j].phase.Got? && s.conns[j].phase.req.Request?
    ensures Reaches(cfg, failed + [j], s0,
                    SetPhase(s, j, Waiting).(replies := s.replies + [CancelOf(s.conns[j].phase.req)]))
  {
    hide Reaches;
    var req := s.conns[j].phase.req;
    ThenFails(cfg, failed, s0, s, ConnOpens(j, false));
    var t := SetPhase(s, j, Replying(CancelOf(req)));
    assert Step(cfg, s, ConnOpens(j, false)) == t;
    Then(cfg, failed + [j], s0, t, ConnPushes(j));
    assert Step(cfg, t, ConnPushes(j)) == SetPhase(s, j, Waiting).(replies := s.replies + [CancelOf(req)]);
  }

  /** The connection whose turn it is has the next request in hand. */
  lemma Hands(cfg: Config, s0: State, i: nat, re: seq<Message>, part: PartFile.Part)
    requires Reaches(cfg, [], s0, Round(cfg, i, re, part)) && cfg.conns > 0 && i < cfg.Count()
    ensures
      var c := Connection([], Got(FirstRequest(cfg, i)));
      Reaches(cfg, [], s0, SetConn(Round(cfg, i + 1, re, part), i % cfg.conns, c))
  {
    hide Reaches, FirstRequest;
    var s, j, r := Round(cfg, i, re, part), i % cfg.conns, FirstRequest(cfg, i);
    Sends(cfg, [], s0, s, i);
    var t := SetQueue(s, j, [r]).(sender := Starting(i + 1));
    Takes(cfg, [], s0, t, j);
    assert [r][1..] == [];
    assert SetConn(t, j, Connection([], Got(r))) == SetConn(Round(cfg, i + 1, re, part), j, Connection([], Got(r)));
  }

  /** From one round to the next: the request goes out and its answer is the only message under way. */
  lemma Asks(cfg: Config, s0: State, i: nat, re: seq<Message>, part: PartFile.Part, p: seq<u8>)
    requires Reaches(cfg, [], s0, Round(cfg, i, re, part))
    requires cfg.conns > 0 && i < cfg.Count() <= U32_SIZE && |p| <= cfg.PL()
    ensures Reaches(cfg, [], s0, Round(cfg, i + 1, re, part).(replies := [Piece(i, p)]))
  {
    hide Reaches;
    var j := i % cfg.conns;
    Hands(cfg, s0, i, re, part);
    var t := Round(cfg, i + 1, re, part);
    var u := SetConn(t, j, Connection([], Got(FirstRequest(cfg, i))));
    Answers(cfg, [], s0, u, j, p);
    assert [] + [Piece(i, p)] == [Piece(i, p)];
    assert SetPhase(u, j, Waiting).conns == t.conns;
  }
}
