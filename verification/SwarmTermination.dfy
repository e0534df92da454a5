/** Termination: every step uses up part of a potential that only a corrupted reply can refill. */
module SwarmTermination {
  import opened Base
  import opened Wire
  import PartFile
  import opened Swarm
  import opened SwarmTokens
  import opened SwarmProgress

  /** A full-length payload that will fail the hash check. */
  predicate Corrupted(cfg: Config, m: Message) {
    m.Piece? && |m.piece| == cfg.PL() && m.index < cfg.Count() && cfg.digest(m.piece) != cfg.info.pieces[m.index]
  }

  function CorruptReplies(cfg: Config, evs: seq<Event>): nat {
    if evs == [] then 0
    else (if evs[0].PeerReplies? && Corrupted(cfg, evs[0].reply) then 1 else 0) + CorruptReplies(cfg, evs[1..])
  }

  /** The steps a reply still causes once it is in the reply queue; a corrupted one goes round once more. */
  function ReplyRank(cfg: Config, m: Message): nat {
    if Corrupted(cfg, m) then 14 else 4
  }

  function RepliesRank(cfg: Config, q: seq<Message>): nat {
    if q == [] then 0 else ReplyRank(cfg, q[0]) + RepliesRank(cfg, q[1..])
  }

  function PhaseRank(cfg: Config, p: ConnPhase): nat {
    match p
    case Waiting => 1
    case Got(_) => 8
    case InFlight(_) => 7
    case Replying(m) => 2 + ReplyRank(cfg, m)
    case Closed => 0
  }

  function ConnRank(cfg: Config, c: Connection): nat {
    8 * |c.queue| + PhaseRank(cfg, c.phase)
  }

  function ConnsRank(cfg: Config, conns: seq<Connection>): nat {
    if conns == [] then 0 else ConnRank(cfg, conns[0]) + ConnsRank(cfg, conns[1..])
  }

  function SenderRank(cfg: Config, x: Sender): nat {
    match x
    case Starting(i) => 2 + 10 * Max(0, cfg.Count() - i)
    case SendingFirst(i, _) => 11 + 10 * Max(0, cfg.Count() - i - 1)
    case Listening(_) => 1
    case Choosing(_, _) => 12
    case Addressing(_, _) => 11
    case SendingAgain(_, _, _) => 10
    case SenderDone => 0
    case Crashed => 0
  }

  function ReceiverRank(x: Receiver): nat {
    match x
    case Receiving => 3
    case CancelSeen(_) => 6
    case AwaitRemove(_) => 5
    case SlotRemoved(_) => 19
    case AwaitDecrement(_) => 18
    case Decremented(_) => 17
    case Requeueing(_) => 16
    case AllWritten => 3
    case AwaitDrain => 2
    case Drained => 1
    case Finished => 0
    case Failed => 0
  }

  /** An upper bound on the steps still to come, if no further corrupted reply arrives. */
  function Potential(cfg: Config, s: State): nat {
    SenderRank(cfg, s.sender) + ReceiverRank(s.receiver) + RepliesRank(cfg, s.replies) + 12 * |s.resends|
    + ConnsRank(cfg, s.conns) + 15 * |s.slots|
  }

  lemma {:induction false} RepliesRankPush(cfg: Config, q: seq<Message>, m: Message)
    ensures RepliesRank(cfg, q + [m]) == RepliesRank(cfg, q) + ReplyRank(cfg, m)
  {
    hide ReplyRank;
    if q == [] {
      assert [] + [m] == [m] && [m][1..] == [];
      assert RepliesRank(cfg, [m]) == ReplyRank(cfg, m) + RepliesRank(cfg, []);
    } else {
      RepliesRankPush(cfg, q[1..], m);
      assert (q + [m])[1..] == q[1..] + [m];
    }
  }

  lemma {:induction false} ConnsRankUpdate(cfg: Config, conns: seq<Connection>, j: nat, c: Connection)
    requires j < |conns|
    ensures ConnsRank(cfg, conns[j := c]) + ConnRank(cfg, conns[j]) == ConnsRank(cfg, conns) + ConnRank(cfg, c)
  {
    hide ConnRank;
    if j == 0 {
      assert conns[0 := c][1..] == conns[1..];
    } else {
      ConnsRankUpdate(cfg, conns[1..], j - 1, c);
      assert conns[j := c][1..] == conns[1..][j - 1 := c];
    }
  }

  /** Every step lowers the potential by at least one, except that a corrupted reply may raise it by nine. */
  lemma StepCosts(cfg: Config, s: State, ev: Event)
    requires Enabled(cfg, s, ev)
    ensures Potential(cfg, Step(cfg, s, ev)) + 1
            <= Potential(cfg, s) + if ev.PeerReplies? && Corrupted(cfg, ev.reply) then 10 else 0
  {
    hide Step, Enabled, Potential, Corrupted;
    if OfSender(ev) { SenderCosts(cfg, s, ev); }
    else if OfReceiver(ev) { ReceiverCosts(cfg, s, ev); }
    else { ConnCosts(cfg, s, ev); }
  }

  lemma SenderCosts(cfg: Config, s: State, ev: Event)
    requires Enabled(cfg, s, ev) && OfSender(ev)
    ensures Potential(cfg, Step(cfg, s, ev)) < Potential(cfg, s)
  {
    hide ConnsRank, RepliesRank, ReceiverRank, FirstRequest, RepeatRequest, Wrap32;
    if ev.SenderPushes? {
      var t := Step(cfg, s, ev);
      var to := s.sender.to;
      if !t.sender.Crashed? {
        ConnsRankUpdate(cfg, s.conns, to, t.conns[to]);
        assert t.conns == s.conns[to := t.conns[to]];
        assert ConnRank(cfg, t.conns[to]) == ConnRank(cfg, s.conns[to]) + 8;
      }
    }
  }

  lemma ReceiverCosts(cfg: Config, s: State, ev: Event)
    requires Enabled(cfg, s, ev) && OfReceiver(ev)
    ensures Potential(cfg, Step(cfg, s, ev)) < Potential(cfg, s)
  {
    hide ConnsRank, SenderRank, RepliesRank, Receive;
    if ev.ReceiverTakes? {
      ReceiveCosts(cfg, s);
    }
  }

  lemma ReceiveCosts(cfg: Config, s: State)
    requires Enabled(cfg, s, ReceiverTakes)
    ensures Potential(cfg, Step(cfg, s, ReceiverTakes)) < Potential(cfg, s)
  {
    hide ConnsRank, SenderRank, PartFile.Apply, PartFile.AllOnes;
    assert RepliesRank(cfg, s.replies) == ReplyRank(cfg, s.replies[0]) + RepliesRank(cfg, s.replies[1..]);
  }

  lemma ConnCosts(cfg: Config, s: State, ev: Event)
    requires Enabled(cfg, s, ev) && !OfSender(ev) && !OfReceiver(ev)
    ensures Potential(cfg, Step(cfg, s, ev)) + 1
            <= Potential(cfg, s) + if ev.PeerReplies? && Corrupted(cfg, ev.reply) then 10 else 0
  {
    hide ConnsRank, SenderRank, ReceiverRank, RepliesRank, Corrupted;
    var t := Step(cfg, s, ev);
    ConnsRankUpdate(cfg, s.conns, ev.j, t.conns[ev.j]);
    match ev
    case ConnTakes(j) =>
    case ConnOpens(j, ok) =>
      if s.conns[j].phase.req.Request? {
        CancelNotCorrupted(cfg, CancelOf(s.conns[j].phase.req));
      }
    case PeerReplies(j, reply) =>
    case ConnPushes(j) => RepliesRankPush(cfg, s.replies, s.conns[j].phase.msg);
    case ConnCloses(j) =>
  }

  lemma CancelNotCorrupted(cfg: Config, m: Message)
    requires m.Cancel?
    ensures !Corrupted(cfg, m)
  {
  }

  lemma {:induction false} RunCosts(cfg: Config, s: State, evs: seq<Event>)
    requires IsRun(cfg, s, evs)
    ensures |evs| + Potential(cfg, After(cfg, s, evs)) <= Potential(cfg, s) + 10 * CorruptReplies(cfg, evs)
    decreases |evs|
  {
    hide Step, Enabled, Potential, Corrupted;
    if evs != [] {
      StepCosts(cfg, s, evs[0]);
      RunCosts(cfg, Step(cfg, s, evs[0]), evs[1..]);
    }
  }

  lemma {:induction false} IdleConnsRank(cfg: Config, conns: seq<Connection>)
    requires forall j :: 0 <= j < |conns| ==> conns[j] == Connection([], Waiting)
    ensures ConnsRank(cfg, conns) == |conns|
  {
    if conns != [] {
      IdleConnsRank(cfg, conns[1..]);
    }
  }

  /** Ten steps per piece and per corrupted reply and sixteen per connection, plus five. */
  predicate WithinBound(cfg: Config, evs: seq<Event>) {
    |evs| <= 10 * (cfg.Count() + CorruptReplies(cfg, evs)) + 16 * cfg.conns + 5
  }

  /** No run from the start is longer than that. */
  lemma RunLength(cfg: Config, evs: seq<Event>)
    requires IsRun(cfg, Initial(cfg), evs)
    ensures WithinBound(cfg, evs)
  {
    hide Step, Enabled;
    IdleConnsRank(cfg, Initial(cfg).conns);
    RunCosts(cfg, Initial(cfg), evs);
  }

  /** Whatever the schedule, a download of at most 302 pieces ends: its runs are bounded, and a run that
      cannot go on has finished or aborted. */
  lemma DownloadEnds(cfg: Config, evs: seq<Event>)
    requires Valid(cfg) && cfg.Count() <= 302 && IsRun(cfg, Initial(cfg), evs)
    ensures
      var s := After(cfg, Initial(cfg), evs);
      WithinBound(cfg, evs) && (Stuck(cfg, s) ==> Aborted(s) || s.receiver.Finished?)
  {
    hide Step, Enabled;
    RunLength(cfg, evs);
    Progress(cfg, evs);
  }
}
