/** Where requests go, in which order queues are served, who goes first at the lock, and which steps fail. */
module SwarmRoutes {
  import opened Base
  import opened Wire
  import PartFile
  import opened Swarm
  import opened SwarmTokens
  import opened SwarmProgress
  import opened SwarmSchedules
  import opened SwarmAssembly

  /** The connections to whose queues the sender passes requests along a run, in order. */
  function SentTo(cfg: Config, s: State, evs: seq<Event>): seq<nat>
    requires IsRun(cfg, s, evs)
    decreases |evs|
  {
    if evs == [] then [] else SentBy(cfg, s, evs[0]) + SentTo(cfg, Step(cfg, s, evs[0]), evs[1..])
  }

  function SentBy(cfg: Config, s: State, ev: Event): seq<nat>
    requires Enabled(cfg, s, ev)
  {
    if ev.SenderPushes? && !Step(cfg, s, ev).sender.Crashed? then [s.sender.to] else []
  }

  /** Where request number `x` should go: the initial ones round robin, and the resends round robin once more. */
  function Turn(cfg: Config, x: nat): nat
    requires cfg.conns > 0
  {
    if x < cfg.Count() then x % cfg.conns else Wrap32((x - cfg.Count()) % cfg.conns)
  }

  /** The sender, having passed on `x` requests, is about to pass on request number `x`. */
  ghost predicate OnTurn(cfg: Config, x: nat, s: State)
    requires cfg.conns > 0
  {
    && (!ResendClosed(s) ==> s.slots == AllSlots(cfg)) && s.numConnections == cfg.conns
    && match s.sender
       case Starting(i) => x == i <= cfg.Count()
       case SendingFirst(i, to) => x == i < cfg.Count() && to == Turn(cfg, x)
       case Listening(k) => x == cfg.Count() + k
       case Choosing(k, _) => x == cfg.Count() + k
       case Addressing(k, req) => x == cfg.Count() + k && req.Request? && req.seeder == Turn(cfg, x)
       case SendingAgain(k, _, to) => x == cfg.Count() + k && to == Turn(cfg, x)
       case _ => true
  }

  lemma StepOnTurn(cfg: Config, x: nat, s: State, ev: Event)
    requires Valid(cfg) && Inv(cfg, s) && NoCancels(s) && OnTurn(cfg, x, s)
    requires Enabled(cfg, s, ev) && !Aborted(Step(cfg, s, ev))
    ensures OnTurn(cfg, x + |SentBy(cfg, s, ev)|, Step(cfg, s, ev))
    ensures SentBy(cfg, s, ev) == [] || SentBy(cfg, s, ev) == [Turn(cfg, x)]
  {
    hide Step, Enabled, OnTurn, Inv, NoCancels, Valid;
    ConnsPositive(cfg);
    if OfSender(ev) {
      SenderOnTurn(cfg, x, s, ev);
    } else if OfReceiver(ev) {
      ReceiverOnTurn(cfg, x, s, ev);
    } else {
      ConnOnTurn(cfg, x, s, ev);
    }
  }

  lemma ConnOnTurn(cfg: Config, x: nat, s: State, ev: Event)
    requires cfg.conns > 0 && OnTurn(cfg, x, s) && Enabled(cfg, s, ev) && !OfSender(ev) && !OfReceiver(ev)
    ensures OnTurn(cfg, x, Step(cfg, s, ev))
  {
    hide Turn;
  }

  lemma SenderOnTurn(cfg: Config, x: nat, s: State, ev: Event)
    requires Valid(cfg) && Inv(cfg, s) && OnTurn(cfg, x, s)
    requires Enabled(cfg, s, ev) && !Aborted(Step(cfg, s, ev)) && OfSender(ev)
    ensures OnTurn(cfg, x + |SentBy(cfg, s, ev)|, Step(cfg, s, ev))
    ensures SentBy(cfg, s, ev) == [] || SentBy(cfg, s, ev) == [Turn(cfg, x)]
  {
    hide OneEach, Tokens, ConnsTyped, RepliesTyped, SlotsOpen, Wrap32, FirstRequest;
    if ResendClosed(s) {
      DoneIsEmpty(cfg, s);
      SenderIdle(cfg, s);
    }
  }

  lemma ReceiverOnTurn(cfg: Config, x: nat, s: State, ev: Event)
    requires cfg.conns > 0 && NoCancels(s) && OnTurn(cfg, x, s) && Enabled(cfg, s, ev) && OfReceiver(ev)
    requires !Aborted(Step(cfg, s, ev))
    ensures OnTurn(cfg, x, Step(cfg, s, ev))
  {
    hide PartFile.Apply, PartFile.AllOnes, Turn;
  }

  ghost predicate Routed(cfg: Config, x: nat, s: State)
    requires cfg.conns > 0
  {
    Inv(cfg, s) && NoCancels(s) && OnTurn(cfg, x, s)
  }

  lemma StepRouted(cfg: Config, x: nat, s: State, evs: seq<Event>)
    requires Valid(cfg) && Routed(cfg, x, s) && evs != [] && IsRun(cfg, s, evs)
    requires !Aborted(After(cfg, s, evs)) && CancelFree(evs[0])
    ensures
      var t, now := Step(cfg, s, evs[0]), SentBy(cfg, s, evs[0]);
      Routed(cfg, x + |now|, t) && (now == [] || now == [Turn(cfg, x)])
  {
    hide Step, Enabled, Inv, Valid, NoCancels, OnTurn, Turn, SentBy, CancelFree;
    ConnsPositive(cfg);
    NotAbortedYet(cfg, s, evs);
    StepInv(cfg, s, evs[0]);
    StepNoCancels(cfg, s, evs[0]);
    StepOnTurn(cfg, x, s, evs[0]);
  }

  lemma {:induction false} RunOnTurn(cfg: Config, x: nat, s: State, evs: seq<Event>)
    requires Valid(cfg) && Routed(cfg, x, s) && IsRun(cfg, s, evs)
    requires !Aborted(After(cfg, s, evs)) && forall ev :: ev in evs ==> CancelFree(ev)
    ensures Turns(cfg, x, SentTo(cfg, s, evs))
    decreases |evs|
  {
    hide Step, Enabled, Routed, Valid, CancelFree, Aborted, Turn, Turns, SentBy;
    ConnsPositive(cfg);
    if evs == [] {
      NoTurns(cfg, x);
    } else {
      var t, now := Step(cfg, s, evs[0]), SentBy(cfg, s, evs[0]);
      StepRouted(cfg, x, s, evs);
      RunOnTurn(cfg, x + |now|, t, evs[1..]);
      TurnsGoOn(cfg, x, now, SentTo(cfg, t, evs[1..]));
    }
  }

  ghost predicate Turns(cfg: Config, x: nat, targets: seq<nat>)
    requires cfg.conns > 0
  {
    forall i :: 0 <= i < |targets| ==> targets[i] == Turn(cfg, x + i)
  }

  lemma NoTurns(cfg: Config, x: nat)
    requires cfg.conns > 0
    ensures Turns(cfg, x, [])
  {
  }

  lemma TurnsGoOn(cfg: Config, x: nat, now: seq<nat>, rest: seq<nat>)
    requires cfg.conns > 0 && (now == [] || now == [Turn(cfg, x)]) && Turns(cfg, x + |now|, rest)
    ensures Turns(cfg, x, now + rest)
  {
    hide Turn;
    forall i | 0 <= i < |now + rest| ensures (now + rest)[i] == Turn(cfg, x + i) {
      if i >= |now| {
        assert (now + rest)[i] == rest[i - |now|] == Turn(cfg, x + |now| + (i - |now|));
      }
    }
  }

  /** Round robin: without failed streams, request number `x` of a run goes to connection `x` modulo their number, and
      the resends begin again with connection 0. */
  lemma RoundRobin(cfg: Config, evs: seq<Event>)
    requires Valid(cfg) && IsRun(cfg, Initial(cfg), evs) && !Aborted(After(cfg, Initial(cfg), evs))
    requires forall ev :: ev in evs ==> CancelFree(ev)
    ensures forall x :: 0 <= x < |SentTo(cfg, Initial(cfg), evs)| ==> SentTo(cfg, Initial(cfg), evs)[x] == Turn(cfg, x)
  {
    hide Step, Enabled, Inv, Turn;
    InitialInv(cfg);
    ConnsPositive(cfg);
    RunOnTurn(cfg, 0, Initial(cfg), evs);
  }

  /** A queue that is left alone, gets one message at its end, or loses the one at its head. */
  predicate Fifo(before: seq<Message>, after: seq<Message>) {
    || after == before
    || (|after| == |before| + 1 && after[..|before|] == before)
    || (before != [] && after == before[1..])
  }

  /** All channels are first in, first out, and only the target of a send grows. */
  lemma ChannelsAreFifo(cfg: Config, s: State, ev: Event)
    requires Enabled(cfg, s, ev)
    ensures
      var t := Step(cfg, s, ev);
      && Fifo(s.replies, t.replies) && Fifo(s.resends, t.resends) && |t.conns| == |s.conns|
      && (forall j :: 0 <= j < |s.conns| ==> Fifo(s.conns[j].queue, t.conns[j].queue))
      && (forall j :: 0 <= j < |s.conns| && |t.conns[j].queue| > |s.conns[j].queue| ==>
            ev.SenderPushes? && j == s.sender.to)
  {
    hide PartFile.Apply, PartFile.AllOnes, FirstRequest, RepeatRequest, Fifo;
    if OfSender(ev) {
      SenderFifo(cfg, s, ev);
    } else if OfReceiver(ev) {
      ReceiverFifo(cfg, s, ev);
    } else {
      ConnFifo(cfg, s, ev);
    }
  }

  lemma SenderFifo(cfg: Config, s: State, ev: Event)
    requires Enabled(cfg, s, ev) && OfSender(ev)
    ensures
      var t := Step(cfg, s, ev);
      && t.replies == s.replies && Fifo(s.replies, t.replies) && Fifo(s.resends, t.resends) && |t.conns| == |s.conns|
      && (forall j :: 0 <= j < |s.conns| ==> Fifo(s.conns[j].queue, t.conns[j].queue))
      && (forall j :: 0 <= j < |s.conns| && |t.conns[j].queue| > |s.conns[j].queue| ==>
            ev.SenderPushes? && j == s.sender.to)
  {
    hide FirstRequest, RepeatRequest;
  }

  lemma ReceiverFifo(cfg: Config, s: State, ev: Event)
    requires Enabled(cfg, s, ev) && OfReceiver(ev)
    ensures
      var t := Step(cfg, s, ev);
      && Fifo(s.replies, t.replies) && Fifo(s.resends, t.resends) && t.conns == s.conns
      && (forall j :: 0 <= j < |s.conns| ==> Fifo(s.conns[j].queue, t.conns[j].queue))
  {
    hide PartFile.Apply, PartFile.AllOnes;
  }

  lemma ConnFifo(cfg: Config, s: State, ev: Event)
    requires Enabled(cfg, s, ev) && !OfSender(ev) && !OfReceiver(ev)
    ensures
      var t := Step(cfg, s, ev);
      && Fifo(s.replies, t.replies) && Fifo(s.resends, t.resends) && |t.conns| == |s.conns|
      && (forall j :: 0 <= j < |s.conns| ==>
            |t.conns[j].queue| <= |s.conns[j].queue| && Fifo(s.conns[j].queue, t.conns[j].queue))
  {
  }

  /** What leaves a queue is where its reader is, and what its writer had goes to its end. */
  lemma ChannelsCarry(cfg: Config, s: State, ev: Event)
    requires Enabled(cfg, s, ev)
    ensures
      var t := Step(cfg, s, ev);
      && (ev.SenderTakes? ==> t.sender.Choosing? && [t.sender.msg] + t.resends == s.resends)
      && (ev.ConnTakes? ==> t.conns[ev.j].phase.Got?
                            && [t.conns[ev.j].phase.req] + t.conns[ev.j].queue == s.conns[ev.j].queue)
      && (ev.ConnPushes? ==> t.replies == s.replies + [s.conns[ev.j].phase.msg])
      && (ev.ReceiverResends? ==> t.resends == s.resends + [s.receiver.msg])
      && (ev.ReceiverTakes? && (t.receiver.CancelSeen? || t.receiver.Requeueing?) ==>
            [t.receiver.msg] + t.replies == s.replies)
  {
    hide PartFile.Apply, PartFile.AllOnes, FirstRequest, RepeatRequest;
  }

  /** While the receiver waits for the write lock, the sender cannot enter again, and the receiver is let in as soon as
      no send is waiting. */
  lemma WritersFirst(cfg: Config, s: State, ev: Event)
    requires WriterQueued(s) && !Aborted(s)
    ensures Enabled(cfg, s, ReceiverWrites) <==> !GuardHeld(s)
    ensures Enabled(cfg, s, ev) && GuardHeld(Step(cfg, s, ev)) ==> GuardHeld(s)
    ensures Enabled(cfg, s, ev) && s.sender.Choosing? ==> Step(cfg, s, ev).sender == s.sender
  {
  }

  /** Exactly which steps abort the download. */
  lemma AbortsIff(cfg: Config, s: State, ev: Event)
    requires Enabled(cfg, s, ev) && |s.part.status| == cfg.Count()
    ensures Aborted(Step(cfg, s, ev)) <==>
      match ev
      case SenderStarts => s.sender.next < cfg.Count() && (cfg.conns == 0 || s.sender.next % cfg.conns >= |s.slots|)
      case SenderPushes => s.conns[s.sender.to].phase.Closed? || cfg.conns == 0
      case SenderChooses => s.numConnections == 0
      case SenderLooksUp => !s.sender.req.Request? || s.sender.req.seeder >= |s.slots|
      case ReceiverTakes =>
        var m := s.replies[0];
        m.Request? || (m.Piece? &&
          (m.index >= cfg.Count() || (|m.piece| == cfg.PL() && |cfg.info.pieces[m.index]| != 20)))
      case ReceiverWrites =>
        || (s.receiver.AwaitRemove? && (!s.receiver.msg.Cancel? || s.receiver.msg.seeder >= |s.slots|))
        || (s.receiver.AwaitDecrement? && s.numConnections == 0)
      case ReceiverChecks => s.numConnections == 0
      case ReceiverBuilds => cfg.targetExists
      case _ => false
  {
    hide PartFile.Apply, PartFile.AllOnes, FirstRequest, RepeatRequest;
  }

  /** A message that is not a request closes a connection whose stream opened and is skipped by one whose stream failed;
      a message that is not a reply is not sent again. */
  lemma StrangeMessages(cfg: Config, s: State, ev: Event)
    requires Enabled(cfg, s, ev)
    ensures ev.ConnOpens? && !s.conns[ev.j].phase.req.Request? ==>
              Step(cfg, s, ev).conns[ev.j].phase == if ev.ok then Closed else Waiting
    ensures ev.SenderChooses? && s.sender.msg.Request? && s.numConnections > 0 ==>
              Step(cfg, s, ev).sender == Listening(s.sender.sent)
  {
  }
}
