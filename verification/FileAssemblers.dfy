/** The shared assembler object and its tasks as code that updates fields, one method per stretch between
    two suspension points, each proved against the transition system of module Swarm. */
module FileAssemblers {
  import opened Base
  import opened Wire
  import PartFile
  import opened Swarm

  class FileAssembler {
    const cfg: Config
    var numConnections: nat
    var requestTxs: seq<nat>
    var conns: seq<Connection>
    var replies: seq<Message>
    var resends: seq<Message>
    var sender: Sender
    var receiver: Receiver
    var part: PartFile.Part
    var built: Option<seq<u8>>

    ghost function Snapshot(): State
      reads this
    {
      State(sender, receiver, conns, requestTxs, numConnections, replies, resends, part, built)
    }

    /** `new` followed by one subscription per connection, before requesting starts. */
    constructor (cfg: Config)
      ensures this.cfg == cfg && Snapshot() == Initial(cfg)
    {
      this.cfg := cfg;
      numConnections, requestTxs, conns := cfg.conns, [], [];
      replies, resends := [], [];
      sender, receiver := Starting(0), Receiving;
      part, built := PartFile.Empty(cfg.Count()), None;
      new;
      var i := 0;
      while i < cfg.conns
        invariant i <= cfg.conns && numConnections == cfg.conns
        invariant requestTxs == seq(i, k => k) && conns == seq(i, _ => Connection([], Waiting))
        invariant replies == resends == [] && sender == Starting(0) && receiver == Receiving
        invariant part == PartFile.Empty(cfg.Count()) && built == None
      {
        SubscribeNewConnection();
        i := i + 1;
      }
    }

    method SubscribeNewConnection()
      modifies this`requestTxs, this`conns
      ensures requestTxs == old(requestTxs) + [old(|conns|)]
      ensures conns == old(conns) + [Connection([], Waiting)]
    {
      requestTxs := requestTxs + [|conns|];
      conns := conns + [Connection([], Waiting)];
    }

    /** Top of the initial loop: take the read guard and look up the slot. */
    method StartNextRequest()
      requires Enabled(cfg, Snapshot(), SenderStarts)
      modifies this`sender
      ensures Snapshot() == Step(cfg, old(Snapshot()), SenderStarts)
    {
      var i := sender.next;
      if i >= cfg.Count() {
        sender := Listening(0);
        return;
      }
      if cfg.conns == 0 {
        sender := Crashed;
        return;
      }
      var slot := i % cfg.conns;
      if slot < |requestTxs| {
        sender := SendingFirst(i, requestTxs[slot]);
      } else {
        sender := Crashed;
      }
    }

    /** The awaited send goes through and the guard is released. */
    method FinishSend()
      requires Enabled(cfg, Snapshot(), SenderPushes)
      modifies this`sender, this`conns
      ensures Snapshot() == Step(cfg, old(Snapshot()), SenderPushes)
    {
      var to := sender.to;
      if conns[to].phase.Closed? || cfg.conns == 0 {
        sender := Crashed;
        return;
      }
      if sender.SendingFirst? {
        var i := sender.next;
        var request := Request(Wrap32(i % cfg.conns), Wrap32(i), Wrap32(cfg.PL() * Wrap32(i)), cfg.PL(), cfg.key);
        conns := conns[to := conns[to].(queue := conns[to].queue + [request])];
        sender := Starting(i + 1);
      } else {
        conns := conns[to := conns[to].(queue := conns[to].queue + [sender.req])];
        sender := Listening(sender.sent + 1);
      }
    }

    method TakeResend()
      requires Enabled(cfg, Snapshot(), SenderTakes)
      modifies this`sender, this`resends
      ensures Snapshot() == Step(cfg, old(Snapshot()), SenderTakes)
    {
      var msg := resends[0];
      resends := resends[1..];
      sender := Choosing(sender.sent, msg);
    }

    /** Choose the next seeder round robin and rebuild the request. */
    method ChooseSeeder()
      requires Enabled(cfg, Snapshot(), SenderChooses)
      modifies this`sender
      ensures Snapshot() == Step(cfg, old(Snapshot()), SenderChooses)
    {
      var i, msg := sender.sent, sender.msg;
      if numConnections == 0 {
        sender := Crashed;
        return;
      }
      var newSeeder := Wrap32(i % numConnections);
      match msg {
        case Cancel(_, index, begin, length) =>
          sender := Addressing(i, Request(newSeeder, index, begin, length, cfg.key));
        case Piece(index, _) =>
          sender := Addressing(i, Request(newSeeder, index, Wrap32(cfg.PL() * index), cfg.PL(), cfg.key));
        case Request(_, _, _, _, _) =>
          sender := Listening(i);
      }
    }

    method LookUpSlot()
      requires Enabled(cfg, Snapshot(), SenderLooksUp)
      modifies this`sender
      ensures Snapshot() == Step(cfg, old(Snapshot()), SenderLooksUp)
    {
      var req := sender.req;
      if req.Request? && req.seeder < |requestTxs| {
        sender := SendingAgain(sender.sent, req, requestTxs[req.seeder]);
      } else {
        sender := Crashed;
      }
    }

    /** One reply: check a full piece against its hash, write it, or begin to handle a Cancel. */
    method ReceiveReply()
      requires Enabled(cfg, Snapshot(), ReceiverTakes)
      modifies this`receiver, this`replies, this`part
      ensures Snapshot() == Step(cfg, old(Snapshot()), ReceiverTakes)
    {
      hide PartFile.AllOnes, PartFile.WriteAt;
      var msg := replies[0];
      replies := replies[1..];
      match msg {
        case Piece(index, piece) =>
          if |piece| == cfg.PL() {
            if index >= cfg.Count() || |cfg.info.pieces[index]| != 20 {
              receiver := Failed;
              return;
            }
            var receivedHash := cfg.digest(piece);
            if receivedHash != cfg.info.pieces[index] {
              receiver := Requeueing(msg);
              return;
            }
          }
          part := part.(data := PartFile.WriteAt(part.data, Wrap32(index * cfg.PL()), piece));
          if index >= |part.status| {
            receiver := Failed;
            return;
          }
          part := part.(status := PartFile.WriteAt(part.status, index, [1]));
          var complete := HasAllPieces();
          if complete {
            receiver := AllWritten;
          }
        case Cancel(_, _, _, _) =>
          receiver := CancelSeen(msg);
        case Request(_, _, _, _, _) =>
          receiver := Failed;
      }
    }

    /** `has_all_pieces`: true at once for an empty status vector. */
    method HasAllPieces() returns (complete: bool)
      ensures complete <==> PartFile.AllOnes(part.status)
    {
      if part.status == [] {
        return true;
      }
      var i := 0;
      while i < |part.status|
        invariant i <= |part.status| && forall k :: 0 <= k < i ==> part.status[k] == 1
      {
        if part.status[i] != 1 {
          return false;
        }
        i := i + 1;
      }
      return true;
    }

    method QueueForLock()
      requires Enabled(cfg, Snapshot(), ReceiverQueues)
      modifies this`receiver
      ensures Snapshot() == Step(cfg, old(Snapshot()), ReceiverQueues)
    {
      match receiver {
        case CancelSeen(m) => receiver := AwaitRemove(m);
        case SlotRemoved(m) => receiver := AwaitDecrement(m);
        case AllWritten => receiver := AwaitDrain;
      }
    }

    /** Under the write lock: remove a slot, decrement the counter, or drop all slots. */
    method WriteUnderLock()
      requires Enabled(cfg, Snapshot(), ReceiverWrites)
      modifies this`receiver, this`requestTxs, this`numConnections
      ensures Snapshot() == Step(cfg, old(Snapshot()), ReceiverWrites)
    {
      match receiver {
        case AwaitRemove(m) =>
          if m.Cancel? && m.seeder < |requestTxs| {
            requestTxs := requestTxs[..m.seeder] + requestTxs[m.seeder + 1..];
            receiver := SlotRemoved(m);
          } else {
            receiver := Failed;
          }
        case AwaitDecrement(m) =>
          if numConnections > 0 {
            numConnections := numConnections - 1;
            receiver := Decremented(m);
          } else {
            receiver := Failed;
          }
        case AwaitDrain =>
          var rest := |requestTxs|;
          while rest > 0
            invariant rest == |requestTxs| && numConnections == old(numConnections)
          {
            requestTxs := requestTxs[1..];
            rest := rest - 1;
          }
          receiver := Drained;
      }
    }

    /** Check the counter after a removal; later, hand the message back for resending. */
    method CheckConnections()
      requires Enabled(cfg, Snapshot(), ReceiverChecks)
      modifies this`receiver
      ensures Snapshot() == Step(cfg, old(Snapshot()), ReceiverChecks)
    {
      if numConnections == 0 {
        receiver := Failed;
      } else {
        receiver := Requeueing(receiver.msg);
      }
    }

    method Resend()
      requires Enabled(cfg, Snapshot(), ReceiverResends)
      modifies this`receiver, this`resends
      ensures Snapshot() == Step(cfg, old(Snapshot()), ReceiverResends)
    {
      resends := resends + [receiver.msg];
      receiver := Receiving;
    }

    method Build()
      requires Enabled(cfg, Snapshot(), ReceiverBuilds)
      modifies this`receiver, this`built
      ensures Snapshot() == Step(cfg, old(Snapshot()), ReceiverBuilds)
    {
      if cfg.targetExists {
        receiver := Failed;
        return;
      }
      built := Some(part.data);
      receiver := Finished;
    }

    /** `recv_data` of connection `j`: one message from its queue, its stream, and the answer passed on. */
    method ConnectionMoves(ev: Event)
      requires Enabled(cfg, Snapshot(), ev)
      requires ev.ConnTakes? || ev.ConnOpens? || ev.PeerReplies? || ev.ConnPushes? || ev.ConnCloses?
      modifies this`conns, this`replies
      ensures Snapshot() == Step(cfg, old(Snapshot()), ev)
    {
      var c := conns[ev.j];
      match ev {
        case ConnTakes(j) =>
          conns := conns[j := Connection(c.queue[1..], Got(c.queue[0]))];
        case ConnOpens(j, ok) =>
          var req := c.phase.req;
          if ok {
            conns := conns[j := c.(phase := if req.Request? then InFlight(req) else Closed)];
          } else {
            conns := conns[j := c.(phase := if req.Request? then Replying(CancelOf(req)) else Waiting)];
          }
        case PeerReplies(j, reply) =>
          conns := conns[j := c.(phase := Replying(reply))];
        case ConnPushes(j) =>
          replies := replies + [c.phase.msg];
          conns := conns[j := c.(phase := Waiting)];
        case ConnCloses(j) =>
          conns := conns[j := c.(phase := Closed)];
      }
    }

    method Perform(ev: Event)
      requires Enabled(cfg, Snapshot(), ev)
      modifies this
      ensures Snapshot() == Step(cfg, old(Snapshot()), ev)
    {
      hide Step, Enabled;
      match ev {
        case SenderStarts => StartNextRequest();
        case SenderPushes => FinishSend();
        case SenderTakes => TakeResend();
        case SenderChooses => ChooseSeeder();
        case SenderLooksUp => LookUpSlot();
        case SenderStops => StopSending();
        case ReceiverTakes => ReceiveReply();
        case ReceiverQueues => QueueForLock();
        case ReceiverWrites => WriteUnderLock();
        case ReceiverChecks => CheckConnections();
        case ReceiverResends => Resend();
        case ReceiverBuilds => Build();
        case _ => ConnectionMoves(ev);
      }
    }

    method StopSending()
      requires Enabled(cfg, Snapshot(), SenderStops)
      modifies this`sender
      ensures Snapshot() == Step(cfg, old(Snapshot()), SenderStops)
    {
      sender := SenderDone;
    }

    /** Any schedule of enabled events, carried out on the object, ends in the state the transition system says. */
    method RunSchedule(evs: seq<Event>)
      requires IsRun(cfg, Snapshot(), evs)
      modifies this
      ensures Snapshot() == After(cfg, old(Snapshot()), evs)
    {
      hide Step, Enabled;
      var i := 0;
      while i < |evs|
        invariant i <= |evs| && IsRun(cfg, Snapshot(), evs[i..])
        invariant After(cfg, Snapshot(), evs[i..]) == After(cfg, old(Snapshot()), evs)
      {
        assert evs[i..][1..] == evs[i + 1..];
        Perform(evs[i]);
        i := i + 1;
      }
    }
  }
}
