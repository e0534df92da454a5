/** The download protocol as a transition system: the request loop and the reassembly loop of
    client/src/file_assembler.rs, one `recv_data` task per connection
    (client/src/quic_p2p_sender.rs), the three kinds of bounded channel between them and the
    read-write lock around the shared assembler. One event is what one task does between two
    suspension points. */
module Swarm {
  import opened Base
  import opened Wire
  import opened Pieces
  import PartFile

  const REPLY_CAP: nat := 150
  const RESEND_CAP: nat := 100
  const REQUEST_CAP: nat := 150

  /** What is fixed for a download: the file's info hash and its key, the piece hash function,
      the number of connections, and whether a file of that name is already in place. */
  datatype Config = Config(info: InfoHash, key: Digest, digest: seq<u8> -> Digest, conns: nat, targetExists: bool) {
    function Count(): nat { |info.pieces| }
    function PL(): u32 { info.pieceLength }
  }

  /** Where `send_requests` stands. In the `Sending...` phases it holds the read guard while it waits for room. */
  datatype Sender =
    | Starting(next: nat)
    | SendingFirst(next: nat, to: nat)
    | Listening(sent: nat)
    | Choosing(sent: nat, msg: Message)
    | Addressing(sent: nat, req: Message)
    | SendingAgain(sent: nat, req: Message, to: nat)
    | SenderDone
    | Crashed

  /** Where `reassemble_loop` stands. In the `Await...` phases it is queued for the write lock. */
  datatype Receiver =
    | Receiving
    | CancelSeen(msg: Message)
    | AwaitRemove(msg: Message)
    | SlotRemoved(msg: Message)
    | AwaitDecrement(msg: Message)
    | Decremented(msg: Message)
    | Requeueing(msg: Message)
    | AllWritten
    | AwaitDrain
    | Drained
    | Finished
    | Failed

  datatype ConnPhase = Waiting | Got(req: Message) | InFlight(req: Message) | Replying(msg: Message) | Closed

  datatype Connection = Connection(queue: seq<Message>, phase: ConnPhase)

  /** `slots` is `request_txs`: the connections that can still be sent to, by slot. */
  datatype State = State(
    sender: Sender, receiver: Receiver, conns: seq<Connection>, slots: seq<nat>, numConnections: nat,
    replies: seq<Message>, resends: seq<Message>, part: PartFile.Part, built: Option<seq<u8>>)

  datatype Event =
    | SenderStarts | SenderPushes | SenderTakes | SenderChooses | SenderLooksUp | SenderStops
    | ReceiverTakes | ReceiverQueues | ReceiverWrites | ReceiverChecks | ReceiverResends | ReceiverBuilds
    | ConnTakes(j: nat) | ConnOpens(j: nat, ok: bool) | PeerReplies(j: nat, reply: Message)
    | ConnPushes(j: nat) | ConnCloses(j: nat)

  function Initial(cfg: Config): State {
    State(Starting(0), Receiving, seq(cfg.conns, _ => Connection([], Waiting)), seq(cfg.conns, i => i), cfg.conns,
          [], [], PartFile.Empty(cfg.Count()), None)
  }

  predicate GuardHeld(s: State) {
    s.sender.SendingFirst? || s.sender.SendingAgain?
  }

  /** The lock is fair: a queued writer goes before every later reader. */
  predicate WriterQueued(s: State) {
    s.receiver.AwaitRemove? || s.receiver.AwaitDecrement? || s.receiver.AwaitDrain?
  }

  predicate Aborted(s: State) {
    s.sender.Crashed? || s.receiver.Failed?
  }

  predicate ResendClosed(s: State) {
    s.receiver.Drained? || s.receiver.Finished?
  }

  /** A stream that opens brings back one reply for the requested index, within the read limit of `length + 9` bytes:
      a piece with any payload, or the peer's own Cancel. */
  predicate AnswerTo(req: Message, reply: Message) {
    req.Request? &&
    ((reply.Piece? && reply.index == req.index && |reply.piece| <= req.length) || reply == CancelOf(req))
  }

  function CancelOf(req: Message): Message
    requires req.Request?
  {
    Cancel(req.seeder, req.index, req.begin, req.length)
  }

  predicate Enabled(cfg: Config, s: State, ev: Event) {
    !Aborted(s) &&
    match ev
    case SenderStarts => s.sender.Starting? && (s.sender.next < cfg.Count() ==> !WriterQueued(s))
    case SenderPushes =>
      GuardHeld(s) && s.sender.to < |s.conns| &&
      (s.conns[s.sender.to].phase.Closed? || |s.conns[s.sender.to].queue| < REQUEST_CAP)
    case SenderTakes => s.sender.Listening? && s.resends != []
    case SenderChooses => s.sender.Choosing? && !WriterQueued(s)
    case SenderLooksUp => s.sender.Addressing? && !WriterQueued(s)
    case SenderStops => s.sender.Listening? && s.resends == [] && ResendClosed(s)
    case ReceiverTakes => s.receiver.Receiving? && s.replies != []
    case ReceiverQueues => s.receiver.CancelSeen? || s.receiver.SlotRemoved? || s.receiver.AllWritten?
    case ReceiverWrites => WriterQueued(s) && !GuardHeld(s)
    case ReceiverChecks => s.receiver.Decremented?
    case ReceiverResends => s.receiver.Requeueing? && |s.resends| < RESEND_CAP
    case ReceiverBuilds => s.receiver.Drained?
    case ConnTakes(j) => j < |s.conns| && s.conns[j].phase.Waiting? && s.conns[j].queue != []
    case ConnOpens(j, _) => j < |s.conns| && s.conns[j].phase.Got?
    case PeerReplies(j, reply) => j < |s.conns| && s.conns[j].phase.InFlight? && AnswerTo(s.conns[j].phase.req, reply)
    case ConnPushes(j) => j < |s.conns| && s.conns[j].phase.Replying? && |s.replies| < REPLY_CAP
    case ConnCloses(j) => j < |s.conns| && s.conns[j].phase.Waiting? && s.conns[j].queue == [] && j !in s.slots
  }

  function FirstRequest(cfg: Config, i: nat): Message
    requires cfg.conns > 0
  {
    Request(Wrap32(i % cfg.conns), Wrap32(i), Wrap32(cfg.PL() * Wrap32(i)), cfg.PL(), cfg.key)
  }

  function RepeatRequest(cfg: Config, slot: u32, msg: Message): Message {
    match msg
    case Cancel(_, index, begin, length) => Request(slot, index, begin, length, cfg.key)
    case Piece(index, _) => Request(slot, index, Wrap32(cfg.PL() * index), cfg.PL(), cfg.key)
    case Request(_, _, _, _, _) => msg
  }

  function Step(cfg: Config, s: State, ev: Event): State
    requires Enabled(cfg, s, ev)
  {
    match ev
    case SenderStarts =>
      if s.sender.next >= cfg.Count() then s.(sender := Listening(0))
      else if cfg.conns == 0 || s.sender.next % cfg.conns >= |s.slots| then s.(sender := Crashed)
      else s.(sender := SendingFirst(s.sender.next, s.slots[s.sender.next % cfg.conns]))
    case SenderPushes =>
      if s.conns[s.sender.to].phase.Closed? || cfg.conns == 0 then s.(sender := Crashed)
      else if s.sender.SendingFirst? then
        s.(conns := Enqueue(s.conns, s.sender.to, FirstRequest(cfg, s.sender.next)),
           sender := Starting(s.sender.next + 1))
      else
        s.(conns := Enqueue(s.conns, s.sender.to, s.sender.req), sender := Listening(s.sender.sent + 1))
    case SenderTakes => s.(sender := Choosing(s.sender.sent, s.resends[0]), resends := s.resends[1..])
    case SenderChooses =>
      if s.numConnections == 0 then s.(sender := Crashed)
      else if s.sender.msg.Request? then s.(sender := Listening(s.sender.sent))
      else
        var slot := Wrap32(s.sender.sent % s.numConnections);
        s.(sender := Addressing(s.sender.sent, RepeatRequest(cfg, slot, s.sender.msg)))
    case SenderLooksUp =>
      if !s.sender.req.Request? || s.sender.req.seeder >= |s.slots| then s.(sender := Crashed)
      else s.(sender := SendingAgain(s.sender.sent, s.sender.req, s.slots[s.sender.req.seeder]))
    case SenderStops => s.(sender := SenderDone)
    case ReceiverTakes => Receive(cfg, s.(replies := s.replies[1..]), s.replies[0])
    case ReceiverQueues =>
      s.(receiver := match s.receiver
                     case CancelSeen(m) => AwaitRemove(m)
                     case SlotRemoved(m) => AwaitDecrement(m)
                     case _ => AwaitDrain)
    case ReceiverWrites => WriteLocked(s)
    case ReceiverChecks =>
      s.(receiver := if s.numConnections == 0 then Failed else Requeueing(s.receiver.msg))
    case ReceiverResends => s.(resends := s.resends + [s.receiver.msg], receiver := Receiving)
    case ReceiverBuilds =>
      if cfg.targetExists then s.(receiver := Failed)
      else s.(receiver := Finished, built := Some(s.part.data))
    case ConnTakes(j) => SetConn(s, j, Connection(s.conns[j].queue[1..], Got(s.conns[j].queue[0])))
    case ConnOpens(j, ok) =>
      var req := s.conns[j].phase.req;
      if !req.Request? then SetPhase(s, j, if ok then Closed else Waiting)
      else SetPhase(s, j, if ok then InFlight(req) else Replying(CancelOf(req)))
    case PeerReplies(j, reply) => SetPhase(s, j, Replying(reply))
    case ConnPushes(j) => SetPhase(s, j, Waiting).(replies := s.replies + [s.conns[j].phase.msg])
    case ConnCloses(j) => SetPhase(s, j, Closed)
  }

  function SetConn(s: State, j: nat, c: Connection): State
    requires j < |s.conns|
  {
    s.(conns := s.conns[j := c])
  }

  function SetPhase(s: State, j: nat, p: ConnPhase): State
    requires j < |s.conns|
  {
    SetConn(s, j, s.conns[j].(phase := p))
  }

  function Enqueue(conns: seq<Connection>, to: nat, req: Message): seq<Connection>
    requires to < |conns|
  {
    conns[to := conns[to].(queue := conns[to].queue + [req])]
  }

  /** One iteration of the reassembly loop up to its next suspension point. Only full-length payloads are hashed. */
  function Receive(cfg: Config, s: State, m: Message): State {
    match m
    case Piece(k, p) =>
      if |p| == cfg.PL() && (k >= cfg.Count() || |cfg.info.pieces[k]| != 20) then s.(receiver := Failed)
      else if |p| == cfg.PL() && cfg.digest(p) != cfg.info.pieces[k] then s.(receiver := Requeueing(m))
      else
        var written := PartFile.Apply(cfg.PL(), s.part, PartFile.Data(k, p));
        if k >= |s.part.status| then s.(part := written, receiver := Failed)
        else
          var marked := PartFile.Apply(cfg.PL(), written, PartFile.Mark(k));
          s.(part := marked, receiver := if PartFile.AllOnes(marked.status) then AllWritten else Receiving)
    case Cancel(_, _, _, _) => s.(receiver := CancelSeen(m))
    case Request(_, _, _, _, _) => s.(receiver := Failed)
  }

  /** The receiver has the write lock: it removes the slot the Cancel names, decrements the counter,
      or drops every slot. Removing a slot that is not there panics. */
  function WriteLocked(s: State): State
    requires WriterQueued(s)
  {
    match s.receiver
    case AwaitRemove(m) =>
      if !m.Cancel? || m.seeder >= |s.slots| then s.(receiver := Failed)
      else s.(slots := s.slots[..m.seeder] + s.slots[m.seeder + 1..], receiver := SlotRemoved(m))
    case AwaitDecrement(m) =>
      if s.numConnections == 0 then s.(receiver := Failed)
      else s.(numConnections := s.numConnections - 1, receiver := Decremented(m))
    case AwaitDrain => s.(slots := [], receiver := Drained)
  }

  /** `evs` can happen one after the other from `s`. */
  predicate IsRun(cfg: Config, s: State, evs: seq<Event>)
    decreases |evs|
  {
    evs == [] || (Enabled(cfg, s, evs[0]) && IsRun(cfg, Step(cfg, s, evs[0]), evs[1..]))
  }

  function After(cfg: Config, s: State, evs: seq<Event>): State
    requires IsRun(cfg, s, evs)
    decreases |evs|
  {
    if evs == [] then s else After(cfg, Step(cfg, s, evs[0]), evs[1..])
  }

  /** No task and no peer can take another step. */
  ghost predicate Stuck(cfg: Config, s: State) {
    forall ev :: !Enabled(cfg, s, ev)
  }

  lemma {:induction false} RunsConcat(cfg: Config, s: State, a: seq<Event>, b: seq<Event>)
    requires IsRun(cfg, s, a) && IsRun(cfg, After(cfg, s, a), b)
    ensures IsRun(cfg, s, a + b) && After(cfg, s, a + b) == After(cfg, After(cfg, s, a), b)
    decreases |a|
  {
    hide Step, Enabled;
    if a == [] {
      assert a + b == b;
    } else {
      RunsConcat(cfg, Step(cfg, s, a[0]), a[1..], b);
      assert (a + b)[1..] == a[1..] + b;
    }
  }
}
