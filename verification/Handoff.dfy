/** Rendezvous through a shared map of one-shot channels (server/src/main.rs): `seed` waits for the
    `send_file_request` that takes its sender out of the map, `get_cert` likewise for `send_cert`.
    One event is one atomic map operation, one send or one receive; all interleavings are runs. */
module Handoff {
  import opened Base
  import opened SessionId

  /** A channel made by one waiting call, with room for one value. */
  datatype Phase<V> = Registered | Held | Full(value: V) | Delivered(value: V) | Abandoned

  datatype Channel<V> = Channel(key: PeerId, phase: Phase<V>, listening: bool)

  /** A call that wants to hand a value over: up to five attempts to take the sender, then one send. */
  datatype Attempt =
    | Trying(tries: nat) | Holding(chan: nat) | Sent(chan: nat) | SendFailed(chan: nat) | Panicked(chan: nat) | NotFound

  datatype Request<V> = Request(target: PeerId, value: Option<V>, attempt: Attempt)

  datatype State<V> = State(senders: map<PeerId, nat>, channels: seq<Channel<V>>, requests: seq<Request<V>>)

  datatype Event<V> =
    | Register(key: PeerId)
    | Ask(target: PeerId, value: Option<V>)
    | Take(r: nat)
    | Send(r: nat)
    | Receive(c: nat)
    | GiveUp(c: nat)
    | Remove(key: PeerId)

  const ATTEMPTS: nat := 5

  predicate Enabled<V>(s: State<V>, ev: Event<V>) {
    match ev
    case Take(r) => r < |s.requests| && s.requests[r].attempt.Trying?
    case Send(r) =>
      && r < |s.requests| && s.requests[r].attempt.Holding? && s.requests[r].attempt.chan < |s.channels|
      && !Blocks(s, r)
    case Receive(c) => c < |s.channels| && s.channels[c].phase.Full? && s.channels[c].listening
    case GiveUp(c) => c < |s.channels| && s.channels[c].listening
    case _ => true
  }

  /** The send would have to wait for room. */
  predicate Blocks<V>(s: State<V>, r: nat)
    requires r < |s.requests| && s.requests[r].attempt.Holding? && s.requests[r].attempt.chan < |s.channels|
  {
    var ch := s.channels[s.requests[r].attempt.chan];
    s.requests[r].value.Some? && ch.listening && ch.phase.Full?
  }

  function SetPhase<V>(channels: seq<Channel<V>>, c: nat, p: Phase<V>): seq<Channel<V>> {
    if c < |channels| then channels[c := channels[c].(phase := p)] else channels
  }

  function SetAttempt<V>(requests: seq<Request<V>>, r: nat, a: Attempt): seq<Request<V>>
    requires r < |requests|
  {
    requests[r := requests[r].(attempt := a)]
  }

  /** Dropping the sender under `key`, if there is one, ends its channel. */
  function Abandon<V>(s: State<V>, key: PeerId): seq<Channel<V>> {
    if key in s.senders then SetPhase(s.channels, s.senders[key], Abandoned) else s.channels
  }

  function Step<V>(s: State<V>, ev: Event<V>): State<V>
    requires Enabled(s, ev)
  {
    match ev
    case Register(key) =>
      s.(senders := s.senders[key := |s.channels|], channels := Abandon(s, key) + [Channel(key, Registered, true)])
    case Ask(target, value) => s.(requests := s.requests + [Request(target, value, Trying(0))])
    case Take(r) =>
      var key, tries := s.requests[r].target, s.requests[r].attempt.tries;
      if key in s.senders then
        State(s.senders - {key}, SetPhase(s.channels, s.senders[key], Held),
              SetAttempt(s.requests, r, Holding(s.senders[key])))
      else
        s.(requests := SetAttempt(s.requests, r, if tries + 1 >= ATTEMPTS then NotFound else Trying(tries + 1)))
    case Send(r) =>
      var c, value := s.requests[r].attempt.chan, s.requests[r].value;
      if value.None? then
        s.(channels := SetPhase(s.channels, c, Abandoned), requests := SetAttempt(s.requests, r, Panicked(c)))
      else if !s.channels[c].listening then
        s.(channels := SetPhase(s.channels, c, Abandoned), requests := SetAttempt(s.requests, r, SendFailed(c)))
      else
        s.(channels := SetPhase(s.channels, c, Full(value.value)), requests := SetAttempt(s.requests, r, Sent(c)))
    case Receive(c) => s.(channels := SetPhase(s.channels, c, Delivered(s.channels[c].phase.value)))
    case GiveUp(c) => s.(channels := s.channels[c := s.channels[c].(listening := false)])
    case Remove(key) => s.(senders := s.senders - {key}, channels := Abandon(s, key))
  }

  predicate IsRun<V>(s: State<V>, evs: seq<Event<V>>)
    decreases |evs|
  {
    evs == [] || (Enabled(s, evs[0]) && IsRun(Step(s, evs[0]), evs[1..]))
  }

  function After<V>(s: State<V>, evs: seq<Event<V>>): State<V>
    requires IsRun(s, evs)
    decreases |evs|
  {
    if evs == [] then s else After(Step(s, evs[0]), evs[1..])
  }

  function Start<V>(): State<V> {
    State(map[], [], [])
  }

  /** Request `r` has taken the sender of channel `c`. */
  predicate Took<V>(s: State<V>, r: nat, c: nat) {
    && r < |s.requests| && !s.requests[r].attempt.Trying? && !s.requests[r].attempt.NotFound?
    && s.requests[r].attempt.chan == c
  }

  /** A sender is in the map, under its own key, exactly as long as its channel is registered. */
  ghost predicate MapMatches<V>(s: State<V>) {
    && (forall key :: key in s.senders ==>
          s.senders[key] < |s.channels| && s.channels[s.senders[key]].key == key
          && s.channels[s.senders[key]].phase.Registered?)
    && (forall c :: 0 <= c < |s.channels| && s.channels[c].phase.Registered? ==>
          s.channels[c].key in s.senders && s.senders[s.channels[c].key] == c)
  }

  /** What a request that took a sender knows about its channel. */
  predicate Matches<V(==)>(s: State<V>, r: nat, c: nat)
    requires Took(s, r, c)
  {
    && c < |s.channels|
    && s.channels[c].key == s.requests[r].target
    && match s.requests[r].attempt
       case Holding(_) => s.channels[c].phase.Held?
       case Sent(_) =>
         (s.channels[c].phase.Full? || s.channels[c].phase.Delivered?)
         && s.requests[r].value == Some(s.channels[c].phase.value)
       case _ => s.channels[c].phase.Abandoned?
  }

  ghost predicate TookMatches<V>(s: State<V>) {
    forall r: nat, c: nat :: Took(s, r, c) ==> Matches(s, r, c)
  }

  /** No channel is taken twice. */
  ghost predicate TookOnce<V>(s: State<V>) {
    forall r1: nat, r2: nat, c: nat :: Took(s, r1, c) && Took(s, r2, c) ==> r1 == r2
  }

  /** A value in a channel was put there by a request. */
  ghost predicate ValuesSent<V>(s: State<V>) {
    forall c: nat :: c < |s.channels| && (s.channels[c].phase.Full? || s.channels[c].phase.Delivered?) ==>
      exists r: nat :: Took(s, r, c) && s.requests[r].attempt.Sent?
  }

  ghost predicate Inv<V>(s: State<V>) {
    MapMatches(s) && TookMatches(s) && TookOnce(s) && ValuesSent(s)
  }

  lemma StepInv<V>(s: State<V>, ev: Event<V>)
    requires Inv(s) && Enabled(s, ev)
    ensures Inv(Step(s, ev))
  {
    hide Step, Enabled, MapMatches, TookMatches, TookOnce, ValuesSent;
    StepMapMatches(s, ev);
    StepTookOnce(s, ev);
    StepTookMatches(s, ev);
    StepValuesSent(s, ev);
  }

  lemma StepMapMatches<V>(s: State<V>, ev: Event<V>)
    requires MapMatches(s) && TookMatches(s) && Enabled(s, ev)
    ensures MapMatches(Step(s, ev))
  {
    hide MapMatches, TookMatches, Step, Enabled;
    match ev
    case Register(key) => RegisterMatches(s, key);
    case Take(r) => TakeMapMatches(s, r);
    case Send(r) => SendMatches(s, r);
    case Remove(key) => RemoveMatches(s, key);
    case _ => OtherMatches(s, ev);
  }

  lemma RegisterMatches<V>(s: State<V>, key: PeerId)
    requires MapMatches(s) && Enabled(s, Register(key))
    ensures MapMatches(Step(s, Register(key)))
  {
  }

  lemma TakeMapMatches<V>(s: State<V>, r: nat)
    requires MapMatches(s) && Enabled(s, Take(r))
    ensures MapMatches(Step(s, Take(r)))
  {
  }

  lemma SendMatches<V>(s: State<V>, r: nat)
    requires MapMatches(s) && TookMatches(s) && Enabled(s, Send(r))
    ensures MapMatches(Step(s, Send(r)))
  {
    assert Took(s, r, s.requests[r].attempt.chan);
    hide TookMatches;
  }

  lemma RemoveMatches<V>(s: State<V>, key: PeerId)
    requires MapMatches(s) && Enabled(s, Remove(key))
    ensures MapMatches(Step(s, Remove(key)))
  {
  }

  lemma OtherMatches<V>(s: State<V>, ev: Event<V>)
    requires MapMatches(s) && Enabled(s, ev) && (ev.Ask? || ev.Receive? || ev.GiveUp?)
    ensures MapMatches(Step(s, ev))
  {
  }

  /** This step takes channel `c` out of the map for request `r`. */
  predicate Takes<V>(s: State<V>, ev: Event<V>, r: nat, c: nat) {
    ev == Take(r) && r < |s.requests| && s.requests[r].target in s.senders && c == s.senders[s.requests[r].target]
  }

  /** What is taken stays taken, and only the event `Take` takes. */
  lemma TookAfter<V>(s: State<V>, ev: Event<V>, r: nat, c: nat)
    requires Enabled(s, ev)
    ensures Took(Step(s, ev), r, c) <==> Took(s, r, c) || Takes(s, ev, r, c)
  {
  }

  lemma StepTookOnce<V>(s: State<V>, ev: Event<V>)
    requires MapMatches(s) && TookMatches(s) && TookOnce(s) && Enabled(s, ev)
    ensures TookOnce(Step(s, ev))
  {
    hide Step, Enabled, Took;
    var t := Step(s, ev);
    forall r1: nat, r2: nat, c: nat | Took(t, r1, c) && Took(t, r2, c) ensures r1 == r2 {
      TookAfter(s, ev, r1, c);
      TookAfter(s, ev, r2, c);
      NotYetTaken(s, ev, r1, r2, c);
      NotYetTaken(s, ev, r2, r1, c);
    }
  }

  /** A channel whose sender is still in the map has not been taken. */
  lemma NotYetTaken<V>(s: State<V>, ev: Event<V>, r: nat, other: nat, c: nat)
    requires MapMatches(s) && TookMatches(s)
    ensures !(Takes(s, ev, r, c) && Took(s, other, c))
  {
    hide Took;
  }

  lemma StepTookMatches<V>(s: State<V>, ev: Event<V>)
    requires MapMatches(s) && TookMatches(s) && TookOnce(s) && Enabled(s, ev)
    ensures TookMatches(Step(s, ev))
  {
    hide Step, Enabled, Took, MapMatches, TookMatches, TookOnce;
    var t := Step(s, ev);
    forall r: nat, c: nat | Took(t, r, c) ensures Matches(t, r, c) {
      TookAfter(s, ev, r, c);
      if Takes(s, ev, r, c) {
        TakeMatches(s, ev, r, c);
      } else {
        OthersMatch(s, ev, r, c);
      }
    }
    MatchesAll(t);
  }

  lemma MatchesAll<V>(t: State<V>)
    requires forall r: nat, c: nat :: Took(t, r, c) ==> Matches(t, r, c)
    ensures TookMatches(t)
  {
  }

  lemma TakeMatches<V>(s: State<V>, ev: Event<V>, r: nat, c: nat)
    requires MapMatches(s) && Enabled(s, ev) && Takes(s, ev, r, c)
    ensures Matches(Step(s, ev), r, c)
  {
  }

  lemma OthersMatch<V>(s: State<V>, ev: Event<V>, r: nat, c: nat)
    requires MapMatches(s) && TookMatches(s) && TookOnce(s) && Enabled(s, ev) && Took(s, r, c) && !Takes(s, ev, r, c)
    ensures Matches(Step(s, ev), r, c)
  {
    assert Matches(s, r, c);
    if ev.Send? {
      assert Took(s, ev.r, s.requests[ev.r].attempt.chan);
      hide TookMatches, MapMatches;
    } else {
      hide TookMatches, TookOnce;
    }
  }

  lemma StepValuesSent<V>(s: State<V>, ev: Event<V>)
    requires MapMatches(s) && TookMatches(s) && ValuesSent(s) && Enabled(s, ev)
    ensures ValuesSent(Step(s, ev))
  {
    var t := Step(s, ev);
    forall c: nat | c < |t.channels| && (t.channels[c].phase.Full? || t.channels[c].phase.Delivered?)
      ensures exists r: nat :: Took(t, r, c) && t.requests[r].attempt.Sent?
    {
      if ev.Send? && c == s.requests[ev.r].attempt.chan {
        assert Took(t, ev.r, c);
      } else {
        FilledBefore(s, ev, c);
        var r: nat :| Took(s, r, c) && s.requests[r].attempt.Sent?;
        TookAfter(s, ev, r, c);
        assert t.requests[r].attempt.Sent?;
      }
    }
  }

  lemma FilledBefore<V>(s: State<V>, ev: Event<V>, c: nat)
    requires MapMatches(s) && Enabled(s, ev) && !(ev.Send? && c == s.requests[ev.r].attempt.chan)
    requires c < |Step(s, ev).channels|
    requires (Step(s, ev).channels[c].phase.Full? || Step(s, ev).channels[c].phase.Delivered?)
    ensures c < |s.channels| && (s.channels[c].phase.Full? || s.channels[c].phase.Delivered?)
  {
  }

  lemma {:induction false} RunInv<V>(s: State<V>, evs: seq<Event<V>>)
    requires Inv(s) && IsRun(s, evs)
    ensures Inv(After(s, evs))
    decreases |evs|
  {
    hide Inv, Step, Enabled;
    if evs != [] {
      StepInv(s, evs[0]);
      RunInv(Step(s, evs[0]), evs[1..]);
    }
  }

  lemma SentStands<V>(s: State<V>, r: nat)
    requires TookMatches(s) && r < |s.requests| && s.requests[r].attempt.Sent?
    ensures s.requests[r].attempt.chan < |s.channels|
    ensures
      var ch := s.channels[s.requests[r].attempt.chan];
      (ch.phase.Full? || ch.phase.Delivered?) && s.requests[r].value == Some(ch.phase.value)
  {
    assert Took(s, r, s.requests[r].attempt.chan);
    assert Matches(s, r, s.requests[r].attempt.chan);
  }

  /** Linear handoff, in every interleaving: a registration is taken by at most one request, whose target is the
      registered key; a value a waiting call has received is the one that single request sent, and what was sent
      is there to be received; and a request that holds a sender never has to wait for room. */
  lemma LinearHandoff<V>(evs: seq<Event<V>>)
    requires IsRun(Start(), evs)
    ensures
      var s := After(Start(), evs);
      && (forall r1: nat, r2: nat, c: nat :: Took(s, r1, c) && Took(s, r2, c) ==> r1 == r2)
      && (forall r: nat, c: nat :: Took(s, r, c) ==> c < |s.channels| && s.channels[c].key == s.requests[r].target)
      && (forall c: nat :: c < |s.channels| && s.channels[c].phase.Delivered? ==>
            exists r: nat :: Took(s, r, c) && s.requests[r].attempt.Sent?
                             && s.requests[r].value == Some(s.channels[c].phase.value))
      && (forall r: nat :: r < |s.requests| && s.requests[r].attempt.Sent? ==>
            s.requests[r].attempt.chan < |s.channels| &&
            var ch := s.channels[s.requests[r].attempt.chan];
            (ch.phase.Full? || ch.phase.Delivered?) && s.requests[r].value == Some(ch.phase.value))
      && (forall r: nat :: r < |s.requests| && s.requests[r].attempt.Holding? ==> Enabled(s, Send(r)))
  {
    hide Step;
    assert Inv(Start<V>());
    RunInv(Start(), evs);
    var s := After(Start(), evs);
    forall c: nat | c < |s.channels| && s.channels[c].phase.Delivered?
      ensures exists r: nat :: Took(s, r, c) && s.requests[r].attempt.Sent?
                               && s.requests[r].value == Some(s.channels[c].phase.value)
    {
      var r: nat :| Took(s, r, c) && s.requests[r].attempt.Sent?;
    }
    forall r: nat | r < |s.requests| && s.requests[r].attempt.Sent?
      ensures s.requests[r].attempt.chan < |s.channels|
      ensures (s.channels[s.requests[r].attempt.chan].phase.Full?
               || s.channels[s.requests[r].attempt.chan].phase.Delivered?)
              && s.requests[r].value == Some(s.channels[s.requests[r].attempt.chan].phase.value)
    {
      SentStands(s, r);
    }
    forall r: nat | r < |s.requests| && s.requests[r].attempt.Holding? ensures Enabled(s, Send(r)) {
      assert Took(s, r, s.requests[r].attempt.chan);
    }
  }

  /** What becomes of the channels, told by their keys alone: a registration or a removal ends the call that waits under
      its key, a taken one is held, a send fills it if there is a value and somebody listens, a receive delivers. */
  ghost predicate ChannelsAffected<V>(s: State<V>, t: State<V>, ev: Event<V>)
    requires Enabled(s, ev)
  {
    |t.channels| == |s.channels| + (if ev.Register? then 1 else 0) &&
    (ev.Register? ==> t.channels[|s.channels|] == Channel(ev.key, Registered, true)) &&
    forall c: nat :: c < |s.channels| ==>
      && t.channels[c].key == s.channels[c].key
      && (t.channels[c].listening <==> s.channels[c].listening && ev != GiveUp(c))
      && t.channels[c].phase == PhaseAfter(s, ev, c)
  }

  function PhaseAfter<V>(s: State<V>, ev: Event<V>, c: nat): Phase<V>
    requires Enabled(s, ev) && c < |s.channels|
  {
    var ch := s.channels[c];
    match ev
    case Register(key) => if ch.phase.Registered? && ch.key == key then Abandoned else ch.phase
    case Remove(key) => if ch.phase.Registered? && ch.key == key then Abandoned else ch.phase
    case Take(r) => if ch.phase.Registered? && ch.key == s.requests[r].target then Held else ch.phase
    case Send(r) =>
      if s.requests[r].attempt.chan != c then ch.phase
      else if s.requests[r].value.None? || !ch.listening then Abandoned
      else Full(s.requests[r].value.value)
    case Receive(d) => if c == d then Delivered(ch.phase.value) else ch.phase
    case _ => ch.phase
  }

  /** And of the requests: a take finds the call that waits under its key, or uses up one of five attempts. */
  ghost predicate RequestsAffected<V>(s: State<V>, t: State<V>, ev: Event<V>)
    requires Enabled(s, ev)
  {
    |t.requests| == |s.requests| + (if ev.Ask? then 1 else 0) &&
    (ev.Ask? ==> t.requests[|s.requests|] == Request(ev.target, ev.value, Trying(0))) &&
    forall r: nat :: r < |s.requests| ==>
      && t.requests[r].target == s.requests[r].target && t.requests[r].value == s.requests[r].value
      && AttemptAfter(s, ev, r, t.requests[r].attempt)
  }

  ghost predicate AttemptAfter<V>(s: State<V>, ev: Event<V>, r: nat, after: Attempt)
    requires Enabled(s, ev) && r < |s.requests|
  {
    var before := s.requests[r].attempt;
    if ev == Take(r) then
      if exists c: nat :: WaitsUnder(s, c, s.requests[r].target) then
        after.Holding? && WaitsUnder(s, after.chan, s.requests[r].target)
      else after == if before.tries == 4 then NotFound else Trying(before.tries + 1)
    else if ev == Send(r) then
      after == if s.requests[r].value.None? then Panicked(before.chan)
               else if s.channels[before.chan].listening then Sent(before.chan)
               else SendFailed(before.chan)
    else after == before
  }

  predicate WaitsUnder<V>(s: State<V>, c: nat, key: PeerId) {
    c < |s.channels| && s.channels[c].phase.Registered? && s.channels[c].key == key
  }

  predicate FewTries<V>(s: State<V>) {
    forall r: nat :: r < |s.requests| && s.requests[r].attempt.Trying? ==> s.requests[r].attempt.tries < 5
  }

  lemma StepAffects<V>(s: State<V>, ev: Event<V>)
    requires Inv(s) && FewTries(s) && Enabled(s, ev)
    ensures ChannelsAffected(s, Step(s, ev), ev) && RequestsAffected(s, Step(s, ev), ev) && FewTries(Step(s, ev))
  {
    hide ChannelsAffected, RequestsAffected, Inv, Step, FewTries;
    StepChannels(s, ev);
    StepRequests(s, ev);
  }

  lemma StepChannels<V>(s: State<V>, ev: Event<V>)
    requires Inv(s) && Enabled(s, ev)
    ensures ChannelsAffected(s, Step(s, ev), ev)
  {
    hide ValuesSent, TookOnce;
    if ev.Send? {
      assert Took(s, ev.r, s.requests[ev.r].attempt.chan);
    }
  }

  lemma StepRequests<V>(s: State<V>, ev: Event<V>)
    requires Inv(s) && FewTries(s) && Enabled(s, ev)
    ensures RequestsAffected(s, Step(s, ev), ev) && FewTries(Step(s, ev))
  {
    hide ValuesSent, TookOnce, TookMatches;
    if ev.Take? {
      TakeFinds(s, s.requests[ev.r].target);
    }
  }

  lemma TakeFinds<V>(s: State<V>, key: PeerId)
    requires MapMatches(s)
    ensures key in s.senders <==> exists c: nat :: WaitsUnder(s, c, key)
    ensures key in s.senders ==> WaitsUnder(s, s.senders[key], key)
  {
    if key in s.senders {
      assert WaitsUnder(s, s.senders[key], key);
    }
  }

  lemma {:induction false} RunTries<V>(s: State<V>, evs: seq<Event<V>>)
    requires Inv(s) && FewTries(s) && IsRun(s, evs)
    ensures FewTries(After(s, evs))
    decreases |evs|
  {
    hide Inv, Step, Enabled, FewTries;
    if evs != [] {
      StepInv(s, evs[0]);
      StepRequests(s, evs[0]);
      RunTries(Step(s, evs[0]), evs[1..]);
    }
  }

  /** After every run, every further step affects channels and requests in exactly this way. */
  lemma HandoffSteps<V>(evs: seq<Event<V>>, ev: Event<V>)
    requires IsRun(Start(), evs) && Enabled(After(Start(), evs), ev)
    ensures
      var s := After(Start(), evs);
      ChannelsAffected(s, Step(s, ev), ev) && RequestsAffected(s, Step(s, ev), ev)
  {
    hide Step, Enabled, ChannelsAffected, RequestsAffected;
    assert Inv(Start<V>()) && FewTries(Start<V>());
    hide Inv, FewTries;
    RunInv(Start(), evs);
    RunTries(Start(), evs);
    StepAffects(After(Start(), evs), ev);
  }

  /** A value sent reaches the call that waits: as long as that call listens, it can receive it, once, and then has the
      value its request sent. */
  lemma SentIsDelivered<V>(evs: seq<Event<V>>, r: nat)
    requires IsRun(Start(), evs) && r < |After(Start(), evs).requests| && After(Start(), evs).requests[r].attempt.Sent?
    ensures
      var s := After(Start(), evs);
      var c := s.requests[r].attempt.chan;
      c < |s.channels| && s.requests[r].value.Some? &&
      (s.channels[c].phase != Delivered(s.requests[r].value.value) ==>
        && (s.channels[c].listening <==> Enabled(s, Receive(c)))
        && (s.channels[c].listening ==>
              var t := Step(s, Receive(c));
              t.channels[c].phase == Delivered(s.requests[r].value.value) && !Enabled(t, Receive(c))))
  {
    hide Inv;
    LinearHandoff(evs);
  }

  /** These events can happen next, and then request `r` has handed its value to call `c`. */
  ghost predicate HandsOver<V>(s: State<V>, more: seq<Event<V>>, r: nat, c: nat) {
    IsRun(s, more) &&
    var t := After(s, more);
    && r < |s.requests| && r < |t.requests| && c < |t.channels| && s.requests[r].value.Some?
    && t.channels[c].phase == Delivered(s.requests[r].value.value) && t.requests[r].attempt == Sent(c)
  }

  /** From a call that waits and a request that looks for it, three steps hand the value over. */
  lemma HandoffWorks<V>(evs: seq<Event<V>>, r: nat, c: nat)
    requires IsRun(Start(), evs)
    requires
      var s := After(Start(), evs);
      && r < |s.requests| && s.requests[r].attempt.Trying? && s.requests[r].value.Some?
      && WaitsUnder(s, c, s.requests[r].target) && s.channels[c].listening
    ensures
      var s := After(Start(), evs);
      HandsOver(s, [Take(r), Send(r), Receive(c)], r, c)
  {
    var s := After(Start(), evs);
    assert Inv(Start<V>());
    RunInv(Start(), evs);
    TakeFinds(s, s.requests[r].target);
    assert s.senders[s.requests[r].target] == c;
    hide Inv, MapMatches, After;
    ThreeSteps(s, r, c);
  }

  lemma ThreeSteps<V>(s: State<V>, r: nat, c: nat)
    requires r < |s.requests| && s.requests[r].attempt.Trying? && s.requests[r].value.Some?
    requires c < |s.channels| && s.channels[c].listening
    requires s.requests[r].target in s.senders && s.senders[s.requests[r].target] == c
    ensures
      HandsOver(s, [Take(r), Send(r), Receive(c)], r, c)
  {
    var more: seq<Event<V>> := [Take(r), Send(r), Receive(c)];
    assert more[1..] == [Send(r), Receive(c)] && more[1..][1..] == [Receive(c)] && more[1..][1..][1..] == [];
    var t := Step(s, Take(r));
    var u := Step(t, Send(r));
    var v := Step(u, Receive(c));
    assert IsRun(v, more[1..][1..][1..]) && After(v, more[1..][1..][1..]) == v;
    assert IsRun(u, more[1..][1..]) && After(u, more[1..][1..]) == v;
    assert IsRun(t, more[1..]) && After(t, more[1..]) == v;
    assert IsRun(s, more) && After(s, more) == v;
  }

  function TakesOf<V(==)>(evs: seq<Event<V>>, r: nat): nat {
    if evs == [] then 0 else (if evs[0] == Take(r) then 1 else 0) + TakesOf(evs[1..], r)
  }

  /** A request gives up after exactly five attempts, and has made as many as it says. */
  lemma {:induction false} FiveAttempts<V>(s: State<V>, evs: seq<Event<V>>, r: nat)
    requires Inv(s) && FewTries(s) && IsRun(s, evs) && r < |s.requests| && s.requests[r].attempt == Trying(0)
    ensures r < |After(s, evs).requests|
    ensures After(s, evs).requests[r].attempt.Trying? ==> After(s, evs).requests[r].attempt.tries == TakesOf(evs, r) < 5
    ensures After(s, evs).requests[r].attempt.NotFound? ==> TakesOf(evs, r) == 5
    ensures TakesOf(evs, r) <= 5
  {
    CountAttempts(s, evs, r);
  }

  lemma {:induction false} CountAttempts<V>(s: State<V>, evs: seq<Event<V>>, r: nat)
    requires Inv(s) && FewTries(s) && IsRun(s, evs) && r < |s.requests|
    ensures r < |After(s, evs).requests|
    ensures
      var a, b := s.requests[r].attempt, After(s, evs).requests[r].attempt;
      && (b.Trying? ==> a.Trying? && b.tries == a.tries + TakesOf(evs, r) < 5)
      && (b.NotFound? ==> a.NotFound? || (a.Trying? && a.tries + TakesOf(evs, r) == 5))
      && (if a.Trying? then a.tries + TakesOf(evs, r) <= 5 else TakesOf(evs, r) == 0)
    decreases |evs|
  {
    hide Inv, Step;
    if evs != [] {
      var t := Step(s, evs[0]);
      StepInv(s, evs[0]);
      StepRequests(s, evs[0]);
      AttemptsStep(s, evs[0], r);
      CountAttempts(t, evs[1..], r);
    }
  }

  lemma AttemptsStep<V>(s: State<V>, ev: Event<V>, r: nat)
    requires FewTries(s) && Enabled(s, ev) && r < |s.requests| && RequestsAffected(s, Step(s, ev), ev)
    ensures r < |Step(s, ev).requests|
    ensures
      var a, b := s.requests[r].attempt, Step(s, ev).requests[r].attempt;
      && (ev == Take(r) ==> a.Trying? && a.tries < 5)
      && (b.Trying? ==> a.Trying? && b.tries == a.tries + if ev == Take(r) then 1 else 0)
      && (b.NotFound? ==> a.NotFound? || (ev == Take(r) && a.tries == 4))
  {
    hide Step;
  }

  /** The shared map and its channels as the service updates them. */
  class Rendezvous<V(0)> {
    var senders: map<PeerId, nat>
    var channels: seq<Channel<V>>
    var requests: seq<Request<V>>

    ghost function Snapshot(): State<V>
      reads this
    {
      State(senders, channels, requests)
    }

    constructor ()
      ensures Snapshot() == Start()
    {
      senders, channels, requests := map[], [], [];
    }

    method DropSender(key: PeerId)
      modifies this`channels
      ensures channels == Abandon(old(Snapshot()), key)
    {
      if key in senders && senders[key] < |channels| {
        channels := channels[senders[key] := channels[senders[key]].(phase := Abandoned)];
      }
    }

    /** `seed` and `get_cert`: make a channel and insert its sender; a sender already there is dropped. */
    method InsertSender(key: PeerId) returns (c: nat)
      modifies this
      ensures c == old(|channels|) && Snapshot() == Step(old(Snapshot()), Register(key))
    {
      DropSender(key);
      c := |channels|;
      senders := senders[key := c];
      channels := channels + [Channel(key, Registered, true)];
    }

    /** One round of the retry loop. */
    method TryRemove(r: nat) returns (found: bool)
      requires Enabled(Snapshot(), Take(r))
      modifies this
      ensures found <==> old(requests[r].target) in old(senders)
      ensures Snapshot() == Step(old(Snapshot()), Take(r))
    {
      var key, tries := requests[r].target, requests[r].attempt.tries;
      found := key in senders;
      if found {
        var c := senders[key];
        senders := senders - {key};
        channels := SetPhase(channels, c, Held);
        requests := SetAttempt(requests, r, Holding(c));
      } else if tries + 1 >= ATTEMPTS {
        requests := SetAttempt(requests, r, NotFound);
      } else {
        requests := SetAttempt(requests, r, Trying(tries + 1));
      }
    }

    /** The send: it fails if the waiting call is gone and panics if there is nothing to send. */
    method SendValue(r: nat) returns (outcome: Outcome<()>)
      requires Enabled(Snapshot(), Send(r))
      modifies this
      ensures Snapshot() == Step(old(Snapshot()), Send(r))
      ensures outcome.Ok? <==> requests[r].attempt.Sent?
    {
      var c := requests[r].attempt.chan;
      match requests[r].value {
        case None =>
          channels := SetPhase(channels, c, Abandoned);
          requests := SetAttempt(requests, r, Panicked(c));
          return Panic;
        case Some(v) =>
          if channels[c].listening {
            channels := SetPhase(channels, c, Full(v));
            requests := SetAttempt(requests, r, Sent(c));
            return Ok(());
          }
          channels := SetPhase(channels, c, Abandoned);
          requests := SetAttempt(requests, r, SendFailed(c));
          return Error;
      }
    }

    /** What `delist_client` does to a peer's entry. */
    method RemoveEntry(key: PeerId)
      modifies this
      ensures Snapshot() == Step(old(Snapshot()), Remove(key))
    {
      if key in senders {
        DropSender(key);
        senders := senders - {key};
      }
    }
  }
}
