/** The triggers by which a leecher tells a waiting seeder to start punching (server/src/main.rs,
    `await_hole_punch_trigger` and `init_punch`): a map of watch channels. A trigger is looked up, not taken out. */
module HolePunch {
  import opened Base
  import opened SessionId

  /** A waiting call: not yet triggered, triggered, gone, or ended because its trigger was dropped. */
  datatype Call = Waiting | Triggered | Gone | Ended

  datatype State = State(triggers: map<PeerId, nat>, keys: seq<PeerId>, calls: seq<Call>)

  datatype Event =
    | Await(key: PeerId)
    | Punch(key: PeerId)
    | Leave(c: nat)
    | Remove(key: PeerId)

  function Start(): State {
    State(map[], [], [])
  }

  /** Dropping a trigger ends a call that still waits for it. */
  function Drop(s: State, key: PeerId): seq<Call> {
    if key in s.triggers then Change(s.calls, s.triggers[key], Ended) else s.calls
  }

  function Change(calls: seq<Call>, c: nat, to: Call): seq<Call> {
    if c < |calls| && calls[c].Waiting? then calls[c := to] else calls
  }

  /** A triggered call returns at once, so a second punch finds a trigger that nobody listens to. */
  function Step(s: State, ev: Event): State {
    match ev
    case Await(key) => State(s.triggers[key := |s.calls|], s.keys + [key], Drop(s, key) + [Waiting])
    case Punch(key) =>
      if key in s.triggers then s.(calls := Change(s.calls, s.triggers[key], Triggered)) else s
    case Leave(c) => s.(calls := Change(s.calls, c, Gone))
    case Remove(key) => s.(triggers := s.triggers - {key}, calls := Drop(s, key))
  }

  function Run(evs: seq<Event>): State {
    if evs == [] then Start() else Step(Run(evs[..|evs| - 1]), evs[|evs| - 1])
  }

  /** A trigger in the map is the last one made for its key, and a call waits only while its trigger is there. */
  ghost predicate Inv(s: State) {
    && |s.keys| == |s.calls|
    && (forall key :: key in s.triggers ==> s.triggers[key] < |s.keys| && s.keys[s.triggers[key]] == key)
    && (forall c :: 0 <= c < |s.calls| && s.calls[c].Waiting? ==>
          s.keys[c] in s.triggers && s.triggers[s.keys[c]] == c)
  }

  lemma {:induction false} RunInv(evs: seq<Event>)
    ensures Inv(Run(evs))
  {
    if evs != [] {
      RunInv(evs[..|evs| - 1]);
      StepInv(Run(evs[..|evs| - 1]), evs[|evs| - 1]);
    }
  }

  lemma StepInv(s: State, ev: Event)
    requires Inv(s)
    ensures Inv(Step(s, ev))
  {
  }

  /** The calls that wait under this key, and only those, change in this way. */
  ghost predicate Affects(s: State, t: State, key: PeerId, to: Call) {
    |t.calls| >= |s.calls| == |s.keys| &&
    forall c :: 0 <= c < |s.calls| ==>
      t.calls[c] == if s.calls[c].Waiting? && s.keys[c] == key then to else s.calls[c]
  }

  predicate WaitsUnder(s: State, c: int, key: PeerId) {
    0 <= c < |s.calls| && 0 <= c < |s.keys| && s.calls[c].Waiting? && s.keys[c] == key
  }

  /** After every run: a punch reaches exactly the call that waits under its key; a removed entry, or another call under
      the same key, ends exactly that call; and so no two calls wait under one key. */
  lemma PunchesReach(evs: seq<Event>, key: PeerId)
    ensures
      var s := Run(evs);
      && Affects(s, Step(s, Punch(key)), key, Triggered)
      && Affects(s, Step(s, Remove(key)), key, Ended)
      && Affects(s, Step(s, Await(key)), key, Ended)
      && (forall c, d :: WaitsUnder(s, c, key) && WaitsUnder(s, d, key) ==> c == d)
  {
    hide Run;
    RunInv(evs);
  }

  /** The map of triggers with the calls that wait for them. */
  class Triggers {
    var triggers: map<PeerId, nat>
    var keys: seq<PeerId>
    var calls: seq<Call>

    ghost function Snapshot(): State
      reads this
    {
      State(triggers, keys, calls)
    }

    constructor ()
      ensures Snapshot() == Start()
    {
      triggers, keys, calls := map[], [], [];
    }

    method DropTrigger(key: PeerId)
      modifies this`calls
      ensures calls == Drop(old(Snapshot()), key)
    {
      if key in triggers {
        calls := Change(calls, triggers[key], Ended);
      }
    }

    method AwaitHolePunchTrigger(key: PeerId) returns (c: nat)
      modifies this
      ensures c == old(|calls|) && Snapshot() == Step(old(Snapshot()), Await(key))
    {
      DropTrigger(key);
      c := |calls|;
      triggers := triggers[key := c];
      keys, calls := keys + [key], calls + [Waiting];
    }

    /** Fails if there is no trigger, at once, or if nobody listens to it any more. */
    method InitPunch(key: PeerId) returns (r: Outcome<()>)
      modifies this`calls
      ensures Snapshot() == Step(old(Snapshot()), Punch(key))
      ensures r.Ok? <==> calls != old(calls)
    {
      if key !in triggers {
        return Error;
      }
      var c := triggers[key];
      if c >= |calls| || !calls[c].Waiting? {
        return Error;
      }
      calls := calls[c := Triggered];
      return Ok(());
    }

    method RemoveEntry(key: PeerId)
      modifies this
      ensures Snapshot() == Step(old(Snapshot()), Remove(key))
    {
      DropTrigger(key);
      if key in triggers {
        triggers := triggers - {key};
      } else {
        assert triggers - {key} == triggers;
      }
    }
  }

  /** A new call waits under its key, and one that leaves, unless it has been triggered, is gone. */
  lemma CallsComeAndGo(evs: seq<Event>, key: PeerId, c: nat)
    ensures
      var s := Run(evs);
      && WaitsUnder(Step(s, Await(key)), |s.calls|, key)
      && (c < |s.calls| && s.calls[c].Waiting? ==> Step(s, Leave(c)).calls == s.calls[c := Gone])
      && (c < |s.calls| && !s.calls[c].Waiting? ==> Step(s, Leave(c)).calls == s.calls)
  {
    hide Run;
    RunInv(evs);
  }
}
