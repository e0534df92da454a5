/** The tracker's file and client maps (server/src/main.rs). Each remote call is one atomic step. */
module Tracker {
  import opened Base
  import opened Pieces
  import opened SessionId
  import Handoff
  import HolePunch

  type ClientId = string
  type FileHash = seq<u8>

  /** `client_registry`, `file_tracker` and `seeder_list`. */
  datatype State = State(
    registry: map<ClientId, Option<PeerId>>, tracked: map<FileHash, InfoHash>, seeders: map<FileHash, seq<ClientId>>)

  /** The calls that change the maps. Message fields may be missing. */
  datatype Call =
    | RegisterClient(id: ClientId, peer: Option<PeerId>)
    | UpdatePeer(self: Option<ClientId>, newPeer: Option<PeerId>)
    | Advertise(hash: Option<FileHash>, info: Option<InfoHash>, client: Option<ClientId>)
    | DeleteFile(self: Option<ClientId>, hash: Option<FileHash>)
    | DelistClient(id: ClientId)

  /** `retain(|c| c != id)` */
  function Without(ids: seq<ClientId>, id: ClientId): (r: seq<ClientId>)
    ensures forall c :: c in r <==> c in ids && c != id
  {
    if ids == [] then [] else (if ids[0] == id then [] else [ids[0]]) + Without(ids[1..], id)
  }

  function SeedersOf(s: State, h: FileHash): seq<ClientId> {
    if h in s.seeders then s.seeders[h] else []
  }

  function Step(s: State, call: Call): State {
    match call
    case RegisterClient(id, peer) => s.(registry := s.registry[id := peer])
    case UpdatePeer(self, peer) =>
      if self.None? || peer.None? then s else s.(registry := s.registry[self.value := peer])
    case Advertise(hash, info, client) =>
      if hash.None? || info.None? || client.None? then s
      else s.(tracked := s.tracked[hash.value := info.value],
              seeders := s.seeders[hash.value := SeedersOf(s, hash.value) + [client.value]])
    case DeleteFile(self, hash) =>
      if self.None? || hash.None? || hash.value !in s.seeders then s
      else
        var left := Without(s.seeders[hash.value], self.value);
        if left == [] then s.(seeders := s.seeders - {hash.value}, tracked := s.tracked - {hash.value})
        else s.(seeders := s.seeders[hash.value := left])
    case DelistClient(id) =>
      if id !in s.registry then s
      else
        var seeders := map h | h in s.seeders :: Without(s.seeders[h], id);
        State(s.registry - {id}, map h | h in s.tracked && !(h in seeders && seeders[h] == []) :: s.tracked[h], seeders)
  }

  /** What the calls mean: who seeds what, who is reachable where, and what was last advertised for a hash. */
  datatype Meaning = Meaning(
    registry: map<ClientId, Option<PeerId>>, seeds: set<(FileHash, ClientId)>, lastInfo: map<FileHash, InfoHash>)

  function Effect(m: Meaning, call: Call): Meaning {
    match call
    case RegisterClient(id, peer) => m.(registry := m.registry[id := peer])
    case UpdatePeer(Some(id), Some(peer)) => m.(registry := m.registry[id := Some(peer)])
    case Advertise(Some(h), Some(info), Some(c)) => m.(seeds := m.seeds + {(h, c)}, lastInfo := m.lastInfo[h := info])
    case DeleteFile(Some(c), Some(h)) => m.(seeds := m.seeds - {(h, c)})
    case DelistClient(id) =>
      if id !in m.registry then m
      else m.(registry := m.registry - {id}, seeds := set x | x in m.seeds && x.1 != id)
    case _ => m
  }

  ghost predicate Seeded(m: Meaning, h: FileHash) {
    exists c :: (h, c) in m.seeds
  }

  /** The maps represent the meaning: duplicates and empty lists do not matter, and the tracked files are
      exactly those with a seeder, each with the info hash advertised last. */
  ghost predicate Represents(s: State, m: Meaning) {
    && s.registry == m.registry
    && (forall h, c :: (h, c) in m.seeds <==> c in SeedersOf(s, h))
    && (forall h :: h in s.tracked <==> Seeded(m, h))
    && (forall h :: h in s.tracked ==> h in m.lastInfo && s.tracked[h] == m.lastInfo[h])
  }

  lemma StepRepresents(s: State, m: Meaning, call: Call)
    requires Represents(s, m)
    ensures Represents(Step(s, call), Effect(m, call))
  {
    match call
    case RegisterClient(_, _) =>
    case UpdatePeer(_, _) =>
    case Advertise(Some(h), Some(info), Some(c)) => AdvertiseRepresents(s, m, h, info, c);
    case DeleteFile(Some(c), Some(h)) => DeleteRepresents(s, m, c, h);
    case DelistClient(id) => DelistRepresents(s, m, id);
    case _ =>
  }

  lemma AdvertiseRepresents(s: State, m: Meaning, h: FileHash, info: InfoHash, c: ClientId)
    requires Represents(s, m)
    ensures
      var call := Advertise(Some(h), Some(info), Some(c));
      Represents(Step(s, call), Effect(m, call))
  {
    var m' := Effect(m, Advertise(Some(h), Some(info), Some(c)));
    forall g ensures Seeded(m', g) <==> g == h || Seeded(m, g) {
      if g == h {
        assert (h, c) in m'.seeds;
      } else if Seeded(m, g) {
        var d :| (g, d) in m.seeds;
        assert (g, d) in m'.seeds;
      }
    }
  }

  lemma DeleteRepresents(s: State, m: Meaning, c: ClientId, h: FileHash)
    requires Represents(s, m)
    ensures Represents(Step(s, DeleteFile(Some(c), Some(h))), Effect(m, DeleteFile(Some(c), Some(h))))
  {
    hide Step, Effect, Seeded, SeedersOf, Without;
    var call := DeleteFile(Some(c), Some(h));
    DeletedSeeds(s, m, c, h);
    SeededAreThoseWithSeeders(s, m);
    DeletedFiles(s, c, h);
    SeededAreThoseWithSeeders(Step(s, call), Effect(m, call));
    OnlySeedsChange(m, call);
  }

  lemma OnlySeedsChange(m: Meaning, call: Call)
    requires call.DeleteFile?
    ensures Effect(m, call).registry == m.registry && Effect(m, call).lastInfo == m.lastInfo
  {
  }

  lemma DeletedLists(s: State, c: ClientId, h: FileHash)
    ensures
      var t := Step(s, DeleteFile(Some(c), Some(h)));
      forall g :: SeedersOf(t, g) == if g == h then Without(SeedersOf(s, g), c) else SeedersOf(s, g)
  {
    WithoutNobody(c);
    hide Without;
  }

  lemma DeletedSeeds(s: State, m: Meaning, c: ClientId, h: FileHash)
    requires forall g, d :: (g, d) in m.seeds <==> d in SeedersOf(s, g)
    ensures
      var t, m' := Step(s, DeleteFile(Some(c), Some(h))), Effect(m, DeleteFile(Some(c), Some(h)));
      forall g, d :: (g, d) in m'.seeds <==> d in SeedersOf(t, g)
  {
    DeletedLists(s, c, h);
    hide Step, SeedersOf;
  }

  /** A file stays tracked as long as its list is not empty. */
  lemma DeletedFiles(s: State, c: ClientId, h: FileHash)
    requires forall g :: g in s.tracked <==> SeedersOf(s, g) != []
    ensures
      var t := Step(s, DeleteFile(Some(c), Some(h)));
      && t.registry == s.registry
      && (forall g :: g in t.tracked <==> SeedersOf(t, g) != [])
      && (forall g :: g in t.tracked ==> g in s.tracked && t.tracked[g] == s.tracked[g])
  {
    DeletedLists(s, c, h);
    WithoutNobody(c);
    hide Without;
  }

  lemma DelistRepresents(s: State, m: Meaning, id: ClientId)
    requires Represents(s, m)
    ensures Represents(Step(s, DelistClient(id)), Effect(m, DelistClient(id)))
  {
    if id in s.registry {
      var s', m' := Step(s, DelistClient(id)), Effect(m, DelistClient(id));
      assert forall g :: SeedersOf(s', g) == Without(SeedersOf(s, g), id);
      SeededAreThoseWithSeeders(s', m');
      SeededAreThoseWithSeeders(s, m);
    }
  }

  lemma SeededAreThoseWithSeeders(s: State, m: Meaning)
    requires forall h, c :: (h, c) in m.seeds <==> c in SeedersOf(s, h)
    ensures forall h :: Seeded(m, h) <==> SeedersOf(s, h) != []
  {
    forall h ensures Seeded(m, h) <==> SeedersOf(s, h) != [] {
      if SeedersOf(s, h) != [] {
        assert (h, SeedersOf(s, h)[0]) in m.seeds;
      }
    }
  }

  function Run(calls: seq<Call>): State {
    if calls == [] then State(map[], map[], map[]) else Step(Run(calls[..|calls| - 1]), calls[|calls| - 1])
  }

  function Effects(calls: seq<Call>): Meaning {
    if calls == [] then Meaning(map[], {}, map[]) else Effect(Effects(calls[..|calls| - 1]), calls[|calls| - 1])
  }

  /** After every sequence of calls the maps represent what the calls mean. */
  lemma {:induction false} RunRepresents(calls: seq<Call>)
    ensures Represents(Run(calls), Effects(calls))
  {
    if calls != [] {
      RunRepresents(calls[..|calls| - 1]);
      StepRepresents(Run(calls[..|calls| - 1]), Effects(calls[..|calls| - 1]), calls[|calls| - 1]);
    }
  }

  /** The addresses of a file's seeders, in list order and with the list's repeats. */
  function Addresses(registry: map<ClientId, Option<PeerId>>, ids: seq<ClientId>): seq<PeerId> {
    if ids == [] then []
    else
      Addresses(registry, ids[..|ids| - 1]) +
      var id := ids[|ids| - 1];
      if id in registry && registry[id].Some? then [registry[id].value] else []
  }

  lemma {:induction false} AddressesAre(registry: map<ClientId, Option<PeerId>>, ids: seq<ClientId>)
    ensures forall p :: p in Addresses(registry, ids) <==>
              exists c :: c in ids && c in registry && registry[c] == Some(p)
  {
    if ids != [] {
      var front, last := ids[..|ids| - 1], ids[|ids| - 1];
      AddressesAre(registry, front);
      assert ids == front + [last];
      forall p
        ensures p in Addresses(registry, ids) <==> exists c :: c in ids && c in registry && registry[c] == Some(p)
      {
        if last in registry && registry[last] == Some(p) {
          assert last in ids;
        }
      }
    }
  }

  predicate ReachedAt(registry: map<ClientId, Option<PeerId>>, c: ClientId, p: PeerId) {
    c in registry && registry[c] == Some(p)
  }

  function Places(registry: map<ClientId, Option<PeerId>>, ids: seq<ClientId>, p: PeerId): set<nat> {
    set i: nat | i < |ids| && ReachedAt(registry, ids[i], p)
  }

  /** Each address is listed as often as the seeder list names a client that is registered with it. */
  lemma {:induction false} AddressCount(registry: map<ClientId, Option<PeerId>>, ids: seq<ClientId>, p: PeerId)
    ensures multiset(Addresses(registry, ids))[p] == |Places(registry, ids, p)|
  {
    if ids == [] {
      assert Places(registry, ids, p) == {};
    } else {
      var n := |ids| - 1;
      AddressCount(registry, ids[..n], p);
      PlacesGrow(registry, ids, p);
    }
  }

  lemma PlacesGrow(registry: map<ClientId, Option<PeerId>>, ids: seq<ClientId>, p: PeerId)
    requires ids != []
    ensures
      var n := |ids| - 1;
      && n !in Places(registry, ids[..n], p)
      && Places(registry, ids, p) ==
           Places(registry, ids[..n], p) + (if ReachedAt(registry, ids[n], p) then {n} else {})
  {
    hide ReachedAt;
  }

  /** And in the order of the list: the addresses of two lists, one after the other, are those of the whole. */
  lemma {:induction false} AddressOrder(
    registry: map<ClientId, Option<PeerId>>, a: seq<ClientId>, b: seq<ClientId>, c: ClientId)
    ensures Addresses(registry, a + b) == Addresses(registry, a) + Addresses(registry, b)
    ensures forall p :: Addresses(registry, [c]) == [p] <==> ReachedAt(registry, c, p)
    ensures |Addresses(registry, [c])| <= 1
  {
    assert Addresses(registry, [c][..0]) == [];
    forall p ensures Addresses(registry, [c]) == [p] <==> ReachedAt(registry, c, p) {
      if Addresses(registry, [c]) == [p] {
        assert Addresses(registry, [c])[0] == p;
      }
    }
    if b == [] {
      assert a + b == a;
    } else {
      AddressOrder(registry, a, b[..|b| - 1], c);
      assert (a + b)[..|a + b| - 1] == a + b[..|b| - 1];
    }
  }

  /** Whom this call takes off the list of `h`, listed or not. */
  function Withdrawn(s: State, call: Call, h: FileHash): Option<ClientId> {
    match call
    case DeleteFile(Some(c), Some(g)) => if g == h then Some(c) else None
    case DelistClient(c) => if c in s.registry then Some(c) else None
    case _ => None
  }

  function WithdrawnAt(calls: seq<Call>, j: nat, h: FileHash): Option<ClientId>
    requires j < |calls|
  {
    Withdrawn(Run(calls[..j]), calls[j], h)
  }

  predicate Advertises(call: Call, h: FileHash) {
    call.Advertise? && call.hash == Some(h) && call.info.Some? && call.client.Some?
  }

  /** Call number `i` advertises `h`, and no later call has withdrawn its client. */
  ghost predicate Stands(calls: seq<Call>, i: nat, h: FileHash) {
    i < |calls| && Advertises(calls[i], h) &&
    forall j: nat :: i < j < |calls| ==> WithdrawnAt(calls, j, h) != Some(calls[i].client.value)
  }

  /** The clients of the advertisements among the first `n` calls that still stand, in the order of those calls. */
  ghost function Standing(calls: seq<Call>, h: FileHash, n: nat): seq<ClientId>
    requires n <= |calls|
  {
    if n == 0 then []
    else Standing(calls, h, n - 1) + if Stands(calls, n - 1, h) then [calls[n - 1].client.value] else []
  }

  /** A seeder list is the history of its file: one entry for each advertisement that still stands, in order. */
  lemma {:induction false} ListIsHistory(calls: seq<Call>, h: FileHash)
    ensures SeedersOf(Run(calls), h) == Standing(calls, h, |calls|)
  {
    hide Step, Stands, Advertises, Withdrawn;
    if calls != [] {
      var n := |calls| - 1;
      ListIsHistory(calls[..n], h);
      StepLists(Run(calls[..n]), calls[n], h);
      LastStands(calls, h);
      StandingAfter(calls, h, n);
    }
  }

  lemma LastStands(calls: seq<Call>, h: FileHash)
    requires calls != []
    ensures Stands(calls, |calls| - 1, h) <==> Advertises(calls[|calls| - 1], h)
  {
  }

  function Dropping(ids: seq<ClientId>, c: Option<ClientId>): seq<ClientId> {
    if c.Some? then Without(ids, c.value) else ids
  }

  /** What a call does to the list: it drops a client, adds one, or neither. */
  lemma StepLists(s: State, call: Call, h: FileHash)
    ensures SeedersOf(Step(s, call), h) ==
            Dropping(SeedersOf(s, h), Withdrawn(s, call, h)) + if Advertises(call, h) then [call.client.value] else []
    ensures Advertises(call, h) ==> Withdrawn(s, call, h).None?
  {
    if Withdrawn(s, call, h).Some? {
      WithoutNobody(Withdrawn(s, call, h).value);
    }
    hide Without;
  }

  lemma WithoutNobody(c: ClientId)
    ensures Without([], c) == []
  {
  }

  /** The last call drops its client from what stood before. */
  lemma {:induction false} StandingAfter(calls: seq<Call>, h: FileHash, k: nat)
    requires calls != [] && k < |calls|
    ensures Standing(calls, h, k) ==
            Dropping(Standing(calls[..|calls| - 1], h, k), WithdrawnAt(calls, |calls| - 1, h))
  {
    hide Stands, Without, WithdrawnAt;
    var front, gone := calls[..|calls| - 1], WithdrawnAt(calls, |calls| - 1, h);
    if k == 0 {
      if gone.Some? {
        WithoutNobody(gone.value);
      }
    } else {
      StandingAfter(calls, h, k - 1);
      StandsStill(calls, k - 1, h);
      var before := Standing(front, h, k - 1);
      if !Stands(front, k - 1, h) {
        assert before + [] == before && Standing(calls, h, k - 1) + [] == Standing(calls, h, k - 1);
      } else if gone.Some? {
        WithoutLast(before, front[k - 1].client.value, gone.value);
        assert Without(before, gone.value) + [] == Without(before, gone.value);
      }
    }
  }

  lemma StandsStill(calls: seq<Call>, i: nat, h: FileHash)
    requires calls != [] && i < |calls| - 1
    ensures
      var front := calls[..|calls| - 1];
      && (Stands(front, i, h) ==> Advertises(front[i], h))
      && (Stands(calls, i, h) <==>
            Stands(front, i, h) && WithdrawnAt(calls, |calls| - 1, h) != Some(front[i].client.value))
  {
    hide Run, Withdrawn;
    var front := calls[..|calls| - 1];
    forall j: nat | j < |front| ensures WithdrawnAt(front, j, h) == WithdrawnAt(calls, j, h) {
      assert front[..j] == calls[..j];
    }
  }

  lemma {:induction false} WithoutLast(ids: seq<ClientId>, d: ClientId, c: ClientId)
    ensures Without(ids + [d], c) == Without(ids, c) + if d == c then [] else [d]
  {
    if ids == [] {
      assert [] + [d] == [d] && [d][1..] == [];
    } else {
      WithoutLast(ids[1..], d, c);
      assert (ids + [d])[1..] == ids[1..] + [d];
    }
  }

  /** After every sequence of calls, asking for a file's peers returns exactly the current addresses of its
      registered seeders. */
  lemma PeerListIsRight(calls: seq<Call>, h: FileHash)
    ensures
      var s, m := Run(calls), Effects(calls);
      forall p :: p in Addresses(s.registry, SeedersOf(s, h)) <==>
        exists c :: (h, c) in m.seeds && c in m.registry && m.registry[c] == Some(p)
  {
    hide Run, Effects, Addresses, SeedersOf;
    var s, m := Run(calls), Effects(calls);
    RunRepresents(calls);
    AddressesAre(s.registry, SeedersOf(s, h));
    forall p ensures p in Addresses(s.registry, SeedersOf(s, h)) <==>
                     exists c :: (h, c) in m.seeds && c in m.registry && m.registry[c] == Some(p) {
      if c :| c in SeedersOf(s, h) && c in s.registry && s.registry[c] == Some(p) {
        assert (h, c) in m.seeds;
      }
    }
  }

  /** `info` is what was last advertised for a file that has a seeder. */
  ghost predicate Listed(m: Meaning, info: InfoHash) {
    exists h :: Seeded(m, h) && h in m.lastInfo && m.lastInfo[h] == info
  }

  /** And the catalogue holds exactly the last advertised info hashes of files with a seeder. */
  lemma CatalogueIsRight(calls: seq<Call>, info: InfoHash)
    ensures info in Run(calls).tracked.Values <==> Listed(Effects(calls), info)
  {
    hide Run, Effects;
    RunRepresents(calls);
    CatalogueOf(Run(calls), Effects(calls), info);
  }

  lemma CatalogueOf(s: State, m: Meaning, info: InfoHash)
    requires Represents(s, m)
    ensures info in s.tracked.Values <==> Listed(m, info)
  {
    hide Seeded, SeedersOf;
    if info in s.tracked.Values {
      var h :| h in s.tracked && s.tracked[h] == info;
      assert Seeded(m, h) && m.lastInfo[h] == info;
    }
    if Listed(m, info) {
      var h :| Seeded(m, h) && h in m.lastInfo && m.lastInfo[h] == info;
      assert s.tracked[h] == info;
    }
  }

  /** `advertise` with another call between its two map updates. */
  function Split(s: State, h: FileHash, info: InfoHash, a: ClientId, mid: Call): State {
    var t := Step(s.(tracked := s.tracked[h := info]), mid);
    t.(seeders := t.seeders[h := SeedersOf(t, h) + [a]])
  }

  /** A call that empties the list of `h`, or finds it empty: the last seeder's delete, or a delist. */
  predicate Clears(s: State, h: FileHash, mid: Call) {
    h in s.seeders &&
    match mid
    case DeleteFile(Some(c), Some(g)) => g == h && Without(s.seeders[h], c) == []
    case DelistClient(id) => id in s.registry && Without(s.seeders[h], id) == []
    case _ => false
  }

  /** The call in between and the advertisement, in the order in which they take effect. */
  function InOrder(m: Meaning, h: FileHash, info: InfoHash, a: ClientId, mid: Call): Meaning {
    var advertise := Advertise(Some(h), Some(info), Some(a));
    if mid.Advertise? then Effect(Effect(m, advertise), mid) else Effect(Effect(m, mid), advertise)
  }

  /** Exactly when atomicity matters: the maps left by a split `advertise` represent what both calls mean, unless the
      call in between clears the file's list; then they represent nothing at all. */
  lemma SplitAdvertiseIff(s: State, m: Meaning, h: FileHash, info: InfoHash, a: ClientId, mid: Call)
    requires Represents(s, m)
    ensures !Clears(s, h, mid) ==> Represents(Split(s, h, info, a, mid), InOrder(m, h, info, a, mid))
    ensures (exists m' :: Represents(Split(s, h, info, a, mid), m')) <==> !Clears(s, h, mid)
  {
    hide Represents, Split, Clears, InOrder;
    if Clears(s, h, mid) {
      ClearedMeansNothing(s, h, info, a, mid);
    } else if mid.Advertise? {
      SplitByAdvertise(s, m, h, info, a, mid);
    } else {
      SplitInOrder(s, m, h, info, a, mid);
    }
  }

  lemma ClearedMeansNothing(s: State, h: FileHash, info: InfoHash, a: ClientId, mid: Call)
    requires Clears(s, h, mid)
    ensures !exists m' :: Represents(Split(s, h, info, a, mid), m')
  {
    var t := Split(s, h, info, a, mid);
    assert h !in t.tracked && a in SeedersOf(t, h);
    forall m' ensures !Represents(t, m') {
      if (h, a) in m'.seeds {
        assert Seeded(m', h);
      }
    }
  }

  /** Two advertisements: whichever updates the first map last decides about the info hash. */
  lemma SplitByAdvertise(s: State, m: Meaning, h: FileHash, info: InfoHash, a: ClientId, mid: Call)
    requires Represents(s, m) && mid.Advertise?
    ensures Represents(Split(s, h, info, a, mid), InOrder(m, h, info, a, mid))
  {
    hide Represents;
    var advertise := Advertise(Some(h), Some(info), Some(a));
    var t := Step(Step(s, advertise), mid);
    StepRepresents(s, m, advertise);
    StepRepresents(Step(s, advertise), Effect(m, advertise), mid);
    SameMembers(t, Split(s, h, info, a, mid), Effect(Effect(m, advertise), mid));
  }

  lemma SameMembers(s: State, t: State, m: Meaning)
    requires Represents(s, m) && t.registry == s.registry && t.tracked == s.tracked
    requires forall g, c :: c in SeedersOf(t, g) <==> c in SeedersOf(s, g)
    ensures Represents(t, m)
  {
    hide SeedersOf, Seeded;
  }

  lemma SplitInOrder(s: State, m: Meaning, h: FileHash, info: InfoHash, a: ClientId, mid: Call)
    requires Represents(s, m) && !mid.Advertise? && !Clears(s, h, mid)
    ensures Represents(Split(s, h, info, a, mid), InOrder(m, h, info, a, mid))
  {
    var advertise := Advertise(Some(h), Some(info), Some(a));
    StepRepresents(s, m, mid);
    StepRepresents(Step(s, mid), Effect(m, mid), advertise);
    Commutes(s, h, info, a, mid);
  }

  lemma Commutes(s: State, h: FileHash, info: InfoHash, a: ClientId, mid: Call)
    requires !mid.Advertise? && !Clears(s, h, mid)
    ensures Split(s, h, info, a, mid) == Step(Step(s, mid), Advertise(Some(h), Some(info), Some(a)))
  {
    CommuteFiles(s, h, info, a, mid);
    CommuteLists(s, h, info, a, mid);
  }

  lemma CommuteFiles(s: State, h: FileHash, info: InfoHash, a: ClientId, mid: Call)
    requires !mid.Advertise? && !Clears(s, h, mid)
    ensures Split(s, h, info, a, mid).tracked
            == Step(Step(s, mid), Advertise(Some(h), Some(info), Some(a))).tracked
  {
    hide Without;
    var t, u := Split(s, h, info, a, mid), Step(Step(s, mid), Advertise(Some(h), Some(info), Some(a)));
    assert t.tracked == u.tracked;
  }

  lemma CommuteLists(s: State, h: FileHash, info: InfoHash, a: ClientId, mid: Call)
    requires !mid.Advertise?
    ensures
      var t, u := Split(s, h, info, a, mid), Step(Step(s, mid), Advertise(Some(h), Some(info), Some(a)));
      t.seeders == u.seeders && t.registry == u.registry
  {
    hide Without;
    var t, u := Split(s, h, info, a, mid), Step(Step(s, mid), Advertise(Some(h), Some(info), Some(a)));
    assert t.seeders == u.seeders;
  }

  /** Where another call can come between the steps of a `delete_file` that has emptied a list: before the list is
      removed, or before the tracked file is. */
  datatype Gap = BeforeList | BeforeFile

  function SplitDelete(s: State, h: FileHash, c: ClientId, mid: Call, gap: Gap): State {
    if gap.BeforeList? then
      var t := Step(s.(seeders := s.seeders[h := Without(SeedersOf(s, h), c)]), mid);
      t.(seeders := t.seeders - {h}, tracked := t.tracked - {h})
    else
      var t := Step(s.(seeders := s.seeders - {h}), mid);
      t.(tracked := t.tracked - {h})
  }

  /** The call in between advertises the same file, for somebody else or too late for the list. */
  predicate Overtakes(h: FileHash, c: ClientId, mid: Call, gap: Gap) {
    mid.Advertise? && mid.hash == Some(h) && mid.info.Some? && mid.client.Some?
    && (gap.BeforeFile? || mid.client.value != c)
  }

  ghost predicate InEitherOrder(t: State, m: Meaning, first: Call, second: Call) {
    Represents(t, Effect(Effect(m, first), second)) || Represents(t, Effect(Effect(m, second), first))
  }

  /** The same for `delete_file`: a split one means what both calls mean unless an advertisement of the file comes in
      between. Then that is lost, if it comes before the list is removed, or else a seeder is left without a tracked
      file, and the maps represent nothing. */
  lemma SplitDeleteIff(s: State, m: Meaning, h: FileHash, c: ClientId, mid: Call, gap: Gap)
    requires Represents(s, m) && h in s.seeders && Without(s.seeders[h], c) == []
    ensures
      var t, delete := SplitDelete(s, h, c, mid, gap), DeleteFile(Some(c), Some(h));
      && (InEitherOrder(t, m, mid, delete) <==> !Overtakes(h, c, mid, gap))
      && (Overtakes(h, c, mid, BeforeList) && gap.BeforeList? ==> Represents(t, Effect(m, delete)))
      && ((exists m' :: Represents(t, m')) <==> !(gap.BeforeFile? && Overtakes(h, c, mid, gap)))
  {
    hide Represents, SplitDelete, Step, Effect, Overtakes;
    var delete := DeleteFile(Some(c), Some(h));
    if !Overtakes(h, c, mid, gap) {
      DeleteLast(s, h, c, mid, gap);
      StepRepresents(s, m, mid);
      StepRepresents(Step(s, mid), Effect(m, mid), delete);
    } else if gap.BeforeList? {
      LostAdvertisement(s, m, h, c, mid);
      StepRepresents(s, m, delete);
    } else {
      LeftOver(s, h, c, mid);
    }
  }

  /** Then the deletion might as well have come last. */
  lemma DeleteLast(s: State, h: FileHash, c: ClientId, mid: Call, gap: Gap)
    requires h in s.seeders && Without(s.seeders[h], c) == [] && !Overtakes(h, c, mid, gap)
    ensures SplitDelete(s, h, c, mid, gap) == Step(Step(s, mid), DeleteFile(Some(c), Some(h)))
  {
    StillOnlyHis(s, h, c, mid, gap);
    if gap.BeforeList? {
      DeleteLastLists(s, h, c, mid);
      DeleteLastFiles(s, h, c, mid);
    } else {
      FilesAfterList(s, h, c, mid);
      ListsAfterList(s, h, c, mid);
    }
  }

  lemma DeleteLastLists(s: State, h: FileHash, c: ClientId, mid: Call)
    requires h in s.seeders && Without(s.seeders[h], c) == []
    requires h in Step(s, mid).seeders ==> Without(Step(s, mid).seeders[h], c) == []
    ensures
      var t, u := SplitDelete(s, h, c, mid, BeforeList), Step(Step(s, mid), DeleteFile(Some(c), Some(h)));
      t.seeders == u.seeders && t.registry == u.registry
  {
    hide Step;
    var emptied := s.(seeders := s.seeders[h := Without(s.seeders[h], c)]);
    OtherLists(s, emptied, h, mid);
    WithoutKey(Step(s, mid).seeders, Step(emptied, mid).seeders, h);
    RemovesList(Step(s, mid), h, c);
    assert SplitDelete(s, h, c, mid, BeforeList).seeders == Step(emptied, mid).seeders - {h};
  }

  ghost predicate AlikeBut<V>(a: map<FileHash, V>, b: map<FileHash, V>, h: FileHash) {
    forall g :: g != h ==> (g in a <==> g in b) && (g in a ==> a[g] == b[g])
  }

  /** What happens to the other lists does not depend on that of `h`. */
  lemma OtherLists(s: State, t: State, h: FileHash, mid: Call)
    requires t.registry == s.registry && AlikeBut(s.seeders, t.seeders, h)
    ensures AlikeBut(Step(s, mid).seeders, Step(t, mid).seeders, h) && Step(t, mid).registry == Step(s, mid).registry
  {
    hide Without;
  }

  lemma WithoutKey<V>(a: map<FileHash, V>, b: map<FileHash, V>, h: FileHash)
    requires AlikeBut(a, b, h)
    ensures a - {h} == b - {h}
  {
    assert (a - {h}).Keys == (b - {h}).Keys;
  }

  lemma RemovesList(s: State, h: FileHash, c: ClientId)
    requires h in s.seeders ==> Without(s.seeders[h], c) == []
    ensures
      var t := Step(s, DeleteFile(Some(c), Some(h)));
      t.seeders == s.seeders - {h} && t.registry == s.registry
  {
    if h !in s.seeders {
      assert s.seeders - {h} == s.seeders;
    }
  }

  lemma DeleteLastFiles(s: State, h: FileHash, c: ClientId, mid: Call)
    requires h in s.seeders && Without(s.seeders[h], c) == []
    requires h in Step(s, mid).seeders ==> Without(Step(s, mid).seeders[h], c) == []
    requires h !in Step(s, mid).seeders ==> Step(s, mid).tracked == s.tracked - {h}
    ensures SplitDelete(s, h, c, mid, BeforeList).tracked == Step(Step(s, mid), DeleteFile(Some(c), Some(h))).tracked
  {
    hide Step;
    var emptied := s.(seeders := s.seeders[h := Without(s.seeders[h], c)]);
    OtherFiles(s, emptied, h, mid);
    WithoutKey(Step(s, mid).tracked, Step(emptied, mid).tracked, h);
    RemovesFile(Step(s, mid), h, c);
    assert SplitDelete(s, h, c, mid, BeforeList).tracked == Step(emptied, mid).tracked - {h};
    assert (s.tracked - {h}) - {h} == s.tracked - {h};
  }

  /** What happens to the other files does not depend on the list of `h` either. */
  lemma OtherFiles(s: State, t: State, h: FileHash, mid: Call)
    requires t.registry == s.registry && t.tracked == s.tracked && AlikeBut(s.seeders, t.seeders, h)
    ensures AlikeBut(Step(s, mid).tracked, Step(t, mid).tracked, h)
  {
    hide Without;
  }

  lemma RemovesFile(s: State, h: FileHash, c: ClientId)
    requires h in s.seeders ==> Without(s.seeders[h], c) == []
    ensures Step(s, DeleteFile(Some(c), Some(h))).tracked == if h in s.seeders then s.tracked - {h} else s.tracked
  {
  }

  lemma FilesAfterList(s: State, h: FileHash, c: ClientId, mid: Call)
    requires h in s.seeders
    requires h in Step(s, mid).seeders ==> Without(Step(s, mid).seeders[h], c) == []
    requires h !in Step(s, mid).seeders ==> Step(s, mid).tracked == s.tracked - {h}
    ensures SplitDelete(s, h, c, mid, BeforeFile).tracked == Step(Step(s, mid), DeleteFile(Some(c), Some(h))).tracked
  {
    hide Step;
    var removed := s.(seeders := s.seeders - {h});
    OtherFiles(s, removed, h, mid);
    WithoutKey(Step(s, mid).tracked, Step(removed, mid).tracked, h);
    RemovesFile(Step(s, mid), h, c);
    assert (s.tracked - {h}) - {h} == s.tracked - {h};
  }

  lemma ListsAfterList(s: State, h: FileHash, c: ClientId, mid: Call)
    requires h in s.seeders && !Overtakes(h, c, mid, BeforeFile)
    requires h in Step(s, mid).seeders ==> Without(Step(s, mid).seeders[h], c) == []
    ensures
      var t, u := SplitDelete(s, h, c, mid, BeforeFile), Step(Step(s, mid), DeleteFile(Some(c), Some(h)));
      t.seeders == u.seeders && t.registry == u.registry
  {
    hide Step;
    var removed := s.(seeders := s.seeders - {h});
    OtherLists(s, removed, h, mid);
    WithoutKey(Step(s, mid).seeders, Step(removed, mid).seeders, h);
    StaysRemoved(removed, h, c, mid);
    RemovesList(Step(s, mid), h, c);
  }

  lemma StaysRemoved(s: State, h: FileHash, c: ClientId, mid: Call)
    requires h !in s.seeders && !Overtakes(h, c, mid, BeforeFile)
    ensures Step(s, mid).seeders - {h} == Step(s, mid).seeders
  {
    hide Without;
  }

  /** If nothing overtakes, the list holds nobody else after the call in between, or that call has removed it. */
  lemma StillOnlyHis(s: State, h: FileHash, c: ClientId, mid: Call, gap: Gap)
    requires h in s.seeders && Without(s.seeders[h], c) == [] && !Overtakes(h, c, mid, gap)
    ensures
      var t := Step(s, mid);
      && (h in t.seeders ==> Without(t.seeders[h], c) == [])
      && (h !in t.seeders ==> t.tracked == s.tracked - {h})
  {
    var t := Step(s, mid);
    assert forall d :: d in s.seeders[h] ==> d == c;
    if h in t.seeders {
      assert forall d :: d in t.seeders[h] ==> d == c;
      OnlyHis(t.seeders[h], c);
    }
  }

  lemma {:induction false} OnlyHis(ids: seq<ClientId>, c: ClientId)
    requires forall d :: d in ids ==> d == c
    ensures Without(ids, c) == []
  {
    if ids != [] {
      assert ids[0] in ids;
      forall d | d in ids[1..] ensures d == c {
        assert d in ids;
      }
      OnlyHis(ids[1..], c);
    }
  }

  lemma LostAdvertisement(s: State, m: Meaning, h: FileHash, c: ClientId, mid: Call)
    requires Represents(s, m) && h in s.seeders && Without(s.seeders[h], c) == [] && Overtakes(h, c, mid, BeforeList)
    ensures
      var t, delete := SplitDelete(s, h, c, mid, BeforeList), DeleteFile(Some(c), Some(h));
      t == Step(s, delete) && !InEitherOrder(t, m, mid, delete)
  {
    var t, delete := SplitDelete(s, h, c, mid, BeforeList), DeleteFile(Some(c), Some(h));
    assert t.seeders == Step(s, delete).seeders && t.tracked == Step(s, delete).tracked;
    var d := mid.client.value;
    assert (h, d) in Effect(Effect(m, mid), delete).seeds && (h, d) in Effect(Effect(m, delete), mid).seeds;
    assert d !in SeedersOf(t, h);
  }

  lemma LeftOver(s: State, h: FileHash, c: ClientId, mid: Call)
    requires Overtakes(h, c, mid, BeforeFile)
    ensures !exists m' :: Represents(SplitDelete(s, h, c, mid, BeforeFile), m')
  {
    var t, d := SplitDelete(s, h, c, mid, BeforeFile), mid.client.value;
    assert h !in t.tracked && d in SeedersOf(t, h);
    forall m' ensures !Represents(t, m') {
      if (h, d) in m'.seeds {
        assert Seeded(m', h);
      }
    }
  }

  /** All lists but those in `todo` have been filtered, and files whose filtered list is empty are gone. */
  ghost predicate Retained(
    lists: map<FileHash, seq<ClientId>>, files: map<FileHash, InfoHash>, id: ClientId, todo: set<FileHash>,
    listsNow: map<FileHash, seq<ClientId>>, filesNow: map<FileHash, InfoHash>)
  {
    && listsNow.Keys == lists.Keys
    && (forall h :: h in listsNow ==> listsNow[h] == if h in todo then lists[h] else Without(lists[h], id))
    && (forall h :: h in filesNow <==> h in files && !(h in listsNow && h !in todo && listsNow[h] == []))
    && (forall h :: h in filesNow ==> filesNow[h] == files[h])
  }

  lemma RetainedNext(
    lists: map<FileHash, seq<ClientId>>, files: map<FileHash, InfoHash>, id: ClientId, todo: set<FileHash>, h: FileHash,
    listsNow: map<FileHash, seq<ClientId>>, filesNow: map<FileHash, InfoHash>,
    listsNext: map<FileHash, seq<ClientId>>, filesNext: map<FileHash, InfoHash>)
    requires h in todo && todo <= listsNow.Keys && Retained(lists, files, id, todo, listsNow, filesNow)
    requires listsNext == listsNow[h := Without(listsNow[h], id)]
    requires filesNext == if listsNext[h] == [] then filesNow - {h} else filesNow
    ensures Retained(lists, files, id, todo - {h}, listsNext, filesNext)
  {
    hide Without;
  }

  predicate FirstFresh(draws: seq<ClientId>, i: int, registry: map<ClientId, Option<PeerId>>) {
    0 <= i < |draws| && draws[i] !in registry && forall k :: 0 <= k < i ==> draws[k] in registry
  }

  /** The service object whose maps the calls update in place. */
  class ConnectionService {
    var clientRegistry: map<ClientId, Option<PeerId>>
    var fileTracker: map<FileHash, InfoHash>
    var seederList: map<FileHash, seq<ClientId>>

    ghost function Snapshot(): State
      reads this
    {
      State(clientRegistry, fileTracker, seederList)
    }

    constructor ()
      ensures Snapshot() == Run([])
    {
      clientRegistry, fileTracker, seederList := map[], map[], map[];
    }

    /** `register_client` draws ids until one is new; an empty one is refused. */
    method Register(draws: seq<ClientId>, peer: Option<PeerId>) returns (r: Outcome<ClientId>)
      requires exists i :: 0 <= i < |draws| && draws[i] !in clientRegistry
      modifies this`clientRegistry
      ensures exists i :: FirstFresh(draws, i, old(clientRegistry)) &&
                if draws[i] == "" then r.Error? && Snapshot() == old(Snapshot())
                else r == Ok(draws[i]) && Snapshot() == Step(old(Snapshot()), RegisterClient(draws[i], peer))
    {
      var i := 0;
      while draws[i] in clientRegistry
        invariant 0 <= i < |draws| && clientRegistry == old(clientRegistry)
        invariant forall k :: 0 <= k < i ==> draws[k] in clientRegistry
        decreases |draws| - i
      {
        assert i + 1 < |draws|;
        i := i + 1;
      }
      assert FirstFresh(draws, i, old(clientRegistry));
      if draws[i] == "" {
        return Error;
      }
      clientRegistry := clientRegistry[draws[i] := peer];
      return Ok(draws[i]);
    }

    method UpdateRegisteredPeerId(selfId: Option<ClientId>, peerId: Option<PeerId>) returns (r: Outcome<ClientId>)
      modifies this`clientRegistry
      ensures Snapshot() == Step(old(Snapshot()), UpdatePeer(selfId, peerId))
      ensures r == if selfId.Some? && peerId.Some? then Ok(selfId.value) else Error
    {
      if selfId.None? || peerId.None? {
        return Error;
      }
      clientRegistry := clientRegistry[selfId.value := peerId];
      return Ok(selfId.value);
    }

    method AdvertiseFile(hash: Option<FileHash>, info: Option<InfoHash>, id: Option<ClientId>)
      returns (r: Outcome<ClientId>)
      modifies this`fileTracker, this`seederList
      ensures Snapshot() == Step(old(Snapshot()), Advertise(hash, info, id))
      ensures r == if hash.Some? && info.Some? && id.Some? then Ok(id.value) else Error
    {
      if hash.None? || info.None? || id.None? {
        return Error;
      }
      fileTracker := fileTracker[hash.value := info.value];
      if hash.value !in seederList {
        seederList := seederList[hash.value := []];
      }
      seederList := seederList[hash.value := seederList[hash.value] + [id.value]];
      return Ok(id.value);
    }

    method Delete(id: Option<ClientId>, hash: Option<FileHash>) returns (r: Outcome<()>)
      modifies this`fileTracker, this`seederList
      ensures Snapshot() == Step(old(Snapshot()), DeleteFile(id, hash))
      ensures r == if id.Some? && hash.Some? then Ok(()) else Error
    {
      if id.None? || hash.None? {
        return Error;
      }
      var h := hash.value;
      if h in seederList {
        var left := Without(seederList[h], id.value);
        seederList := seederList[h := left];
        if left == [] {
          seederList := seederList - {h};
          fileTracker := fileTracker - {h};
        }
      }
      return Ok(());
    }

    /** Only a registered client is taken off the lists; emptied lists stay behind. The result is its address. */
    method Delist(id: ClientId) returns (address: Option<PeerId>)
      modifies this
      ensures Snapshot() == Step(old(Snapshot()), DelistClient(id))
      ensures address == if id in old(clientRegistry) then old(clientRegistry)[id] else None
    {
      if id !in clientRegistry {
        return None;
      }
      address := clientRegistry[id];
      clientRegistry := clientRegistry - {id};
      RetainOthersInAll(id);
    }

    method RetainOthersInAll(id: ClientId)
      modifies this`fileTracker, this`seederList
      ensures seederList == map h | h in old(seederList) :: Without(old(seederList)[h], id)
      ensures fileTracker == map h | h in old(fileTracker) && !(h in seederList && seederList[h] == [])
                             :: old(fileTracker)[h]
    {
      hide Without;
      ghost var lists, files := seederList, fileTracker;
      var todo := seederList.Keys;
      while todo != {}
        invariant todo <= seederList.Keys && Retained(lists, files, id, todo, seederList, fileTracker)
        decreases |todo|
      {
        hide Retained;
        var h :| h in todo;
        ghost var listsNow, filesNow := seederList, fileTracker;
        RetainOthers(h, id);
        RetainedNext(lists, files, id, todo, h, listsNow, filesNow, seederList, fileTracker);
        todo := todo - {h};
      }
    }

    method RetainOthers(h: FileHash, id: ClientId)
      requires h in seederList
      modifies this`fileTracker, this`seederList
      ensures seederList == old(seederList)[h := Without(old(seederList)[h], id)]
      ensures fileTracker == if seederList[h] == [] then old(fileTracker) - {h} else old(fileTracker)
    {
      var left := Without(seederList[h], id);
      seederList := seederList[h := left];
      if left == [] {
        fileTracker := fileTracker - {h};
      }
    }

    method GetFilePeerList(hash: FileHash) returns (peers: seq<PeerId>)
      ensures peers == Addresses(clientRegistry, SeedersOf(Snapshot(), hash))
    {
      peers := [];
      if hash !in seederList {
        return;
      }
      var clients := seederList[hash];
      var i := 0;
      while i < |clients|
        invariant i <= |clients| && peers == Addresses(clientRegistry, clients[..i])
      {
        assert clients[..i + 1][..i] == clients[..i];
        if clients[i] in clientRegistry && clientRegistry[clients[i]].Some? {
          peers := peers + [clientRegistry[clients[i]].value];
        }
        i := i + 1;
      }
      assert clients[..i] == clients;
    }
  }

  /** `delist_client` as a whole: the client leaves the tracker, and the calls that wait under its address, for a
      leecher, for a certificate and for a hole punch, end. */
  method DelistEverywhere<Cert(0)>(
    service: ConnectionService, seeds: Handoff.Rendezvous<PeerId>, certs: Handoff.Rendezvous<Cert>,
    punches: HolePunch.Triggers, id: ClientId)
    modifies service, seeds, certs, punches
    ensures service.Snapshot() == Step(old(service.Snapshot()), DelistClient(id))
    ensures
      var address := if id in old(service.clientRegistry) then old(service.clientRegistry)[id] else None;
      && seeds.Snapshot() == EndWaiting(old(seeds.Snapshot()), address)
      && certs.Snapshot() == EndWaiting(old(certs.Snapshot()), address)
      && punches.Snapshot() == EndPunch(old(punches.Snapshot()), address)
  {
    var address := service.Delist(id);
    if address.Some? {
      seeds.RemoveEntry(address.value);
      certs.RemoveEntry(address.value);
      punches.RemoveEntry(address.value);
    }
  }

  function EndWaiting<V>(s: Handoff.State<V>, address: Option<PeerId>): Handoff.State<V> {
    if address.Some? then Handoff.Step(s, Handoff.Remove(address.value)) else s
  }

  function EndPunch(s: HolePunch.State, address: Option<PeerId>): HolePunch.State {
    if address.Some? then HolePunch.Step(s, HolePunch.Remove(address.value)) else s
  }
}
