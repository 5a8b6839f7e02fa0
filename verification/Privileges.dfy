/** Who may clear the world, spawn into it and stress it, and exactly what those requests then do. */
module Privileges {
  import opened Ecs
  import opened Adapter
  import opened Coherence
  import opened Upkeep
  import opened Session
  import opened Custody
  import opened Ledger

  // ---- Ordinary clients ----------------------------------------------------

  /** A request that is meant for administrators. */
  predicate Restricted(r: Request) {
    r.ClearWorld? || r.Spawn? || r.StressTest?
  }

  /** An authorised administrators' request. */
  predicate Asks(a: Stage) {
    a.Receive? && a.event.Message? && a.event.authorized && Restricted(a.event.request)
  }

  /** No client is an administrator. */
  predicate Plain(s: Server) {
    forall c | c in s.clients :: s.clients[c].jti != "admin"
  }

  /** A login that the service answers with the administrator's id. */
  predicate AdminLogin(a: Stage) {
    && a.Receive? && a.event.Message? && a.event.request.Auth? && a.event.request.verified.Some?
    && a.event.request.verified.value.jti == "admin"
  }

  /** The stages that are not authorised administrators' requests. */
  function Ordinary(run: seq<Stage>): seq<Stage> {
    if run == [] then []
    else Ordinary(run[..|run| - 1]) + if Asks(run[|run| - 1]) then [] else [run[|run| - 1]]
  }

  /** Outside development mode, who is no administrator changes nothing with such a request. */
  lemma Refused(s: Server, cfg: Config, a: Stage)
    requires !cfg.dev && Asks(a) && (a.event.client in s.clients ==> s.clients[a.event.client].jti != "admin")
    ensures Do(s, cfg, a) == s
  {}

  lemma DropSetPlain(s: Server, cs: set<ClientId>)
    requires Plain(s)
    ensures Plain(DropSet(s, cs))
  {
    hide DespawnSet;
  }

  lemma StaysPlain(s: Server, cfg: Config, a: Stage)
    requires Plain(s) && !AdminLogin(a)
    ensures Plain(Do(s, cfg, a))
  {
    hide DropSet, SpawnKindFor, SpawnMany, SpawnSessionAgent, Clear, Despawn;
    if a.Revoke? { DropSetPlain(s, a.refused * s.clients.Keys); }
    if a.Receive? && a.event.Message? && a.event.request.Auth? && a.event.request.verified.Some? {
      var who := a.event.request.verified.value;
      DropSetPlain(s, Ghosts(s.clients, a.event.client, who.player));
    }
  }

  lemma {:induction false} OneMoreStage(s: Server, cfg: Config, run: seq<Stage>, a: Stage)
    ensures DoAll(s, cfg, run + [a]) == Do(DoAll(s, cfg, run), cfg, a)
  {
    hide Do;
    assert (run + [a])[..|run|] == run;
  }

  /** A run without an administrator is the run in which nobody sends such requests at all. */
  lemma {:induction false} OrdinaryRun(s: Server, cfg: Config, run: seq<Stage>)
    requires !cfg.dev && Plain(s) && forall k | 0 <= k < |run| :: !AdminLogin(run[k])
    ensures Plain(DoAll(s, cfg, run)) && DoAll(s, cfg, run) == DoAll(s, cfg, Ordinary(run))
    decreases |run|
  {
    hide Do, Plain, AdminLogin, Asks;
    if run != [] {
      var before, a := run[..|run| - 1], run[|run| - 1];
      OrdinaryRun(s, cfg, before);
      StaysPlain(DoAll(s, cfg, before), cfg, a);
      if Asks(a) {
        PlainRefused(DoAll(s, cfg, before), cfg, a);
        assert Ordinary(run) == Ordinary(before);
      } else {
        OneMoreStage(s, cfg, Ordinary(before), a);
      }
    }
  }

  lemma PlainRefused(s: Server, cfg: Config, a: Stage)
    requires !cfg.dev && Plain(s) && Asks(a)
    ensures Do(s, cfg, a) == s
  {
    Refused(s, cfg, a);
  }

  // ---- Administrators ------------------------------------------------------

  predicate Administers(s: Server, cfg: Config, c: ClientId) {
    c in s.clients && (s.clients[c].jti == "admin" || cfg.dev)
  }

  /** An administrator's clear leaves no named entity, no index and a fresh id allocator. Of the
      entities exactly the nameless ones that await no resource stay as they were, of the records all
      but the administrator's own. */
  lemma ClearEmpties(s: Server, cfg: Config, c: ClientId)
    requires Administers(s, cfg, c)
    ensures var s', net := Do(s, cfg, Receive(Message(c, true, ClearWorld))), s.world.net;
            && s'.world.net == Net(net.nextEntity, map[], map[], map[], 1, map[], map[])
            && s'.world.serverTick == s.world.serverTick && s'.pending == s.pending
            && (forall e :: e in s'.world.entities <==>
                  e in s.world.entities && e !in net.byEntity && s.world.entities[e].clocks.respawn.None?)
            && (forall e | e in s'.world.entities :: s'.world.entities[e] == s.world.entities[e])
            && s'.clients.Keys == s.clients.Keys
            && (forall d | d in s.clients ::
                  s'.clients[d] == if d == c then s.clients[d].(agent := None) else s.clients[d])
  {}

  /** The parts that an entity of a kind is made of, besides its identity and membership. */
  predicate OfKind(kind: nat, at: Position, c: Components) {
    && c.locale.position == Some(at) && c.gear.input.None? && c.clocks == Clocks(kind == 10, None, None)
    && c.locale.workspace.None? && c.locale.bounds.None?
    && c.cargo.store == (if 1 <= kind <= 4 then Some(DataStore(0, 500)) else None)
    && c.cargo.resource == (if kind == 5 then Some(Resource(100, 100)) else None)
    && c.cargo.drop == (if kind == 6 then Some(0) else None)
    && c.gear.beam == (if kind == 20 then Some(BeamMarker(at, 200.0, 0, 300)) else None)
    && c.gear.extractor == (if kind == 1 || kind == 2 then Some(ExtractionBeam(false, None, 15.0, 2, None))
                            else if kind == 3 || kind == 4 then Some(ExtractionBeam(false, None, 0.0, 0, None))
                            else None)
    && c.pools == (match kind
                   case 1 => Pools(Some(Pool(100, 100)), Some(Pool(200, 200)), None, Some(0))
                   case 2 => Pools(Some(Pool(100, 100)), Some(Pool(200, 200)), None, Some(0))
                   case 3 => Pools(Some(Pool(500, 500)), Some(Pool(1500, 1500)), None, Some(0))
                   case 4 => Pools(Some(Pool(200, 200)), Some(Pool(600, 600)), None, Some(0))
                   case 5 => Pools(None, None, Some(Pool(500, 500)), None)
                   case 10 => Pools(Some(Pool(50, 50)), Some(Pool(100, 100)), None, Some(0))
                   case _ => Pools(None, None, None, None))
  }

  lemma KindIs(kind: nat, at: Position, ws: NetworkId, n: NetworkId)
    ensures OfKind(kind, at, Named(KindAt(kind, at, ws), n))
    ensures Named(KindAt(kind, at, ws), n).id == Identity(Some(n), None, false)
    ensures Named(KindAt(kind, at, ws), n).locale.membership == Some(ws)
  {}

  /** An administrator's spawn puts an entity of that kind where it asked, under the id that was next
      and owned by the sender; everything that was there stays as it was. */
  lemma SpawnPlaces(s: Server, cfg: Config, c: ClientId, kind: nat, at: Position) returns (e: Entity)
    requires Administers(s, cfg, c) && Tied(s.world)
    ensures var s', n := Do(s, cfg, Receive(Message(c, true, Spawn(kind, at)))), s.world.net.nextId;
            && s.world.net.nextEntity <= e && s'.clients == s.clients && s'.pending == s.pending
            && Get(s'.world.net.byId, n) == Some(e) && Get(s'.world.net.owners, n) == Some(c)
            && e in s'.world.entities && OfKind(kind, at, s'.world.entities[e])
            && s'.world.entities[e].id == Identity(Some(n), Some(c), false)
            && (forall x | x in s.world.entities ::
                  x in s'.world.entities && s'.world.entities[x] == s.world.entities[x])
  {
    hide Tied, SpawnKind, KindAt, HomeOf, Ready, OfKind;
    e := NewEntity(s.world);
    SpawnKindNew(s.world, kind, at);
    KindIs(kind, at, HomeOf(s.world), s.world.net.nextId);
    HandlesBounded(s.world);
    OwnerIsNoPart(kind, at, Named(KindAt(kind, at, HomeOf(s.world)), s.world.net.nextId), c);
  }

  lemma OwnerIsNoPart(kind: nat, at: Position, parts: Components, c: ClientId)
    requires OfKind(kind, at, parts)
    ensures OfKind(kind, at, parts.(id := parts.id.(owner := Some(c))))
  {}

  // ---- Many at once --------------------------------------------------------

  /** The handle of the first entity spawned: where there is no master workspace, that comes first,
      with a resource of its own. */
  ghost function FirstSpawned(w: World): Entity {
    w.net.nextEntity + if MasterOf(w).Some? then 0 else 2
  }

  /** What founds the world: a workspace of 500 by 500 around the origin, and a resource in it. */
  ghost predicate Foundation(w: World, w': World) {
    && w.net.nextEntity in w'.entities
    && w'.entities[w.net.nextEntity].locale
       == Locale(None, Some("Playground_Master"), Some(Bounds(Position(-250.0, -250.0), Position(250.0, 250.0))),
                 Some(w.net.nextId + 1))
    && w.net.nextEntity + 1 in w'.entities && OfKind(5, Position(30.0, 0.0), w'.entities[w.net.nextEntity + 1])
    && w'.entities[w.net.nextEntity + 1].locale.membership == Some(w.net.nextId + 1)
  }

  lemma FirstIsNew(w: World)
    ensures NewEntity(w) == FirstSpawned(w)
    ensures MasterOf(w).None? ==> Foundation(w, Ready(w))
  {
    if MasterOf(w).None? {
      FoundingPlaces(w);
      var w2 := SpawnMaster(Allocate(w));
      assert MasterOf(w2) == Some(w.net.nextId + 1) by { OnlyMaster(Allocate(w)); }
      KindIs(RESOURCE, Position(30.0, 0.0), w.net.nextId + 1, w.net.nextId + 2);
      hide MasterOf, KindAt, OfKind;
    }
  }

  lemma OnlyMaster(w: World)
    requires MasterOf(w).None?
    ensures MasterOf(SpawnMaster(w)) == Some(w.net.nextId)
  {
    var w' := SpawnMaster(w);
    SameBelow(w, w', w.net.nextEntity);
  }

  lemma {:induction false} SameBelow(w: World, w': World, n: nat)
    requires n <= w.net.nextEntity && w' == SpawnMaster(w)
    ensures MasterBelow(ShapesOf(w'.entities), w'.net.byEntity, n)
         == MasterBelow(ShapesOf(w.entities), w.net.byEntity, n)
    decreases n
  {
    if n > 0 {
      SameBelow(w, w', n - 1);
      assert IsMaster(ShapesOf(w'.entities), w'.net.byEntity, n - 1)
          == IsMaster(ShapesOf(w.entities), w.net.byEntity, n - 1);
    }
  }

  /** The first `n` of an endless round of agent, heavy agent, carrier, resource and drop. */
  ghost predicate Crowd(w: World, first: Entity, n: nat, places: nat -> Position) {
    forall k | 0 <= k < n :: InTurn(w, first, k, places)
  }

  ghost predicate InTurn(w: World, first: Entity, k: nat, places: nat -> Position) {
    first + k in w.entities && OfKind([1, 3, 4, 5, 6][k % 5], places(k), w.entities[first + k])
  }

  lemma FoundationStays(w: World, w': World, w'': World)
    requires Foundation(w, w') && Grows(w', w'')
    ensures Foundation(w, w'')
  {
    hide OfKind;
  }

  lemma CrowdStays(w: World, w': World, first: Entity, n: nat, places: nat -> Position)
    requires Crowd(w, first, n, places) && Grows(w, w')
    ensures Crowd(w', first, n, places)
  {
    hide OfKind;
    forall k | 0 <= k < n ensures InTurn(w', first, k, places) {
      assert InTurn(w, first, k, places);
    }
  }

  lemma OneSpawned(w: World, kind: nat, at: Position)
    requires Coherent(w)
    ensures var w', e := SpawnKind(w, kind, at), FirstSpawned(w);
            && Coherent(w') && MasterOf(w').Some? && Grows(w, w')
            && w'.net.nextEntity == e + 1 && e in w'.entities && OfKind(kind, at, w'.entities[e])
            && (MasterOf(w).None? ==> Foundation(w, w'))
  {
    hide Coherent, SpawnKind, MasterOf, KindAt, HomeOf, Ready, OfKind, Foundation, Grows, Place, Tied, Succeeds;
    CoherentIsTied(w);
    FirstIsNew(w);
    SpawnKindKeeps(w, kind, at);
    SpawnKindNew(w, kind, at);
    KindIs(kind, at, HomeOf(w), w.net.nextId);
    if MasterOf(w).None? {
      ReadyGrows(w);
      SpawnKindPlaces(w, kind, at);
      PlaceGrows(Ready(w), w.net.nextId, kind, at, HomeOf(w));
      FoundationStays(w, Ready(w), SpawnKind(w, kind, at));
    }
  }

  /** Spawning many puts exactly one entity for each in turn, and leaves the rest as it was. */
  lemma {:induction false} ManySpawned(w: World, n: nat, places: nat -> Position)
    requires Coherent(w) && n > 0
    ensures var w', first := SpawnMany(w, n, places), FirstSpawned(w);
            && Coherent(w') && MasterOf(w').Some?
            && w'.net.nextEntity == first + n && Crowd(w', first, n, places)
            && (MasterOf(w).None? ==> Foundation(w, w'))
            && Grows(w, w')
    decreases n
  {
    hide Coherent, Tied, SpawnKind, MasterOf, OfKind, Foundation, Grows, Crowd;
    var w1, kind, first := SpawnMany(w, n - 1, places), [1, 3, 4, 5, 6][(n - 1) % 5], FirstSpawned(w);
    if n > 1 { ManySpawned(w, n - 1, places); }
    OneSpawned(w1, kind, places(n - 1));
    assert SpawnMany(w, n, places) == SpawnKind(w1, kind, places(n - 1));
    if n > 1 {
      CoherentIsTied(w);
      HandlesBounded(w);
      GrowsTransitive(w, w1, SpawnMany(w, n, places));
      if MasterOf(w).None? { FoundationStays(w, w1, SpawnMany(w, n, places)); }
      CrowdStays(w1, SpawnMany(w, n, places), first, n - 1, places);
    }
    CrowdGrows(SpawnMany(w, n, places), first, n, places);
  }

  lemma CrowdGrows(w: World, first: Entity, n: nat, places: nat -> Position)
    requires n > 0 && (n > 1 ==> Crowd(w, first, n - 1, places)) && InTurn(w, first, n - 1, places)
    ensures Crowd(w, first, n, places)
  {
    hide InTurn;
  }

  /** An administrator's stress test spawns as many as it asks for, but never more than a thousand. */
  lemma StressSpawns(s: Server, cfg: Config, c: ClientId, count: nat, places: nat -> Position)
    requires Administers(s, cfg, c) && Coherent(s.world) && count > 0
    ensures var s', n, first := Do(s, cfg, Receive(Message(c, true, StressTest(count, places)))),
                                (if count > 1000 then 1000 else count), FirstSpawned(s.world);
            && s'.clients == s.clients && s'.pending == s.pending
            && s'.world.net.nextEntity == first + n && Crowd(s'.world, first, n, places)
            && (MasterOf(s.world).None? ==> Foundation(s.world, s'.world))
            && Grows(s.world, s'.world)
  {
    hide Coherent, SpawnMany, MasterOf, Foundation, Grows, Crowd;
    ManySpawned(s.world, if count > 1000 then 1000 else count, places);
  }
}
