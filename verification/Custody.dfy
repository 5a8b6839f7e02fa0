/** What every action of the scheduler keeps about session agents: none is left behind by its
    client, none is shared, and between clears a record never names somebody else's entity. */
module Custody {
  import opened Ecs
  import opened Adapter
  import opened Coherence
  import opened Economy
  import opened Upkeep
  import opened Updates
  import opened Session

  type Clients = map<ClientId, Client>

  /** The owner of a session agent is authenticated, and this agent is the one on its record. */
  predicate Recorded(id: Identity, clients: Clients) {
    && id.owner.Some? && id.owner.value in clients
    && clients[id.owner.value].agent.Some? && id.networked == clients[id.owner.value].agent
  }

  ghost predicate NoGhosts(w: World, clients: Clients) {
    forall e | e in w.entities && w.entities[e].id.session :: Recorded(w.entities[e].id, clients)
  }

  /** Authenticated clients are different players. */
  ghost predicate OnePerPlayer(clients: Clients) {
    forall c, d | c in clients && d in clients && c != d :: clients[c].player != clients[d].player
  }

  /** The id was given out, and if it is live it is a session agent of that client. */
  ghost predicate OwnOrDead(w: World, c: ClientId, n: NetworkId) {
    && 1 <= n < w.net.nextId
    && (n in w.net.byId ==>
          && w.net.byId[n] in w.entities && w.entities[w.net.byId[n]].id.session
          && w.entities[w.net.byId[n]].id.owner == Some(c))
  }

  ghost predicate Exclusive(w: World, clients: Clients) {
    forall c | c in clients && clients[c].agent.Some? :: OwnOrDead(w, c, clients[c].agent.value)
  }

  /** The master workspace, once there is one, has id 2 and its first resource 3: the first spawn
      after a start or a clear takes 1, then founds the two. No record names them. */
  ghost predicate Founded(w: World) {
    Coherent(w) && if MasterOf(w).Some? then MasterOf(w).value == 2 && w.net.nextId >= 4 else w.net.nextId == 1
  }

  ghost predicate SparesMaster(clients: Clients) {
    forall c | c in clients && clients[c].agent.Some? :: clients[c].agent.value == 1 || clients[c].agent.value >= 4
  }

  ghost predicate Sound(s: Server) {
    Tied(s.world) && NoGhosts(s.world, s.clients) && OnePerPlayer(s.clients)
  }

  ghost predicate Settled(s: Server) {
    Founded(s.world) && SparesMaster(s.clients)
  }

  // ---- Steps that only touch the world -------------------------------------

  lemma SuccessorIds(w: World, w': World)
    requires Tied(w) && Tied(w') && Succeeds(w, w')
    ensures w.net.nextId <= w'.net.nextId
    ensures forall e | e in w'.entities && w'.entities[e].id.session ::
            e in w.entities && w.entities[e].id == w'.entities[e].id
    ensures forall n | n in w'.net.byId && n < w.net.nextId ::
              && n in w.net.byId && w'.net.byId[n] == w.net.byId[n]
              && w.net.byId[n] in w.entities && w.net.byId[n] in w'.entities
              && w'.entities[w.net.byId[n]].id == w.entities[w.net.byId[n]].id
  {
    forall e | e in w'.entities
      ensures e < w.net.nextEntity ==> e in w.entities && w.entities[e].id == w'.entities[e].id
      ensures e >= w.net.nextEntity ==> !w'.entities[e].id.session
    {
      assert e in ShapesOf(w'.entities);
    }
    forall n | n in w'.net.byId && n < w.net.nextId
      ensures n in w.net.byId && w.net.byId[n] in w.entities
      ensures w.net.byId[n] in w'.entities && w.net.byId[n] < w.net.nextEntity
    {
      assert n in w.net.byId;
      LinkedAt(w, n);
      LinkedAt(w', n);
      HandlesBounded(w);
    }
  }

  lemma LaterWorld(w: World, w': World, clients: Clients)
    requires Tied(w) && Tied(w') && Succeeds(w, w')
    ensures NoGhosts(w, clients) ==> NoGhosts(w', clients)
    ensures Exclusive(w, clients) ==> Exclusive(w', clients)
  {
    SuccessorIds(w, w');
    hide Tied, Succeeds, Recorded;
  }

  lemma KeepsFounded(w: World, w': World)
    requires Founded(w) && Keeps(w, w')
    ensures Founded(w')
  {
    hide Coherent, MasterOf;
  }

  // ---- Removing a client ---------------------------------------------------

  lemma DropWorld(s: Server, c: ClientId)
    requires Tied(s.world)
    ensures Tied(Drop(s, c).world) && Succeeds(s.world, Drop(s, c).world)
  {
    hide Tied, Succeeds, Despawn;
    RetouchedKeeps(s.world, s.world);
    if c in s.clients && s.clients[c].agent.Some? {
      DespawnKeeps(s.world, s.clients[c].agent.value);
    }
  }

  /** Its agent is gone with the client. */
  lemma DropTakesAgent(s: Server, c: ClientId, e: Entity)
    requires Sound(s) && e in s.world.entities
    requires s.world.entities[e].id.session && s.world.entities[e].id.owner == Some(c)
    ensures e !in Drop(s, c).world.entities
  {
    assert Recorded(s.world.entities[e].id, s.clients);
    assert ShapesOf(s.world.entities)[e].id == s.world.entities[e].id;
  }

  lemma DropSound(s: Server, c: ClientId)
    requires Sound(s)
    ensures Sound(Drop(s, c))
  {
    hide Tied, Succeeds;
    var s' := Drop(s, c);
    DropWorld(s, c);
    SuccessorIds(s.world, s'.world);
    forall e | e in s'.world.entities && s'.world.entities[e].id.session
      ensures Recorded(s'.world.entities[e].id, s'.clients)
    {
      assert Recorded(s.world.entities[e].id, s.clients);
      if s.world.entities[e].id.owner == Some(c) { DropTakesAgent(s, c, e); }
    }
  }

  lemma DropExclusive(s: Server, c: ClientId)
    requires Tied(s.world) && Exclusive(s.world, s.clients)
    ensures Exclusive(Drop(s, c).world, Drop(s, c).clients)
  {
    hide Tied, Succeeds, Despawn;
    DropWorld(s, c);
    LaterWorld(s.world, Drop(s, c).world, s.clients);
  }

  /** A removal despawns nothing but the client's own session agent. */
  lemma DropSparesOthers(s: Server, c: ClientId, e: Entity)
    requires Exclusive(s.world, s.clients) && e in s.world.entities && e !in Drop(s, c).world.entities
    ensures s.world.entities[e].id.session && s.world.entities[e].id.owner == Some(c)
  {
    assert OwnOrDead(s.world, c, s.clients[c].agent.value);
  }

  /** Only the master workspace has a workspace definition, and its id is 2. */
  lemma NotTheMaster(w: World, n: NetworkId)
    requires Founded(w) && n in w.net.byId && n != 2
    ensures w.net.byId[n] in w.entities && w.entities[w.net.byId[n]].locale.workspace.None?
  {
    LinkedAt(w, n);
    var s, e := ShapesOf(w.entities), w.net.byId[n];
    if s[e].workspace.Some? {
      assert IsMaster(s, w.net.byEntity, e);
      MasterIsThis(s, w.net, e);
    }
  }

  lemma DropSettled(s: Server, c: ClientId)
    requires Tied(s.world) && Settled(s)
    ensures Settled(Drop(s, c))
  {
    hide Tied, Succeeds, Coherent, MasterOf;
    if c in s.clients && s.clients[c].agent.Some? {
      var n := s.clients[c].agent.value;
      if n in s.world.net.byId { NotTheMaster(s.world, n); }
      DespawnKeeps(s.world, n);
    }
  }

  lemma {:induction false} DropSetKeeps(s: Server, cs: set<ClientId>)
    requires Tied(s.world)
    ensures Tied(DropSet(s, cs).world)
    ensures Sound(s) ==> Sound(DropSet(s, cs))
    ensures Exclusive(s.world, s.clients) ==> Exclusive(DropSet(s, cs).world, DropSet(s, cs).clients)
    ensures Settled(s) ==> Settled(DropSet(s, cs))
    decreases |cs|
  {
    if cs == {} {
      DropSetEmpty(s);
    } else {
      var c :| c in cs;
      var rest := cs - {c};
      var s1 := DropSet(s, rest);
      DropSetKeeps(s, rest);
      DropSetStep(s, rest, c);
      assert rest + {c} == cs;
      hide Tied, Sound, Exclusive, Settled, DropSet, Drop;
      DropWorld(s1, c);
      if Sound(s) { DropSound(s1, c); }
      if Exclusive(s.world, s.clients) { DropExclusive(s1, c); }
      if Settled(s) { DropSettled(s1, c); }
    }
  }

  // ---- Logging in ----------------------------------------------------------

  lemma LoginKeeps(s: Server, c: ClientId, who: Credentials)
    requires Tied(s.world) && c !in s.clients
    ensures Tied(Login(s, c, who).world)
    ensures Sound(s) ==> Sound(Login(s, c, who))
    ensures Exclusive(s.world, s.clients) ==> Exclusive(Login(s, c, who).world, Login(s, c, who).clients)
    ensures Settled(s) ==> Settled(Login(s, c, who))
  {
    hide Tied, Founded, DespawnSet;
    DropSetKeeps(s, Ghosts(s.clients, c, who.player));
  }

  // ---- Spawning ------------------------------------------------------------

  lemma SetOwnerSucceeds(w: World, w1: World, n: NetworkId, c: ClientId)
    requires Succeeds(w, w1) && n in w1.net.byId && w.net.nextEntity <= w1.net.byId[n]
    ensures Succeeds(w, SetOwner(w1, n, c))
  {
    if w1.net.byId[n] in w1.entities {
      var e := w1.net.byId[n];
      ShapesAfterPut(w1.entities, e, w1.entities[e].(id := w1.entities[e].id.(owner := Some(c))));
      assert ShapesOf(w1.entities)[e] == ShapeOf(w1.entities[e]);
      hide ShapesOf;
    }
  }

  lemma SpawnForKeeps(w: World, kind: nat, at: Position, c: ClientId)
    requires Tied(w)
    ensures Tied(SpawnKindFor(w, kind, at, c)) && Succeeds(w, SpawnKindFor(w, kind, at, c))
    ensures Founded(w) ==> Founded(SpawnKindFor(w, kind, at, c))
    ensures var w' := SpawnKindFor(w, kind, at, c);
            && w.net.nextId in w'.net.byId && w'.net.byId[w.net.nextId] == NewEntity(w)
            && w.net.nextEntity <= NewEntity(w)
            && Get(w'.entities, NewEntity(w)) == Some(Owned(KindAt(kind, at, HomeOf(w)), w.net.nextId, c))
  {
    hide Tied, Succeeds, Coherent, MasterOf, SpawnKind, KindAt, HomeOf;
    var w1, n := SpawnKind(w, kind, at), w.net.nextId;
    SpawnKindKeeps(w, kind, at);
    SpawnKindKept(w, kind, at);
    SpawnKindNew(w, kind, at);
    SetOwnerKeeps(w1, n, c);
    SetOwnerSucceeds(w, w1, n, c);
    if Founded(w) { KeepsFounded(w, w1); }
  }

  ghost function Owned(parts: Components, n: NetworkId, c: ClientId): Components {
    parts.(id := parts.id.(networked := Some(n), owner := Some(c)))
  }

  lemma KindIsAnonymous(kind: nat, at: Position, ws: NetworkId)
    ensures KindAt(kind, at, ws).id == NO_ID && KindAt(kind, at, ws).locale.membership == Some(ws)
  {}

  /** A session agent for `c`, under the id that was next; nothing else is new to the records. */
  lemma AgentSpawned(w: World, at: Position, c: ClientId)
    requires Tied(w)
    ensures var w' := SpawnSessionAgent(w, AGENT, at, c);
            && Tied(w') && w.net.nextId < w'.net.nextId
            && (Founded(w) ==> Founded(w'))
            && (forall e | e in w'.entities && w'.entities[e].id.session ::
                  w'.entities[e].id == Identity(Some(w.net.nextId), Some(c), true)
                  || (e in w.entities && w.entities[e].id == w'.entities[e].id))
            && (forall n | n in w'.net.byId && n < w.net.nextId :: n in w.net.byId && w'.net.byId[n] == w.net.byId[n])
            && (forall n | n in w'.net.byId && n < w.net.nextId && w.net.byId[n] in w.entities ::
                  w.net.byId[n] in w'.entities && w'.entities[w.net.byId[n]].id == w.entities[w.net.byId[n]].id)
            && OwnOrDead(w', c, w.net.nextId)
  {
    hide Tied, Succeeds, Founded, SpawnKindFor, KindAt, HomeOf, Ready;
    var n, w1, e := w.net.nextId, SpawnKindFor(w, AGENT, at, c), NewEntity(w);
    SpawnForKeeps(w, AGENT, at, c);
    KindIsAnonymous(AGENT, at, HomeOf(w));
    SuccessorIds(w, w1);
    MarkSessionKeeps(w1, n, c);
    LinkedAt(w1, n);
    HandlesBounded(w);
    assert w1.entities[e].id == Identity(Some(n), Some(c), false);
    if Founded(w) { MarkFounded(w1, n, c); }
  }

  lemma MarkFounded(w: World, n: NetworkId, c: ClientId)
    requires Founded(w) && Tied(MarkSession(w, n, c))
    ensures Founded(MarkSession(w, n, c))
  {
    hide Tied, Coherent, MasterOf;
    MarkSessionCoherent(w, n, c);
  }

  lemma BeginKeeps(s: Server, c: ClientId)
    requires Tied(s.world)
    ensures Tied(Begin(s, c).world)
    ensures Sound(s) ==> Sound(Begin(s, c))
    ensures Exclusive(s.world, s.clients) ==> Exclusive(Begin(s, c).world, Begin(s, c).clients)
    ensures Settled(s) ==> Settled(Begin(s, c))
  {
    hide Tied, Coherent, MasterOf, NoGhosts, Exclusive, OwnOrDead, OnePerPlayer, SparesMaster, SpawnSessionAgent;
    if c in s.clients && s.clients[c].agent.None? {
      AgentSpawned(s.world, Position(0.0, 0.0), c);
      BeginAgents(s, c);
      BeginRecords(s, c);
      if Settled(s) { assert s.world.net.nextId == 1 || s.world.net.nextId >= 4; }
    }
  }

  lemma BeginRecords(s: Server, c: ClientId)
    requires c in s.clients && s.clients[c].agent.None?
    ensures OnePerPlayer(s.clients) ==> OnePerPlayer(Begin(s, c).clients)
    ensures SparesMaster(s.clients) && (s.world.net.nextId == 1 || s.world.net.nextId >= 4) ==>
            SparesMaster(Begin(s, c).clients)
  {
    hide SpawnSessionAgent;
  }

  lemma BeginAgents(s: Server, c: ClientId)
    requires Tied(s.world) && c in s.clients && s.clients[c].agent.None?
    ensures Sound(s) ==> NoGhosts(Begin(s, c).world, Begin(s, c).clients)
    ensures Exclusive(s.world, s.clients) ==> Exclusive(Begin(s, c).world, Begin(s, c).clients)
  {
    hide Tied, Founded, SpawnSessionAgent;
    AgentSpawned(s.world, Position(0.0, 0.0), c);
    var s', n := Begin(s, c), s.world.net.nextId;
    if Sound(s) {
      forall e | e in s'.world.entities && s'.world.entities[e].id.session
        ensures Recorded(s'.world.entities[e].id, s'.clients)
      {
        assert s'.world.entities[e].id != Identity(Some(n), Some(c), true) ==>
          Recorded(s.world.entities[e].id, s.clients);
      }
    }
    if Exclusive(s.world, s.clients) {
      forall d | d in s'.clients && s'.clients[d].agent.Some?
        ensures OwnOrDead(s'.world, d, s'.clients[d].agent.value)
      {
        assert d != c ==> OwnOrDead(s.world, d, s.clients[d].agent.value);
      }
    }
  }

  lemma {:induction false} SpawnManyKeeps(w: World, n: nat, places: nat -> Position)
    requires Tied(w)
    ensures Keeps(w, SpawnMany(w, n, places))
    decreases n
  {
    hide Tied, Succeeds, Coherent, MasterOf, SpawnKind;
    if n == 0 {
      RetouchedKeeps(w, w);
    } else {
      var w1 := SpawnMany(w, n - 1, places);
      SpawnManyKeeps(w, n - 1, places);
      SpawnKindKept(w1, STRESS_KINDS[(n - 1) % 5], places(n - 1));
      KeepsTransitive(w, w1, SpawnMany(w, n, places));
    }
  }

  // ---- Clearing ------------------------------------------------------------

  lemma ClearByKeeps(s: Server, c: ClientId)
    requires Tied(s.world) && c in s.clients
    ensures Tied(ClearBy(s, c).world)
    ensures Sound(s) ==> Sound(ClearBy(s, c))
    ensures Settled(s) ==> Settled(ClearBy(s, c))
  {
    hide Tied, Survivors, Coherent, MasterOf;
    ClearKeeps(s.world);
    var w' := Clear(s.world);
    forall e | e in w'.entities
      ensures !w'.entities[e].id.session
    {
      assert ShapesOf(w'.entities)[e].id == w'.entities[e].id;
    }
  }

  /** After a clear the records are still exclusive exactly when nobody else had one. */
  lemma ClearExclusiveIff(s: Server, c: ClientId)
    requires c in s.clients
    ensures Exclusive(ClearBy(s, c).world, ClearBy(s, c).clients)
       <==> forall d | d in s.clients && d != c :: s.clients[d].agent.None?
  {
    hide Survivors;
    var s' := ClearBy(s, c);
    forall d | d in s.clients && d != c && s.clients[d].agent.Some?
      ensures !OwnOrDead(s'.world, d, s'.clients[d].agent.value)
    {
      assert s'.world.net.nextId == 1;
    }
  }

  // ---- Every stage ---------------------------------------------------------

  predicate Clears(a: Stage) {
    a.Receive? && a.event.Message? && a.event.request.ClearWorld?
  }

  lemma KeptWorld(s: Server, w': World)
    requires Tied(s.world) && Tied(w') && Succeeds(s.world, w')
    ensures Sound(s) ==> Sound(s.(world := w'))
    ensures Exclusive(s.world, s.clients) ==> Exclusive(w', s.clients)
    ensures Settled(s) && Keeps(s.world, w') ==> Settled(s.(world := w'))
  {
    hide Tied, Succeeds, Founded, Keeps, OnePerPlayer;
    LaterWorld(s.world, w', s.clients);
    if Settled(s) && Keeps(s.world, w') { KeepsFounded(s.world, w'); }
  }

  lemma ServeKeeps(s: Server, cfg: Config, c: ClientId, r: Request)
    requires Tied(s.world) && c in s.clients
    ensures Tied(Serve(s, cfg, c, r).world)
    ensures Sound(s) ==> Sound(Serve(s, cfg, c, r))
    ensures !r.ClearWorld? && Exclusive(s.world, s.clients) ==>
            Exclusive(Serve(s, cfg, c, r).world, Serve(s, cfg, c, r).clients)
    ensures Settled(s) ==> Settled(Serve(s, cfg, c, r))
  {
    hide Tied, Succeeds, Founded, Keeps, SpawnKindFor, SpawnMany, Clear, NoGhosts;
    match r
    case StartSession => BeginKeeps(s, c);
    case ClearWorld => ClearByKeeps(s, c);
    case Spawn(kind, at) =>
      SpawnForKeeps(s.world, kind, at, c);
      KeptWorld(s, SpawnKindFor(s.world, kind, at, c));
    case StressTest(count, places) => ManyKeeps(s, if count < MAX_STRESS then count else MAX_STRESS, places);
    case _ =>
  }

  lemma ManyKeeps(s: Server, n: nat, places: nat -> Position)
    requires Tied(s.world)
    ensures Tied(SpawnMany(s.world, n, places))
    ensures Sound(s) ==> Sound(s.(world := SpawnMany(s.world, n, places)))
    ensures Exclusive(s.world, s.clients) ==> Exclusive(SpawnMany(s.world, n, places), s.clients)
    ensures Settled(s) ==> Settled(s.(world := SpawnMany(s.world, n, places)))
  {
    SpawnManyKeeps(s.world, n, places);
    hide Tied, Succeeds, Sound, Exclusive, Settled, SpawnMany;
    KeptWorld(s, SpawnMany(s.world, n, places));
  }

  lemma HandleKeeps(s: Server, cfg: Config, e: Event)
    requires Tied(s.world)
    ensures Tied(Handle(s, cfg, e).world)
    ensures Sound(s) ==> Sound(Handle(s, cfg, e))
    ensures !(e.Message? && e.request.ClearWorld?) && Exclusive(s.world, s.clients) ==>
              Exclusive(Handle(s, cfg, e).world, Handle(s, cfg, e).clients)
    ensures Settled(s) ==> Settled(Handle(s, cfg, e))
  {
    hide Tied, Sound, Exclusive, Settled, Drop, Serve, Login;
    DropWorld(s, e.client);
    if Sound(s) { DropSound(s, e.client); }
    if Exclusive(s.world, s.clients) { DropExclusive(s, e.client); }
    if Settled(s) { DropSettled(s, e.client); }
    if e.Message? && e.client in s.clients {
      ServeKeeps(s, cfg, e.client, e.request);
    } else if e.Message? && e.request.Auth? && e.request.verified.Some? {
      LoginKeeps(s, e.client, e.request.verified.value);
    }
  }

  lemma DoKeeps(s: Server, cfg: Config, a: Stage)
    requires SparesServer(cfg.registry) && Tied(s.world)
    ensures Tied(Do(s, cfg, a).world)
    ensures Sound(s) ==> Sound(Do(s, cfg, a))
    ensures !Clears(a) && Exclusive(s.world, s.clients) ==> Exclusive(Do(s, cfg, a).world, Do(s, cfg, a).clients)
    ensures InputUpdates(cfg.registry, s.pending) && Settled(s) ==> Settled(Do(s, cfg, a))
  {
    hide Tied, Succeeds, Keeps, Sound, Exclusive, Settled, SparesServer, InputUpdates, ApplyUpdates, Simulate,
         SpawnMany, Handle, DropSet;
    match a
    case AdvanceTick =>
      assert Retouched(s.world, Advanced(s.world));
      RetouchedKeeps(s.world, Advanced(s.world));
      KeepsParts(s.world, Advanced(s.world));
      KeptWorld(s, Advanced(s.world));
    case Revoke(refused) => DropSetKeeps(s, refused * s.clients.Keys);
    case Receive(e) => HandleKeeps(s, cfg, e);
    case Populate(n, places) => ManyKeeps(s, n, places);
    case ApplyPending =>
      var w' := ApplyUpdates(s.world, cfg.registry, s.pending);
      UpdatesTied(s.world, cfg.registry, s.pending);
      KeptWorld(s, w');
      if InputUpdates(cfg.registry, s.pending) { InputsKeep(s.world, cfg.registry, s.pending); }
      PendingApart(s.(world := w'));
    case SimulateStep(i) =>
      SimulateKeeps(s.world, i);
      KeepsParts(s.world, Simulate(s.world, i));
      KeptWorld(s, Simulate(s.world, i));
  }

  lemma KeepsParts(w: World, w': World)
    requires Keeps(w, w')
    ensures Tied(w') && Succeeds(w, w')
  {}

  lemma PendingApart(s: Server)
    ensures Sound(s) <==> Sound(s.(pending := []))
    ensures Settled(s) <==> Settled(s.(pending := []))
  {}

  // ---- What is dead stays dead ---------------------------------------------

  /** No id and no handle that was given out before and is not in use comes back. */
  ghost predicate DeadStay(w: World, w': World) {
    && w.net.nextId <= w'.net.nextId && w.net.nextEntity <= w'.net.nextEntity
    && (forall n | n < w.net.nextId && n in w'.net.byId :: n in w.net.byId && w'.net.byId[n] == w.net.byId[n])
    && (forall e | e < w.net.nextEntity && e in w'.entities :: e in w.entities)
  }

  lemma DeadStayTransitive(w: World, w': World, w'': World)
    requires DeadStay(w, w') && DeadStay(w', w'')
    ensures DeadStay(w, w'')
  {}

  lemma SucceedsDeadStay(w: World, w': World)
    requires Succeeds(w, w')
    ensures DeadStay(w, w')
  {
    assert forall e | e in w'.entities :: e in ShapesOf(w'.entities);
    assert forall e | e in ShapesOf(w.entities) :: e in w.entities;
  }

  lemma DropDeadStay(s: Server, c: ClientId)
    requires Tied(s.world)
    ensures DeadStay(s.world, Drop(s, c).world)
  {
    hide Tied, Succeeds, Drop;
    DropWorld(s, c);
    SucceedsDeadStay(s.world, Drop(s, c).world);
  }

  lemma {:induction false} DropSetDeadStay(s: Server, cs: set<ClientId>)
    requires Tied(s.world)
    ensures DeadStay(s.world, DropSet(s, cs).world)
    decreases |cs|
  {
    if cs == {} {
      DropSetEmpty(s);
    } else {
      var c :| c in cs;
      var rest := cs - {c};
      DropSetDeadStay(s, rest);
      DropSetKeeps(s, rest);
      DropSetStep(s, rest, c);
      assert rest + {c} == cs;
      hide Tied, DropSet, Drop, DeadStay;
      DropDeadStay(DropSet(s, rest), c);
      DeadStayTransitive(s.world, DropSet(s, rest).world, DropSet(s, cs).world);
    }
  }

  /** Marking an entity as a session agent changes neither ids nor handles. */
  lemma AgentDeadStay(w: World, at: Position, c: ClientId)
    requires Tied(w)
    ensures DeadStay(w, SpawnSessionAgent(w, AGENT, at, c))
  {
    hide Tied, Succeeds, Founded, SpawnKindFor;
    SpawnForKeeps(w, AGENT, at, c);
    SucceedsDeadStay(w, SpawnKindFor(w, AGENT, at, c));
  }

  lemma ServeDeadStay(s: Server, cfg: Config, c: ClientId, r: Request)
    requires Tied(s.world) && c in s.clients && !r.ClearWorld?
    ensures DeadStay(s.world, Serve(s, cfg, c, r).world)
  {
    hide Tied, Succeeds, Founded, Keeps, SpawnKindFor, SpawnMany, SpawnSessionAgent, DeadStay;
    RetouchedKeeps(s.world, s.world);
    KeepsParts(s.world, s.world);
    SucceedsDeadStay(s.world, s.world);
    match r
    case StartSession => AgentDeadStay(s.world, Position(0.0, 0.0), c);
    case Spawn(kind, at) =>
      SpawnForKeeps(s.world, kind, at, c);
      SucceedsDeadStay(s.world, SpawnKindFor(s.world, kind, at, c));
    case StressTest(count, places) => ManyDeadStay(s.world, if count < MAX_STRESS then count else MAX_STRESS, places);
    case _ =>
  }

  lemma ManyDeadStay(w: World, n: nat, places: nat -> Position)
    requires Tied(w)
    ensures DeadStay(w, SpawnMany(w, n, places))
  {
    hide Tied, Succeeds, SpawnMany;
    SpawnManyKeeps(w, n, places);
    SucceedsDeadStay(w, SpawnMany(w, n, places));
  }

  lemma HandleDeadStay(s: Server, cfg: Config, e: Event)
    requires Tied(s.world) && !(e.Message? && e.request.ClearWorld?)
    ensures DeadStay(s.world, Handle(s, cfg, e).world)
  {
    hide Tied, Drop, Serve, DespawnSet, DeadStay;
    DropDeadStay(s, e.client);
    DropSetDeadStay(s, {});
    DropSetEmpty(s);
    if e.Message? && e.client in s.clients {
      ServeDeadStay(s, cfg, e.client, e.request);
    } else if e.Message? && e.request.Auth? && e.request.verified.Some? {
      DropSetDeadStay(s, Ghosts(s.clients, e.client, e.request.verified.value.player));
    }
  }

  lemma DoDeadStay(s: Server, cfg: Config, a: Stage)
    requires SparesServer(cfg.registry) && Tied(s.world) && !Clears(a)
    ensures DeadStay(s.world, Do(s, cfg, a).world)
  {
    hide Tied, SparesServer, ApplyUpdates, Simulate, SpawnMany, Handle, DropSet;
    match a
    case AdvanceTick =>
    case Revoke(refused) => DropSetDeadStay(s, refused * s.clients.Keys);
    case Receive(e) => HandleDeadStay(s, cfg, e);
    case Populate(n, places) => ManyDeadStay(s.world, n, places);
    case ApplyPending =>
      UpdatesTied(s.world, cfg.registry, s.pending);
      SucceedsDeadStay(s.world, ApplyUpdates(s.world, cfg.registry, s.pending));
    case SimulateStep(i) =>
      SimulateKeeps(s.world, i);
      SucceedsDeadStay(s.world, Simulate(s.world, i));
  }

  /** Along every run without a clear, an id that is dead is dead for good, and so is an entity. */
  lemma {:induction false} RunDeadStay(s: Server, cfg: Config, run: seq<Stage>)
    requires SparesServer(cfg.registry) && Tied(s.world) && forall i | 0 <= i < |run| :: !Clears(run[i])
    ensures DeadStay(s.world, DoAll(s, cfg, run).world)
    decreases |run|
  {
    hide Tied, SparesServer, Do, Clears, DeadStay;
    if run == [] {
      DropSetDeadStay(s, {});
      DropSetEmpty(s);
    } else {
      var rest := run[..|run| - 1];
      assert forall i | 0 <= i < |rest| :: rest[i] == run[i];
      RunDeadStay(s, cfg, rest);
      RunKeeps(s, cfg, rest);
      DoDeadStay(DoAll(s, cfg, rest), cfg, run[|run| - 1]);
      DeadStayTransitive(s.world, DoAll(s, cfg, rest).world, DoAll(s, cfg, run).world);
    }
  }

  /** A record that is dead stays dead, and one that is live names the client's own agent: whatever
      the run, as long as nobody clears. */
  lemma RecordLiveOrDead(s: Server, cfg: Config, run: seq<Stage>, c: ClientId, more: seq<Stage>)
    requires SparesServer(cfg.registry) && Tied(s.world) && Exclusive(s.world, s.clients)
    requires forall i | 0 <= i < |run + more| :: !Clears((run + more)[i])
    requires c in DoAll(s, cfg, run).clients && DoAll(s, cfg, run).clients[c].agent.Some?
    ensures var s1 := DoAll(s, cfg, run); var n := s1.clients[c].agent.value; var w2 := DoAll(s1, cfg, more).world;
            && OwnOrDead(s1.world, c, n)
            && (n !in s1.world.net.byId ==> n !in w2.net.byId)
  {
    assert forall i | 0 <= i < |run| :: run[i] == (run + more)[i];
    assert forall i | 0 <= i < |more| :: more[i] == (run + more)[|run| + i];
    RunExclusive(s, cfg, run);
    RunDeadStay(DoAll(s, cfg, run), cfg, more);
    hide Tied, SparesServer, Clears, DoAll;
  }

  // ---- Whole runs ----------------------------------------------------------

  lemma Beginnings()
    ensures Sound(START) && Exclusive(START.world, START.clients) && Settled(START)
  {
    assert ShapesOf(map[]) == map[];
    assert MasterOf(EMPTY).None?;
  }

  lemma {:induction false} RunKeeps(s: Server, cfg: Config, run: seq<Stage>)
    requires SparesServer(cfg.registry) && Tied(s.world)
    ensures Tied(DoAll(s, cfg, run).world)
    ensures Sound(s) ==> Sound(DoAll(s, cfg, run))
    decreases |run|
  {
    hide Tied, Sound, Settled, SparesServer, InputUpdates, Do;
    if run != [] {
      RunKeeps(s, cfg, run[..|run| - 1]);
      DoKeeps(DoAll(s, cfg, run[..|run| - 1]), cfg, run[|run| - 1]);
    }
  }

  /** What a client sends in this stage, if anything, writes inputs only. */
  ghost predicate SendsInputs(cfg: Config, a: Stage) {
    a.Receive? && a.event.Message? && a.event.authorized && a.event.request.Send? ==>
      forall i | 0 <= i < |a.event.request.updates| :: InputUpdate(cfg.registry, a.event.request.updates[i])
  }

  /** In this run clients send input commands only, or updates that no replicator takes. */
  ghost predicate InputRun(cfg: Config, run: seq<Stage>) {
    forall i | 0 <= i < |run| :: SendsInputs(cfg, run[i])
  }

  lemma DoKeepsInputs(s: Server, cfg: Config, a: Stage)
    requires InputUpdates(cfg.registry, s.pending) && SendsInputs(cfg, a)
    ensures InputUpdates(cfg.registry, Do(s, cfg, a).pending)
  {
    hide InputUpdate, Drop, Login, SpawnMany, ApplyUpdates, Simulate, DespawnSet, Begin, ClearBy, SpawnKindFor;
    PendingAfter(s, cfg, a);
  }

  /** Only a message adds to the pending updates, and it adds what it carries. */
  lemma PendingAfter(s: Server, cfg: Config, a: Stage)
    ensures Do(s, cfg, a).pending == s.pending || Do(s, cfg, a).pending == []
         || (&& a.Receive? && a.event.Message? && a.event.authorized && a.event.request.Send?
             && Do(s, cfg, a).pending == s.pending + Stamp(a.event.client, a.event.request.updates))
  {
    hide Despawn, DespawnSet, Ghosts, SpawnMany, ApplyUpdates, Simulate, Clear, SpawnKindFor, SpawnSessionAgent, Stamp;
  }

  lemma {:induction false} RunKeepsSettled(s: Server, cfg: Config, run: seq<Stage>)
    requires SparesServer(cfg.registry) && InputUpdates(cfg.registry, s.pending) && InputRun(cfg, run)
    requires Tied(s.world) && Settled(s)
    ensures var s' := DoAll(s, cfg, run);
            Tied(s'.world) && Settled(s') && InputUpdates(cfg.registry, s'.pending)
    decreases |run|
  {
    hide Tied, Settled, SparesServer, InputUpdates, SendsInputs, Do;
    if run != [] {
      var rest, a := run[..|run| - 1], run[|run| - 1];
      assert forall i | 0 <= i < |rest| :: rest[i] == run[i];
      RunKeepsSettled(s, cfg, rest);
      DoKeeps(DoAll(s, cfg, rest), cfg, a);
      DoKeepsInputs(DoAll(s, cfg, rest), cfg, a);
    }
  }

  /** In every state of every run, clears included and whatever updates clients send: every session
      agent is the one on the record of an authenticated client that owns it, and no two
      authenticated clients are the same player. */
  lemma RunSound(cfg: Config, run: seq<Stage>)
    requires SparesServer(cfg.registry)
    ensures Sound(DoAll(START, cfg, run))
  {
    hide NoGhosts, OnePerPlayer, Settled, SparesServer, DoAll;
    Beginnings();
    RunKeeps(START, cfg, run);
  }

  /** At most one session agent per client and per player. */
  lemma OneAgentEach(s: Server, e: Entity, e': Entity)
    requires Sound(s) && e in s.world.entities && e' in s.world.entities && e != e'
    requires s.world.entities[e].id.session && s.world.entities[e'].id.session
    ensures var c, d := s.world.entities[e].id.owner, s.world.entities[e'].id.owner;
            c.Some? && d.Some? && c != d && c.value in s.clients && d.value in s.clients
            && s.clients[c.value].player != s.clients[d.value].player
  {
    assert Recorded(s.world.entities[e].id, s.clients) && Recorded(s.world.entities[e'].id, s.clients);
    assert ShapesOf(s.world.entities)[e].id == s.world.entities[e].id;
    assert ShapesOf(s.world.entities)[e'].id == s.world.entities[e'].id;
  }

  /** From any state whose records are exclusive, they stay so along every run without a clear; so
      no disconnect, kick or revocation in it despawns another client's entity. */
  lemma {:induction false} RunExclusive(s: Server, cfg: Config, run: seq<Stage>)
    requires SparesServer(cfg.registry) && Tied(s.world) && Exclusive(s.world, s.clients)
    requires forall i | 0 <= i < |run| :: !Clears(run[i])
    ensures Tied(DoAll(s, cfg, run).world)
    ensures Exclusive(DoAll(s, cfg, run).world, DoAll(s, cfg, run).clients)
    decreases |run|
  {
    if run != [] {
      var rest := run[..|run| - 1];
      assert forall i | 0 <= i < |rest| :: rest[i] == run[i];
      RunExclusive(s, cfg, rest);
      hide Tied, Exclusive, SparesServer, Do;
      DoKeeps(DoAll(s, cfg, rest), cfg, run[|run| - 1]);
    }
  }

  /** In every state of every run in which clients send input commands only, clears included, the
      adapter is coherent and the master workspace, once created, is there under id 2. */
  lemma RunSettled(cfg: Config, run: seq<Stage>)
    requires SparesServer(cfg.registry) && InputRun(cfg, run)
    ensures Tied(DoAll(START, cfg, run).world) && Settled(DoAll(START, cfg, run))
  {
    hide NoGhosts, OnePerPlayer, Settled, SparesServer, InputRun, DoAll;
    Beginnings();
    RunKeepsSettled(START, cfg, run);
  }

  /** A run in which clients send updates of one kind, registered for input commands, is such a
      run, whatever else is registered. */
  lemma CommandRun(cfg: Config, kind: nat, decode: Payload -> Option<InputCommand>, run: seq<Stage>)
    requires TakesInputs(cfg.registry, kind, decode)
    requires forall i, j | 0 <= i < |run| && run[i].Receive? && run[i].event.Message? && run[i].event.request.Send?
                && 0 <= j < |run[i].event.request.updates| :: run[i].event.request.updates[j].kind == kind
    ensures InputRun(cfg, run)
  {
    hide TakesInputs, InputUpdate;
    forall i, j | 0 <= i < |run| && run[i].Receive? && run[i].event.Message? && run[i].event.request.Send?
                  && 0 <= j < |run[i].event.request.updates|
      ensures InputUpdate(cfg.registry, run[i].event.request.updates[j])
    {
      CommandIsInput(cfg.registry, kind, decode, run[i].event.request.updates[j]);
    }
  }
}
