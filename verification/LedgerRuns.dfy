/** The ledger over whole runs without a clear: payload and resource slots change by exactly what
    is spawned, what departing clients' agents carry away, and what comes due or is destroyed
    inside simulate calls. */
module LedgerRuns {
  import opened Ecs
  import opened Adapter
  import opened Coherence
  import opened Economy
  import opened Upkeep
  import opened Totals
  import opened Ledger
  import opened Updates
  import opened Session
  import opened Custody
  import opened RespawnRuns

  /** What one simulate call adds to a total. */
  ghost function Yield(w: World, i: Inputs, m: Measure): int {
    match m
    case Payload => Total(w, DueCapacity) - DestroyedByBeams(w, i, Payload) - U16_LIMIT * StoresWrapped(w, i)
    case _ => -DestroyedByBeams(w, i, m)
  }

  /** What the first `n` entities of a stress test or of an automatic population bring. */
  ghost function ManyWeigh(n: nat, places: nat -> Position, m: Measure): int {
    if n == 0 then 0
    else ManyWeigh(n - 1, places, m) + Weigh(m, Archetype(STRESS_KINDS[(n - 1) % 5], places(n - 1)))
  }

  /** What a request makes its sender, who is authenticated, bring into the world. */
  ghost function Requested(s: Server, cfg: Config, c: ClientId, r: Request, m: Measure): int
    requires c in s.clients
  {
    match r
    case StartSession => if s.clients[c].agent.None? then Weigh(m, Archetype(AGENT, Position(0.0, 0.0))) else 0
    case Spawn(kind, at) => if Privileged(cfg, s.clients[c]) then Weigh(m, Archetype(kind, at)) else 0
    case StressTest(count, places) =>
      if !Privileged(cfg, s.clients[c]) then 0
      else ManyWeigh(if count < MAX_STRESS then count else MAX_STRESS, places, m)
    case _ => 0
  }

  ghost function Arrivals(s: Server, cfg: Config, a: Stage, m: Measure): int {
    match a
    case Populate(n, places) => ManyWeigh(n, places, m)
    case Receive(Message(c, true, r)) => if c in s.clients then Requested(s, cfg, c, r, m) else 0
    case _ => 0
  }

  /** The clients that a stage removes. */
  function Leaving(s: Server, a: Stage): set<ClientId> {
    match a
    case Revoke(refused) => refused * s.clients.Keys
    case Receive(Lost(c)) => {c}
    case Receive(Message(c, authorized, r)) =>
      if c in s.clients then if authorized then {} else {c}
      else if r.Auth? && r.verified.Some? then Ghosts(s.clients, c, r.verified.value.player)
      else {}
    case _ => {}
  }

  /** The entities of a set. */
  function Only(es: map<Entity, Components>, xs: set<Entity>): map<Entity, Components> {
    map e | e in es && e in xs :: es[e]
  }

  /** What the agents of some clients carry. */
  ghost function TakenAlong(s: Server, cs: set<ClientId>, m: Measure): int {
    Sum(Only(s.world.entities, Victims(s.world, AgentsOf(s.clients, cs))), s.world.net.nextEntity, m)
  }

  /** What a stage adds to a total. */
  ghost function Flow(s: Server, cfg: Config, a: Stage, m: Measure): int {
    if a.SimulateStep? then Yield(s.world, a.inputs, m)
    else Arrivals(s, cfg, a, m) - TakenAlong(s, Leaving(s, a), m)
  }

  ghost function Flows(s: Server, cfg: Config, run: seq<Stage>, m: Measure): int {
    if run == [] then 0
    else Flows(s, cfg, run[..|run| - 1], m) + Flow(DoAll(s, cfg, run[..|run| - 1]), cfg, run[|run| - 1], m)
  }

  /** No clear, clients send inputs only, and the queries of every simulate call are proper. */
  ghost predicate ProperRun(s: Server, cfg: Config, run: seq<Stage>) {
    run == [] ||
    (&& ProperRun(s, cfg, run[..|run| - 1]) && !Clears(run[|run| - 1]) && SendsInputs(cfg, run[|run| - 1])
     && (run[|run| - 1].SimulateStep? ==> ProperQueries(DoAll(s, cfg, run[..|run| - 1]).world, run[|run| - 1].inputs)))
  }

  // ---- Departures ----------------------------------------------------------

  lemma {:induction false} SumWithout(es: map<Entity, Components>, xs: set<Entity>, n: nat, m: Measure)
    ensures Sum(es - xs, n, m) == Sum(es, n, m) - Sum(Only(es, xs), n, m)
    decreases n
  {
    hide Weigh;
    if n > 0 { SumWithout(es, xs, n - 1, m); }
  }

  /** Whether there is a master workspace shows in the next id. */
  lemma FoundedByIds(w: World, w': World)
    requires Founded(w) && Founded(w') && w'.net.nextId == w.net.nextId
    ensures MasterOf(w').None? <==> MasterOf(w).None?
  {
    hide Coherent, MasterOf;
  }

  lemma DropSetWorth(s: Server, cs: set<ClientId>, m: Measure)
    requires Tied(s.world) && Settled(s)
    ensures Worth(DropSet(s, cs).world, m) == Worth(s.world, m) - TakenAlong(s, cs, m)
  {
    hide Tied, Founded, MasterOf, Weigh, Archetype;
    DropSetKeeps(s, cs);
    FoundedByIds(s.world, DropSet(s, cs).world);
    SumWithout(s.world.entities, Victims(s.world, AgentsOf(s.clients, cs)), s.world.net.nextEntity, m);
    hide Victims, AgentsOf, Only;
  }

  lemma DropWorth(s: Server, c: ClientId, m: Measure)
    requires Tied(s.world) && Settled(s)
    ensures Worth(Drop(s, c).world, m) == Worth(s.world, m) - TakenAlong(s, {c}, m)
  {
    hide Tied, Settled, Worth, TakenAlong, DropSet, Drop;
    DropSetEmpty(s);
    DropSetStep(s, {}, c);
    assert {} + {c} == {c};
    DropSetWorth(s, {c}, m);
  }

  // ---- Arrivals ------------------------------------------------------------

  /** Changing who an entity belongs to changes no total. */
  lemma RenamedWorth(w: World, w': World, m: Measure)
    requires Founded(w) && Founded(w') && w'.net.nextId == w.net.nextId && w'.net.nextEntity == w.net.nextEntity
    requires SameGoods(w.entities, w'.entities)
    ensures Worth(w', m) == Worth(w, m)
  {
    hide Founded, MasterOf, Weigh, Archetype, SameGoods;
    FoundedByIds(w, w');
    SameGoodsSum(w.entities, w'.entities, w.net.nextEntity, m);
  }

  lemma SpawnForWorth(w: World, kind: nat, at: Position, c: ClientId, m: Measure)
    requires Tied(w) && Founded(w)
    ensures Worth(SpawnKindFor(w, kind, at, c), m) == Worth(w, m) + Weigh(m, Archetype(kind, at))
  {
    hide Tied, Succeeds, Coherent, Worth, Weigh, Archetype, SpawnKind, MasterOf;
    var w1 := SpawnKind(w, kind, at);
    SpawnKindWorth(w, kind, at, m);
    SpawnKindKept(w, kind, at);
    KeepsFounded(w, w1);
    SpawnForKeeps(w, kind, at, c);
    hide Founded, NewEntity, HomeOf, KindAt;
    OwnerSameGoods(w1, w.net.nextId, c);
    RenamedWorth(w1, SpawnKindFor(w, kind, at, c), m);
  }

  lemma OwnerSameGoods(w: World, n: NetworkId, c: ClientId)
    ensures SameGoods(w.entities, SetOwner(w, n, c).entities)
    ensures SetOwner(w, n, c).net.nextId == w.net.nextId && SetOwner(w, n, c).net.nextEntity == w.net.nextEntity
  {
    assert SetOwner(w, n, c).entities.Keys == w.entities.Keys;
  }

  lemma MarkSameGoods(w: World, n: NetworkId, c: ClientId)
    ensures SameGoods(w.entities, MarkSession(w, n, c).entities)
    ensures MarkSession(w, n, c).net.nextId == w.net.nextId && MarkSession(w, n, c).net.nextEntity == w.net.nextEntity
  {
    assert MarkSession(w, n, c).entities.Keys == w.entities.Keys;
  }

  lemma AgentWorth(w: World, at: Position, c: ClientId, m: Measure)
    requires Tied(w) && Founded(w)
    ensures Worth(SpawnSessionAgent(w, AGENT, at, c), m) == Worth(w, m) + Weigh(m, Archetype(AGENT, at))
  {
    hide Tied, Succeeds, Founded, Worth, Weigh, Archetype, SpawnKindFor, OwnOrDead, NewEntity, HomeOf, KindAt;
    var w1 := SpawnKindFor(w, AGENT, at, c);
    SpawnForWorth(w, AGENT, at, c, m);
    SpawnForKeeps(w, AGENT, at, c);
    AgentSpawned(w, at, c);
    MarkSameGoods(w1, w.net.nextId, c);
    hide MarkSession;
    RenamedWorth(w1, SpawnSessionAgent(w, AGENT, at, c), m);
  }

  lemma {:induction false} ManyWorth(w: World, n: nat, places: nat -> Position, m: Measure)
    requires Tied(w) && Coherent(w)
    ensures Worth(SpawnMany(w, n, places), m) == Worth(w, m) + ManyWeigh(n, places, m)
    decreases n
  {
    hide Tied, Coherent, Worth, Weigh, Archetype, SpawnKind;
    if n > 0 {
      var w1 := SpawnMany(w, n - 1, places);
      ManyWorth(w, n - 1, places, m);
      SpawnManyCoherent(w, n - 1, places);
      SpawnKindWorth(w1, STRESS_KINDS[(n - 1) % 5], places(n - 1), m);
    }
  }

  lemma SpawnManyCoherent(w: World, n: nat, places: nat -> Position)
    requires Tied(w) && Coherent(w)
    ensures Coherent(SpawnMany(w, n, places))
  {
    hide Tied, Succeeds, Coherent, MasterOf, SpawnMany;
    SpawnManyKeeps(w, n, places);
  }

  lemma ServeWorth(s: Server, cfg: Config, c: ClientId, r: Request, m: Measure)
    requires Tied(s.world) && Settled(s) && c in s.clients && !r.ClearWorld?
    ensures Worth(Serve(s, cfg, c, r).world, m) == Worth(s.world, m) + Requested(s, cfg, c, r, m)
  {
    hide Tied, Coherent, MasterOf, Worth, Weigh, Archetype, SpawnKindFor, SpawnSessionAgent, SpawnMany, ManyWeigh;
    match r
    case StartSession => AgentWorth(s.world, Position(0.0, 0.0), c, m);
    case Spawn(kind, at) => SpawnForWorth(s.world, kind, at, c, m);
    case StressTest(count, places) => ManyWorth(s.world, if count < MAX_STRESS then count else MAX_STRESS, places, m);
    case _ =>
  }

  lemma HandleWorth(s: Server, cfg: Config, e: Event, m: Measure)
    requires Tied(s.world) && Settled(s) && !Clears(Receive(e))
    ensures Worth(Handle(s, cfg, e).world, m)
         == Worth(s.world, m) + Arrivals(s, cfg, Receive(e), m) - TakenAlong(s, Leaving(s, Receive(e)), m)
  {
    hide Tied, Settled, Worth, Requested, DropSet, Drop, Serve, TakenAlong;
    NothingTaken(s, m);
    DropWorth(s, e.client, m);
    if e.Message? && e.client in s.clients {
      ServeWorth(s, cfg, e.client, e.request, m);
    } else if e.Message? && e.request.Auth? && e.request.verified.Some? {
      DropSetWorth(s, Ghosts(s.clients, e.client, e.request.verified.value.player), m);
      hide Ghosts;
      LoginWorld(s, e.client, e.request.verified.value);
    }
  }

  lemma LoginWorld(s: Server, c: ClientId, who: Credentials)
    ensures Login(s, c, who).world == DropSet(s, Ghosts(s.clients, c, who.player)).world
  {
    hide DropSet, Ghosts;
  }

  lemma NothingTaken(s: Server, m: Measure)
    ensures TakenAlong(s, {}, m) == 0
  {
    assert AgentsOf(s.clients, {}) == {} && Victims(s.world, {}) == {};
    assert Only(s.world.entities, {}) == map[];
    SumNothing(s.world.net.nextEntity, m);
  }

  lemma {:induction false} SumNothing(n: nat, m: Measure)
    ensures Sum(map[], n, m) == 0
  {
    if n > 0 { SumNothing(n - 1, m); }
  }

  // ---- Every stage ---------------------------------------------------------

  lemma {:induction false} InputsKeepGoods(w: World, reg: Registry, ms: seq<Inbound>)
    requires InputUpdates(reg, ms)
    ensures SameGoods(w.entities, ApplyUpdates(w, reg, ms).entities)
    decreases |ms|
  {
    if ms != [] {
      var w1, m := ApplyUpdates(w, reg, ms[..|ms| - 1]), ms[|ms| - 1];
      InputsKeepGoods(w, reg, ms[..|ms| - 1]);
      if Authorized(w1, m) && m.update.kind in reg {
        var e := w1.net.byId[m.update.id];
        assert InputWrite(w1.entities[e], reg[m.update.kind](w1.serverTick, w1.entities[e], m.update.payload));
        assert ApplyUpdate(w1, reg, m).entities.Keys == w1.entities.Keys;
      }
    }
  }

  lemma InputsWorth(w: World, reg: Registry, ms: seq<Inbound>, m: Measure)
    requires InputUpdates(reg, ms)
    ensures Worth(ApplyUpdates(w, reg, ms), m) == Worth(w, m)
  {
    InputsKeepGoods(w, reg, ms);
    InputsRetouch(w, reg, ms);
    hide ApplyUpdates, Worth;
    RetouchedWorth(w, ApplyUpdates(w, reg, ms), m);
  }

  lemma SimulateYields(w: World, i: Inputs, m: Measure)
    requires Coherent(w) && ProperQueries(w, i) && m != DueCapacity
    ensures Worth(Simulate(w, i), m) == Worth(w, m) + Yield(w, i, m)
  {
    hide Coherent, ProperQueries, Worth, Total, DestroyedByBeams, StoresWrapped, Simulate;
    if m == Payload { PayloadLedger(w, i); } else { SlotLedger(w, i); }
  }

  lemma AdvanceWorth(w: World, m: Measure)
    ensures Worth(Advanced(w), m) == Worth(w, m)
  {
    assert MasterOf(Advanced(w)) == MasterOf(w) && Total(Advanced(w), m) == Total(w, m);
  }

  lemma SteadyKnows(s: Server, cfg: Config)
    requires Steady(s, cfg)
    ensures InputUpdates(cfg.registry, s.pending) && Tied(s.world) && Settled(s) && Coherent(s.world)
  {
    hide Tied, SparesServer, InputUpdates, SparesMaster, MasterOf;
  }

  lemma StageFlows(s: Server, cfg: Config, a: Stage, m: Measure)
    requires Steady(s, cfg) && !Clears(a) && m != DueCapacity
    requires a.SimulateStep? ==> ProperQueries(s.world, a.inputs)
    ensures Worth(Do(s, cfg, a).world, m) == Worth(s.world, m) + Flow(s, cfg, a, m)
  {
    hide Steady, Coherent, ProperQueries, SparesServer, InputUpdates, Tied, Settled, ApplyUpdates, Simulate, Yield,
         Worth, TakenAlong, ManyWeigh, SpawnMany, DropSet, Handle, Advanced;
    SteadyKnows(s, cfg);
    match a
    case AdvanceTick =>
      AdvanceWorth(s.world, m);
      NothingTaken(s, m);
    case Revoke(refused) => DropSetWorth(s, refused * s.clients.Keys, m);
    case Receive(e) => HandleWorth(s, cfg, e, m);
    case Populate(n, places) =>
      ManyWorth(s.world, n, places, m);
      NothingTaken(s, m);
    case ApplyPending =>
      InputsWorth(s.world, cfg.registry, s.pending, m);
      NothingTaken(s, m);
    case SimulateStep(i) => SimulateYields(s.world, i, m);
  }

  lemma {:induction false} ProperInputs(s: Server, cfg: Config, run: seq<Stage>)
    requires ProperRun(s, cfg, run)
    ensures InputRun(cfg, run)
    decreases |run|
  {
    hide Clears, SendsInputs, DoAll, ProperQueries;
    if run != [] {
      ProperInputs(s, cfg, run[..|run| - 1]);
      assert forall i | 0 <= i < |run| - 1 :: run[..|run| - 1][i] == run[i];
    }
  }

  /** Over every run without a clear, total payload and the number of slots end at what they were
      plus what was spawned, minus what departing agents carried away, plus the yields of the
      simulate calls: nothing else is made or lost. */
  lemma {:induction false} RunLedger(s: Server, cfg: Config, run: seq<Stage>, m: Measure)
    requires Steady(s, cfg) && ProperRun(s, cfg, run) && m != DueCapacity
    ensures Worth(DoAll(s, cfg, run).world, m) == Worth(s.world, m) + Flows(s, cfg, run, m)
    decreases |run|
  {
    hide Steady, Coherent, Worth, Flow, ProperQueries, Clears, SendsInputs, Do;
    if run != [] {
      RunLedger(s, cfg, run[..|run| - 1], m);
      ProperInputs(s, cfg, run[..|run| - 1]);
      SteadyRun(s, cfg, run[..|run| - 1]);
      StageFlows(DoAll(s, cfg, run[..|run| - 1]), cfg, run[|run| - 1], m);
    }
  }
}
