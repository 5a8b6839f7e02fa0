/** Exact respawn times over whole runs of the scheduler: a resource exhausted in one simulate call
    is back 300 simulate calls later, a terminated training target 599 later. */
module RespawnRuns {
  import opened Ecs
  import opened Adapter
  import opened Coherence
  import opened Economy
  import opened Upkeep
  import opened Ledger
  import opened Respawns
  import opened Lineage
  import opened Updates
  import opened Session
  import opened Custody

  // ---- Where pending respawns come from ------------------------------------

  /** An exhausted resource goes, and leaves a tracker that remembers its place and capacity. */
  lemma TrackerLeft(w: World, i: Inputs, x: Entity) returns (e: Entity)
    requires Coherent(w) && x in i.resources && Distinct(i.resources) && IsExhausted(w, x)
    ensures x !in ExhaustStage(w, i).entities && w.net.nextEntity <= e
    ensures Get(ExhaustStage(w, i).entities, e)
         == Some(TrackerParts(w.entities[x].locale.position.value, w.entities[x].cargo.resource.value.total))
  {
    hide Coherent, Tied, Exhausted, SpawnTrackers, DespawnAll, IsExhausted, TrackerParts;
    var xs := Exhausted(w, i.resources);
    CoherentIsTied(w);
    HandlesBounded(w);
    ExhaustedHas(w, x);
    ExhaustExactly(w, i);
    ExhaustedIff(w, i.resources);
    var k :| 0 <= k < |xs| && xs[k] == x;
    TrackersExactly(w, xs);
    TrackerAt(w, xs, k);
    e := w.net.nextEntity + k;
    DespawnAllSpares(SpawnTrackers(w, xs), xs);
  }

  lemma TerminateOther(w: World, y: Entity, x: Entity)
    requires Tied(w) && x != y && x in w.entities
    ensures x in Terminate(w, y).entities && Terminate(w, y).entities[x] == w.entities[x]
    ensures Get(Terminate(w, y).net.byEntity, x) == Get(w.net.byEntity, x)
  {
    hide Tied, Mourn, DropPayload, WithoutMember, WithoutClient;
    if y in w.net.byEntity {
      NameOf(w, y);
      var w2 := BeforeDespawn(w, w.entities[y]);
      BeforeDespawnKeeps(w, w.entities[y]);
      assert Get(w2.net.byEntity, y) == Get(w.net.byEntity, y);
      assert Get(w2.net.byEntity, x) == Get(w.net.byEntity, x);
      hide Keeps, BeforeDespawn;
      TerminateIs(w, y);
      NameOf(w2, y);
    }
  }

  lemma {:induction false} TerminateOthers(w: World, xs: seq<Entity>, x: Entity)
    requires Tied(w) && x in w.entities && x !in xs
    ensures x in TerminateAll(w, xs).entities && TerminateAll(w, xs).entities[x] == w.entities[x]
    ensures Get(TerminateAll(w, xs).net.byEntity, x) == Get(w.net.byEntity, x)
    decreases |xs|
  {
    hide Tied, Terminate;
    if xs != [] {
      assert xs == xs[..|xs| - 1] + [xs[|xs| - 1]];
      TerminateOthers(w, xs[..|xs| - 1], x);
      TerminateAllTied(w, xs[..|xs| - 1]);
      TerminateOther(TerminateAll(w, xs[..|xs| - 1]), xs[|xs| - 1], x);
    }
  }

  /** A training target leaves its timer when it is terminated. */
  lemma TimerSpawned(w: World, x: Entity) returns (e: Entity)
    requires Tied(w) && x in w.entities && x in w.net.byEntity && w.entities[x].clocks.training
    ensures w.net.nextEntity <= e && e !in Terminate(w, x).net.byEntity
    ensures Get(Terminate(w, x).entities, e) == Some(REINIT)
  {
    hide Tied, DropPayload, WithoutMember, WithoutClient, Keeps;
    var c, w1 := w.entities[x], DropPayload(w, w.entities[x]);
    e := w1.net.nextEntity;
    NameOf(w, x);
    DropPayloadKeeps(w, c);
    DropTied(w, c);
    BeforeDespawnKeeps(w, c);
    var w2 := BeforeDespawn(w, c);
    assert Get(w2.net.byEntity, x) == Get(w.net.byEntity, x);
    assert w2 == SpawnLocal(w1, REINIT);
    BeforeDespawnTied(w, c);
    NameOf(w2, x);
    HandlesBounded(w);
    NamedBelow(w1, e);
    assert Terminate(w, x) == Despawn(w2, w.net.byEntity[x]);
  }

  lemma DropTied(w: World, c: Components)
    requires Tied(w)
    ensures Tied(DropPayload(w, c)) && w.net.nextEntity <= DropPayload(w, c).net.nextEntity
  {
    hide Tied, DropPayload;
    DropPayloadKeeps(w, c);
  }

  lemma BeforeDespawnTied(w: World, c: Components)
    requires Tied(w)
    ensures Tied(BeforeDespawn(w, c))
  {
    hide Tied, BeforeDespawn;
    BeforeDespawnKeeps(w, c);
  }

  lemma NamedBelow(w: World, e: Entity)
    requires Tied(w) && w.net.nextEntity <= e
    ensures e !in w.net.byEntity
  {}

  lemma {:induction false} TimersSpawned(w: World, xs: seq<Entity>, x: Entity) returns (e: Entity)
    requires Tied(w) && x in xs && x in w.entities && x in w.net.byEntity && w.entities[x].clocks.training
    ensures w.net.nextEntity <= e && e !in TerminateAll(w, xs).net.byEntity
    ensures Get(TerminateAll(w, xs).entities, e) == Some(REINIT)
    decreases |xs|
  {
    hide Tied, Terminate;
    var xs1, y := xs[..|xs| - 1], xs[|xs| - 1];
    var w1 := TerminateAll(w, xs1);
    assert xs == xs1 + [y];
    TerminateAllTied(w, xs1);
    if x in xs1 {
      e := TimersSpawned(w, xs1, x);
      TerminateUntouched(w1, y, e);
    } else {
      TerminateOthers(w, xs1, x);
      e := TimerSpawned(w1, x);
      TerminateAllAges(w, xs1);
    }
  }

  lemma {:induction false} TerminateAllAges(w: World, xs: seq<Entity>)
    requires Tied(w)
    ensures w.net.nextEntity <= TerminateAll(w, xs).net.nextEntity
    decreases |xs|
  {
    hide Tied, Terminate, Spares;
    if xs != [] {
      TerminateAllAges(w, xs[..|xs| - 1]);
      TerminateAllTied(w, xs[..|xs| - 1]);
      TerminateAges(TerminateAll(w, xs[..|xs| - 1]), xs[|xs| - 1]);
    }
  }

  lemma TerminateAges(w: World, x: Entity)
    requires Tied(w)
    ensures w.net.nextEntity <= Terminate(w, x).net.nextEntity
  {
    hide Tied, Terminate;
    TerminateKeeps(w, x);
  }

  /** The timer of a target killed by the beams is there when they are done. */
  lemma TimerLeft(w: World, i: Inputs, x: Entity) returns (e: Entity)
    requires Coherent(w) && x in Killed(w, i.beams, i.targets)
    requires x in w.entities && x in w.net.byEntity && w.entities[x].clocks.training
    ensures Get(BeamStage(w, i).entities, e) == Some(REINIT)
  {
    SpentAre(w, i.beams, i.targets);
    CoherentIsTied(w);
    HandlesBounded(w);
    hide Coherent, Tied, BeamAll, Killed, Spent, TerminateAll, RemoveBeams;
    var w1, killed := BeamAll(w, i.beams, i.targets), Killed(w, i.beams, i.targets);
    BeamsRetouch(w, i.beams, i.targets);
    BeamsKeepClocks(w, i.beams, i.targets);
    RewriteUntouched(w, w1, x);
    RetouchedKeeps(w, w1);
    e := TimersSpawned(w1, killed, x);
    TerminateAllTied(w1, killed);
    RemoveBeamsUntouched(TerminateAll(w1, killed), Spent(w, i.beams, i.targets), e);
  }

  // ---- Between simulate calls ----------------------------------------------

  /** The local entity `e` is there with these clocks. */
  predicate Ticking(w: World, e: Entity, clocks: Clocks) {
    e in w.entities && w.entities[e].clocks == clocks
  }

  lemma DespawnSparesLocal(w: World, n: NetworkId, e: Entity)
    requires Tied(w) && e in w.entities && e !in w.net.byEntity
    ensures e in Despawn(w, n).entities && Despawn(w, n).entities[e] == w.entities[e]
  {
    hide Tied, WithoutMember, WithoutClient;
    if n in w.net.byId { LinkedAt(w, n); }
  }

  lemma DespawnSetSparesLocal(w: World, ns: set<NetworkId>, e: Entity)
    requires Tied(w) && e in w.entities && e !in w.net.byEntity
    ensures e in DespawnSet(w, ns).entities && DespawnSet(w, ns).entities[e] == w.entities[e]
  {
    forall n | n in ns && n in w.net.byId
      ensures w.net.byId[n] != e
    {
      LinkedAt(w, n);
    }
  }

  lemma SpawnForSparesOld(w: World, kind: nat, at: Position, c: ClientId, e: Entity)
    requires Tied(w) && e in w.entities
    ensures e in SpawnKindFor(w, kind, at, c).entities && SpawnKindFor(w, kind, at, c).entities[e] == w.entities[e]
  {
    HandlesBounded(w);
    SpawnKindNew(w, kind, at);
    hide Tied, SpawnKind, NewEntity;
  }

  lemma AgentSparesOld(w: World, at: Position, c: ClientId, e: Entity)
    requires Tied(w) && e in w.entities
    ensures e in SpawnSessionAgent(w, AGENT, at, c).entities
    ensures SpawnSessionAgent(w, AGENT, at, c).entities[e] == w.entities[e]
  {
    hide Tied, Succeeds, Founded, SpawnKindFor, NewEntity, KindAt, HomeOf;
    HandlesBounded(w);
    SpawnForSparesOld(w, AGENT, at, c, e);
    SpawnForKeeps(w, AGENT, at, c);
  }

  lemma {:induction false} ManySpareOld(w: World, n: nat, places: nat -> Position, e: Entity)
    requires Tied(w) && e in w.entities
    ensures e in SpawnMany(w, n, places).entities && SpawnMany(w, n, places).entities[e] == w.entities[e]
    decreases n
  {
    hide Tied, SpawnKind;
    if n > 0 {
      ManySpareOld(w, n - 1, places, e);
      ManyTied(w, n - 1, places);
      SpawnSparesOld(SpawnMany(w, n - 1, places), STRESS_KINDS[(n - 1) % 5], places(n - 1), e);
    }
  }

  lemma SpawnSparesOld(w: World, kind: nat, at: Position, e: Entity)
    requires Tied(w) && e in w.entities
    ensures e in SpawnKind(w, kind, at).entities && SpawnKind(w, kind, at).entities[e] == w.entities[e]
  {
    hide Tied, SpawnKind, NewEntity, HomeOf, KindAt;
    SpawnKindNew(w, kind, at);
  }

  lemma ManyTied(w: World, n: nat, places: nat -> Position)
    requires Tied(w)
    ensures Tied(SpawnMany(w, n, places))
  {
    hide Tied, SpawnMany;
    SpawnManyKeeps(w, n, places);
  }

  lemma ServeSparesLocal(s: Server, cfg: Config, c: ClientId, r: Request, e: Entity)
    requires Tied(s.world) && c in s.clients && e in s.world.entities && !r.ClearWorld?
    ensures Ticking(Serve(s, cfg, c, r).world, e, s.world.entities[e].clocks)
  {
    hide Tied, SpawnKindFor, SpawnMany, SpawnSessionAgent;
    match r
    case StartSession => AgentSparesOld(s.world, Position(0.0, 0.0), c, e);
    case Spawn(kind, at) => SpawnForSparesOld(s.world, kind, at, c, e);
    case StressTest(count, places) =>
      ManySpareOld(s.world, if count < MAX_STRESS then count else MAX_STRESS, places, e);
    case _ =>
  }

  lemma HandleSparesLocal(s: Server, cfg: Config, v: Event, e: Entity)
    requires Tied(s.world) && e in s.world.entities
    requires e !in s.world.net.byEntity && !(v.Message? && v.request.ClearWorld?)
    ensures Ticking(Handle(s, cfg, v).world, e, s.world.entities[e].clocks)
  {
    hide Tied, Despawn, DespawnSet, Serve;
    if v.client in s.clients && s.clients[v.client].agent.Some? {
      DespawnSparesLocal(s.world, s.clients[v.client].agent.value, e);
    }
    if v.Message? && v.client in s.clients {
      ServeSparesLocal(s, cfg, v.client, v.request, e);
    } else if v.Message? && v.request.Auth? && v.request.verified.Some? {
      var ghosts := Ghosts(s.clients, v.client, v.request.verified.value.player);
      DespawnSetSparesLocal(s.world, AgentsOf(s.clients, ghosts), e);
    }
  }

  /** Between simulate calls only a clear touches a pending respawn. */
  lemma StageSparesLocal(s: Server, cfg: Config, a: Stage, e: Entity)
    requires SparesServer(cfg.registry) && Tied(s.world) && e in s.world.entities && e !in s.world.net.byEntity
    requires !Clears(a) && !a.SimulateStep?
    ensures Ticking(Do(s, cfg, a).world, e, s.world.entities[e].clocks)
  {
    hide Tied, SparesServer, ApplyUpdates, SpawnMany, Handle, DespawnSet;
    match a
    case AdvanceTick =>
    case Revoke(refused) => DespawnSetSparesLocal(s.world, AgentsOf(s.clients, refused * s.clients.Keys), e);
    case Receive(v) => HandleSparesLocal(s, cfg, v, e);
    case Populate(n, places) => ManySpareOld(s.world, n, places, e);
    case ApplyPending => UpdatesSpareServer(s.world, cfg.registry, s.pending);
  }

  // ---- Countdowns over runs ------------------------------------------------

  function Simulates(run: seq<Stage>): nat {
    if run == [] then 0 else Simulates(run[..|run| - 1]) + if run[|run| - 1].SimulateStep? then 1 else 0
  }

  /** Full queries exist for every call: what they visit does not depend on their order. */
  lemma QueriesCanBeFull(w: World, i: Inputs) returns (i': Inputs)
    ensures i' == i.(timers := i'.timers, trackers := i'.trackers) && FullQueries(w, i')
  {
    var all := Listed(BeforeReinit(w, i).entities.Keys);
    i' := i.(timers := all, trackers := all);
    SameBeforeReinit(w, i, i');
    hide BeforeReinit;
    assert forall e | e in BeforeReinit(w, i).entities :: e in all;
  }

  lemma SameBeforeReinit(w: World, i: Inputs, i': Inputs)
    requires i' == i.(timers := i'.timers, trackers := i'.trackers)
    ensures BeforeReinit(w, i') == BeforeReinit(w, i)
  {
    hide MoveAll, ToggleAll, DisableAll, TransferAll, Transfers, Exhausted, SpawnTrackers, DespawnAll, Claims,
         ApplyClaims, Emptied;
    hide BeamAll, TerminateAll, RemoveBeams, Killed, Spent, ShootAll, RegenerateAll;
    assert ThroughCollection(w, i') == ThroughCollection(w, i);
  }

  /** So undisturbed runs of any number of simulate calls exist from every state. */
  lemma {:induction false} UndisturbedRuns(s: Server, cfg: Config, i: Inputs, n: nat) returns (run: seq<Stage>)
    ensures Undisturbed(s, cfg, run) && Simulates(run) == n
    decreases n
  {
    hide FullQueries, Do;
    run := [];
    if n > 0 {
      var rest := UndisturbedRuns(s, cfg, i, n - 1);
      var i' := QueriesCanBeFull(DoAll(s, cfg, rest).world, i);
      run := rest + [SimulateStep(i')];
      assert run[..|run| - 1] == rest;
    }
  }

  /** A run without a clear, in which clients send inputs only and the respawn queries are full. */
  ghost predicate Undisturbed(s: Server, cfg: Config, run: seq<Stage>) {
    run == [] ||
    (&& Undisturbed(s, cfg, run[..|run| - 1]) && !Clears(run[|run| - 1]) && SendsInputs(cfg, run[|run| - 1])
     && (run[|run| - 1].SimulateStep? ==> FullQueries(DoAll(s, cfg, run[..|run| - 1]).world, run[|run| - 1].inputs)))
  }

  /** A state as every run from the start leaves it in which clients send inputs only. */
  ghost predicate Steady(s: Server, cfg: Config) {
    SparesServer(cfg.registry) && InputUpdates(cfg.registry, s.pending) && Tied(s.world) && Settled(s)
  }

  lemma SteadyDo(s: Server, cfg: Config, a: Stage)
    requires Steady(s, cfg) && SendsInputs(cfg, a)
    ensures Steady(Do(s, cfg, a), cfg)
  {
    hide Tied, SparesServer, InputUpdates, SendsInputs, Settled, Do;
    DoKeeps(s, cfg, a);
    DoKeepsInputs(s, cfg, a);
  }

  lemma SteadyRun(s: Server, cfg: Config, run: seq<Stage>)
    requires Steady(s, cfg) && InputRun(cfg, run)
    ensures Steady(DoAll(s, cfg, run), cfg) && Coherent(DoAll(s, cfg, run).world)
  {
    hide Tied, SparesServer, InputUpdates, InputRun, SparesMaster, Coherent, MasterOf, DoAll;
    RunKeepsSettled(s, cfg, run);
  }

  lemma SteadyFromStart(cfg: Config, run: seq<Stage>)
    requires SparesServer(cfg.registry) && InputRun(cfg, run)
    ensures Steady(DoAll(START, cfg, run), cfg)
  {
    hide Sound, Exclusive, Settled, SparesServer, InputRun, DoAll;
    Beginnings();
    RunKeepsSettled(START, cfg, run);
  }

  lemma {:induction false} UndisturbedInputs(s: Server, cfg: Config, run: seq<Stage>)
    requires Undisturbed(s, cfg, run)
    ensures InputRun(cfg, run)
    decreases |run|
  {
    hide Clears, SendsInputs, DoAll, FullQueries;
    if run != [] {
      UndisturbedInputs(s, cfg, run[..|run| - 1]);
      assert forall i | 0 <= i < |run| - 1 :: run[..|run| - 1][i] == run[i];
    }
  }

  lemma SteadyUndisturbed(s: Server, cfg: Config, run: seq<Stage>)
    requires Steady(s, cfg) && Undisturbed(s, cfg, run)
    ensures Steady(DoAll(s, cfg, run), cfg) && Coherent(DoAll(s, cfg, run).world)
  {
    hide Steady, Undisturbed, InputRun, Coherent, DoAll;
    UndisturbedInputs(s, cfg, run);
    SteadyRun(s, cfg, run);
  }

  function Tracker(remaining: nat, r: ResourceRespawn): Clocks {
    NO_CLOCKS.(respawn := Some(r.(remaining := remaining)))
  }

  function Timer(delay: nat, at: Position): Clocks {
    Clocks(true, None, Some(RespawnTimer(delay, at)))
  }

  lemma TickingLocal(s: Server, cfg: Config, e: Entity)
    requires Steady(s, cfg) && IsPending(s.world, e)
    ensures e !in s.world.net.byEntity && Coherent(s.world)
  {
    hide Tied, SparesServer, InputUpdates, SparesMaster, MasterOf;
    PendingIs(s.world, e);
  }

  /** One simulate call on a tracker: one less, or the resource is back. */
  lemma TrackerStep(w: World, i: Inputs, e: Entity, n: nat, r: ResourceRespawn) returns (e': Entity)
    requires Coherent(w) && FullQueries(w, i) && Ticking(w, e, Tracker(n, r))
    ensures n > 1 ==> Ticking(Simulate(w, i), e, Tracker(n - 1, r))
    ensures n <= 1 ==> e !in Simulate(w, i).entities && w.net.nextEntity <= e' && IsBack(Simulate(w, i), e', r)
  {
    hide Coherent, BeforeReinit, Simulate;
    PendingUntouched(w, i, e);
    e' := TrackerCountsDown(w, i, e);
  }

  lemma TimerStep(w: World, i: Inputs, e: Entity, n: nat, at: Position) returns (e': Entity)
    requires Coherent(w) && FullQueries(w, i) && Ticking(w, e, Timer(n, at))
    ensures n > 1 ==> Ticking(Simulate(w, i), e, Timer(n - 1, at))
    ensures n <= 1 ==> e !in Simulate(w, i).entities && w.net.nextEntity <= e' && IsTarget(Simulate(w, i), e', at)
  {
    hide Coherent, BeforeReinit, Simulate, IsTarget;
    PendingUntouched(w, i, e);
    e' := TimerCountsDown(w, i, e);
  }

  lemma SteadyParts(s: Server, cfg: Config)
    requires Steady(s, cfg)
    ensures SparesServer(cfg.registry) && Tied(s.world) && Coherent(s.world)
  {
    hide Tied, SparesServer, InputUpdates, SparesMaster, MasterOf;
  }

  function Calls(a: Stage): nat {
    if a.SimulateStep? then 1 else 0
  }

  lemma SimulateIs(s: Server, cfg: Config, i: Inputs)
    ensures Do(s, cfg, SimulateStep(i)).world == Simulate(s.world, i)
  {
    hide Simulate;
  }

  /** Stages other than simulate calls leave a pending respawn as it is. */
  lemma StageTicks(s: Server, cfg: Config, a: Stage, e: Entity, clocks: Clocks)
    requires Steady(s, cfg) && !Clears(a) && !a.SimulateStep? && IsPending(s.world, e) && Ticking(s.world, e, clocks)
    ensures Ticking(Do(s, cfg, a).world, e, clocks)
  {
    hide Steady, Coherent, Tied, SparesServer, Do, Clears;
    SteadyParts(s, cfg);
    TickingLocal(s, cfg, e);
    StageSparesLocal(s, cfg, a, e);
  }

  lemma TrackerStage(s: Server, cfg: Config, a: Stage, e: Entity, n: nat, r: ResourceRespawn)
    requires Steady(s, cfg) && !Clears(a) && (a.SimulateStep? ==> FullQueries(s.world, a.inputs))
    requires Ticking(s.world, e, Tracker(n, r)) && Calls(a) < n
    ensures Ticking(Do(s, cfg, a).world, e, Tracker(n - Calls(a), r))
  {
    hide Steady, Coherent, Tied, SparesServer, FullQueries, Do, Clears, Simulate, IsBack;
    if a.SimulateStep? {
      SteadyParts(s, cfg);
      SimulateIs(s, cfg, a.inputs);
      var _ := TrackerStep(s.world, a.inputs, e, n, r);
    } else {
      StageTicks(s, cfg, a, e, Tracker(n, r));
    }
  }

  lemma TimerStage(s: Server, cfg: Config, a: Stage, e: Entity, n: nat, at: Position)
    requires Steady(s, cfg) && !Clears(a) && (a.SimulateStep? ==> FullQueries(s.world, a.inputs))
    requires Ticking(s.world, e, Timer(n, at)) && Calls(a) < n
    ensures Ticking(Do(s, cfg, a).world, e, Timer(n - Calls(a), at))
  {
    hide Steady, Coherent, Tied, SparesServer, FullQueries, Do, Clears, Simulate, IsTarget;
    if a.SimulateStep? {
      SteadyParts(s, cfg);
      SimulateIs(s, cfg, a.inputs);
      var _ := TimerStep(s.world, a.inputs, e, n, at);
    } else {
      StageTicks(s, cfg, a, e, Timer(n, at));
    }
  }

  /** As long as fewer simulate calls have passed than it counts, a tracker is still there. */
  lemma {:induction false} TrackerRun(s: Server, cfg: Config, run: seq<Stage>, e: Entity, n: nat, r: ResourceRespawn)
    requires Steady(s, cfg) && Undisturbed(s, cfg, run) && Ticking(s.world, e, Tracker(n, r)) && Simulates(run) < n
    ensures Ticking(DoAll(s, cfg, run).world, e, Tracker(n - Simulates(run), r))
    decreases |run|
  {
    hide Steady, Coherent, Ticking, Tracker, FullQueries, Do, Clears;
    if run != [] {
      TrackerRun(s, cfg, run[..|run| - 1], e, n, r);
      SteadyUndisturbed(s, cfg, run[..|run| - 1]);
      TrackerStage(DoAll(s, cfg, run[..|run| - 1]), cfg, run[|run| - 1], e, n - Simulates(run[..|run| - 1]), r);
    }
  }

  lemma {:induction false} TimerRun(s: Server, cfg: Config, run: seq<Stage>, e: Entity, n: nat, at: Position)
    requires Steady(s, cfg) && Undisturbed(s, cfg, run) && Ticking(s.world, e, Timer(n, at)) && Simulates(run) < n
    ensures Ticking(DoAll(s, cfg, run).world, e, Timer(n - Simulates(run), at))
    decreases |run|
  {
    hide Steady, Coherent, Ticking, Timer, FullQueries, Do, Clears;
    if run != [] {
      TimerRun(s, cfg, run[..|run| - 1], e, n, at);
      SteadyUndisturbed(s, cfg, run[..|run| - 1]);
      TimerStage(DoAll(s, cfg, run[..|run| - 1]), cfg, run[|run| - 1], e, n - Simulates(run[..|run| - 1]), at);
    }
  }

  // ---- What goes stays gone ------------------------------------------------

  lemma AfterBeamsKeeps(w: World, i: Inputs)
    requires Tied(w)
    ensures Keeps(w, RespawnStage(ReinitStage(RegenerateAll(ShootAll(w, i.shots)), i), i))
  {
    hide Tied, Succeeds, Coherent, MasterOf, ShootAll, RegenerateAll, ReinitStage, RespawnStage, Grows;
    var w1 := ShootAll(w, i.shots);
    var w2 := RegenerateAll(w1);
    var w3 := ReinitStage(w2, i);
    ShootAllKeeps(w, i.shots);
    RegenerateRetouches(w1);
    RetouchedKeeps(w1, w2);
    ReinitStageKeeps(w2, i);
    RespawnStageKeeps(w3, i);
    KeepsTransitive(w, w1, w2);
    KeepsTransitive(w, w2, w3);
    KeepsTransitive(w, w3, RespawnStage(w3, i));
  }

  lemma AfterExhaustKeeps(w: World, i: Inputs)
    requires Tied(w)
    ensures var w5 := BeamStage(CollectStage(w, i), i);
            Keeps(w, RespawnStage(ReinitStage(RegenerateAll(ShootAll(w5, i.shots)), i), i))
  {
    hide Tied, Succeeds, Coherent, MasterOf, CollectStage, BeamStage, ShootAll, RegenerateAll, ReinitStage,
         RespawnStage;
    var w4 := CollectStage(w, i);
    var w5 := BeamStage(w4, i);
    CollectStageKeeps(w, i);
    BeamStageKeeps(w4, i);
    AfterBeamsKeeps(w5, i);
    KeepsTransitive(w, w4, w5);
    KeepsTransitive(w, w5, RespawnStage(ReinitStage(RegenerateAll(ShootAll(w5, i.shots)), i), i));
  }

  lemma StaysGone(w: World, w': World, x: Entity)
    requires Keeps(w, w') && x !in w.entities && x < w.net.nextEntity
    ensures x !in w'.entities
  {
    hide Tied, Succeeds, Coherent, MasterOf;
    SucceedsDeadStay(w, w');
  }

  lemma ExhaustedIsGone(w: World, i: Inputs, x: Entity)
    requires Coherent(w) && x in i.resources && Distinct(i.resources)
    requires IsExhausted(ExtractStage(InputStage(w, i), i), x)
    ensures x !in Simulate(w, i).entities && x < w.net.nextEntity
  {
    hide Coherent, Tied, InputStage, ExtractStage, ExhaustStage, CollectStage, BeamStage, ShootAll, RegenerateAll,
         Keeps;
    hide ReinitStage, RespawnStage, IsExhausted;
    var w2 := ExtractStage(InputStage(w, i), i);
    StagesCoherent(w, i);
    CoherentIsTied(w2);
    HandlesBounded(w2);
    ExhaustedHas(w2, x);
    var _ := TrackerLeft(w2, i, x);
    CoherentIsTied(ExhaustStage(w2, i));
    AfterExhaustKeeps(ExhaustStage(w2, i), i);
    ExtractKeepsHandles(w, i);
    ExhaustAges(w2, i);
    StaysGone(ExhaustStage(w2, i), Simulate(w, i), x);
  }

  lemma ExtractKeepsHandles(w: World, i: Inputs)
    ensures ExtractStage(InputStage(w, i), i).net == w.net
  {
    hide InputStage, ExtractStage, ShapesOf;
    InputStageRetouches(w, i);
    ExtractStageRetouches(InputStage(w, i), i);
  }

  lemma ExhaustAges(w: World, i: Inputs)
    requires Tied(w)
    ensures w.net.nextEntity <= ExhaustStage(w, i).net.nextEntity
  {
    hide Tied, ExhaustStage;
    ExhaustStageKeeps(w, i);
  }

  lemma {:induction false} TerminatedIsGone(w: World, xs: seq<Entity>, x: Entity)
    requires Tied(w) && x in xs && x in w.entities && x in w.net.byEntity
    ensures x !in TerminateAll(w, xs).entities
    decreases |xs|
  {
    hide Tied, Terminate;
    var xs1, y := xs[..|xs| - 1], xs[|xs| - 1];
    var w1 := TerminateAll(w, xs1);
    assert xs == xs1 + [y];
    TerminateAllTied(w, xs1);
    TerminateAllAges(w, xs1);
    HandlesBounded(w);
    if x in xs1 {
      TerminatedIsGone(w, xs1, x);
      TerminateKeeps(w1, y);
    } else {
      TerminateOthers(w, xs1, x);
      TerminateTakes(w1, x);
    }
  }

  lemma TerminateTakes(w: World, x: Entity)
    requires Tied(w) && x in w.entities && x in w.net.byEntity
    ensures x !in Terminate(w, x).entities
  {
    hide Tied, Mourn, DropPayload, WithoutMember, WithoutClient, Keeps;
    NameOf(w, x);
    var w2 := BeforeDespawn(w, w.entities[x]);
    BeforeDespawnKeeps(w, w.entities[x]);
    assert Get(w2.net.byEntity, x) == Get(w.net.byEntity, x);
    BeforeDespawnTied(w, w.entities[x]);
    TerminateIs(w, x);
    hide BeforeDespawn;
    NameOf(w2, x);
  }

  /** The entity is a live training target that some beam of the call kills. */
  ghost predicate IsKilledTarget(w: World, i: Inputs, x: Entity) {
    x in KilledTargets(w, i)
  }

  lemma KilledIsGone(w: World, i: Inputs, x: Entity)
    requires Coherent(w) && IsKilledTarget(w, i, x) && x < w.net.nextEntity
    ensures x !in Simulate(w, i).entities
  {
    hide Coherent, Tied, ThroughCollection, BeamStage, ShootAll, RegenerateAll, Keeps, ReinitStage, RespawnStage,
         Killed;
    var w4 := ThroughCollection(w, i);
    StagesCoherent(w, i);
    CoherentIsTied(w);
    CoherentIsTied(w4);
    KilledLeavesBeams(w4, i, x);
    CoherentIsTied(BeamStage(w4, i));
    AfterBeamsKeeps(BeamStage(w4, i), i);
    BeamStageAges(w, i);
    StaysGone(BeamStage(w4, i), Simulate(w, i), x);
  }

  lemma BeamStageAges(w: World, i: Inputs)
    requires Tied(w)
    ensures w.net.nextEntity <= BeamStage(ThroughCollection(w, i), i).net.nextEntity
  {
    hide Tied, ThroughCollection, BeamStage;
    ThroughCollectionKeeps(w, i);
    BeamStageKeeps(ThroughCollection(w, i), i);
  }

  lemma KilledLeavesBeams(w: World, i: Inputs, x: Entity)
    requires Tied(w) && x in TargetsIn(w, Killed(w, i.beams, i.targets))
    ensures x !in BeamStage(w, i).entities
  {
    hide Tied, BeamAll, Killed, TerminateAll, RemoveBeams, Spent;
    var w1, killed := BeamAll(w, i.beams, i.targets), Killed(w, i.beams, i.targets);
    SameTargets(w, i);
    BeamsRetouch(w, i.beams, i.targets);
    RetouchedTied(w, w1);
    TerminatedIsGone(w1, killed, x);
    RemovedBeams(w, i);
  }

  // ---- The first and the last simulate call --------------------------------

  /** A resource that runs dry during a simulate call is gone after it, and has a tracker at 300. */
  lemma ExhaustionCounted(w: World, i: Inputs, x: Entity) returns (e: Entity, r: ResourceRespawn)
    requires Coherent(w) && FullQueries(w, i) && x in i.resources && Distinct(i.resources)
    requires IsExhausted(ExtractStage(InputStage(w, i), i), x)
    ensures var c := ExtractStage(InputStage(w, i), i).entities[x];
            r.at == c.locale.position.value && r.capacity == c.cargo.resource.value.total
    ensures Ticking(Simulate(w, i), e, Tracker(300, r))
  {
    hide Coherent, BeforeReinit, InputStage, ExtractStage, ExhaustStage, Simulate;
    StagesCoherent(w, i);
    var w2 := ExtractStage(InputStage(w, i), i);
    var c := w2.entities[x];
    r := ResourceRespawn(301, c.locale.position.value, c.cargo.resource.value.total);
    e := TrackerLeft(w2, i, x);
    AfterExhaustUntouched(w, i, e);
    var _ := TrackerEnds(w, i, e);
  }

  /** A training target killed during a simulate call has a timer at 599 after it. */
  lemma TerminationCounted(w: World, i: Inputs, x: Entity) returns (e: Entity)
    requires Coherent(w) && FullQueries(w, i) && IsKilledTarget(w, i, x)
    ensures Ticking(Simulate(w, i), e, Timer(599, Position(50.0, 50.0)))
  {
    hide Coherent, Tied, InputStage, ExtractStage, ExhaustStage, ThroughCollection, BeamStage, Simulate, Killed;
    hide RegenerateAll, ShootAll;
    StagesCoherent(w, i);
    var w4 := ThroughCollection(w, i);
    e := TimerLeft(w4, i, x);
    CoherentIsTied(BeamStage(w4, i));
    AfterBeamsUntouched(BeamStage(w4, i), i, e);
    var _ := TimerEnds(w, i, e);
  }

  /** A state in which an id was given out has its master workspace. */
  lemma SteadyHomed(s: Server, cfg: Config)
    requires Steady(s, cfg) && s.world.net.nextId > 1
    ensures Homed(s.world)
  {
    hide Tied, SparesServer, InputUpdates, SparesMaster, Coherent, MasterOf;
  }

  lemma NamedMeansHomed(s: Server, cfg: Config, x: Entity)
    requires Steady(s, cfg) && x in s.world.net.byEntity
    ensures s.world.net.nextId > 1 && Homed(s.world)
  {
    hide SparesServer, InputUpdates, Settled;
    NamedIds(s.world, x);
    hide Tied;
    SteadyHomed(s, cfg);
  }

  lemma NamedIds(w: World, x: Entity)
    requires Tied(w) && x in w.net.byEntity
    ensures w.net.nextId > 1
  {
    NameOf(w, x);
    LinkedAt(w, w.net.byEntity[x]);
  }

  lemma SteadyAges(s: Server, cfg: Config, run: seq<Stage>)
    requires Steady(s, cfg) && Undisturbed(s, cfg, run)
    ensures DeadStay(s.world, DoAll(s, cfg, run).world)
  {
    hide Tied, SparesServer, InputUpdates, Settled, Clears, DoAll, DeadStay;
    UndisturbedNoClear(s, cfg, run);
    RunDeadStay(s, cfg, run);
  }

  lemma {:induction false} UndisturbedNoClear(s: Server, cfg: Config, run: seq<Stage>)
    requires Undisturbed(s, cfg, run)
    ensures forall i | 0 <= i < |run| :: !Clears(run[i])
    decreases |run|
  {
    hide Clears, DoAll, FullQueries;
    if run != [] {
      UndisturbedNoClear(s, cfg, run[..|run| - 1]);
      assert forall i | 0 <= i < |run| - 1 :: run[..|run| - 1][i] == run[i];
    }
  }

  /** The entity that comes back for `e` is the one in its place among the new ones. */
  ghost predicate ReturnsAs(w: World, i: Inputs, e: Entity, e': Entity) {
    var xs, base := DueTrackers(w, i), ThroughReinit(w, i).net.nextEntity;
    base <= e' < base + |xs| && xs[e' - base] == e
  }

  ghost predicate TargetReturnsAs(w: World, i: Inputs, e: Entity, e': Entity) {
    var xs, base := DueTimers(w, i), BeforeReinit(w, i).net.nextEntity;
    base <= e' < base + |xs| && xs[e' - base] == e
  }

  lemma LastTracker(w: World, i: Inputs, e: Entity, r: ResourceRespawn) returns (e': Entity)
    requires Homed(w) && FullQueries(w, i) && Ticking(w, e, Tracker(1, r))
    ensures ResourcesMatch(w, i) && ReturnsAs(w, i, e, e') && w.net.nextEntity <= e'
    ensures e !in Simulate(w, i).entities && IsBack(Simulate(w, i), e', r)
  {
    hide Coherent, MasterOf, BeforeReinit, ThroughReinit, Simulate, IsBack, TickTrackers, DoneTrackers, Marked;
    NewResources(w, i);
    var xs, w1 := DueTrackers(w, i), ThroughReinit(w, i);
    TrackerIsDue(w, i, e, r);
    var k :| 0 <= k < |xs| && xs[k] == e;
    e' := w1.net.nextEntity + k;
    SameReturn(Simulate(w, i), e', r, w1.entities[e].clocks.respawn.value);
  }

  lemma TrackerIsDue(w: World, i: Inputs, e: Entity, r: ResourceRespawn)
    requires Coherent(w) && FullQueries(w, i) && Ticking(w, e, Tracker(1, r))
    ensures e in DueTrackers(w, i)
    ensures var w1 := ThroughReinit(w, i);
            e in w1.entities && w1.entities[e].clocks.respawn == Some(r.(remaining := 1))
  {
    hide Coherent, BeforeReinit, ReinitStage, TickTrackers, DoneTrackers, ThroughReinit;
    PendingUntouched(w, i, e);
    BeforeReinitCoherent(w, i);
    ReinitUntouched(BeforeReinit(w, i), i, e);
    ThroughReinitIs(w, i);
    TickedAt(ThroughReinit(w, i), i, e);
  }

  lemma BeforeReinitCoherent(w: World, i: Inputs)
    requires Coherent(w)
    ensures Coherent(BeforeReinit(w, i))
  {
    hide Coherent, InputStage, ExtractStage, ExhaustStage, CollectStage, BeamStage, ShootAll, RegenerateAll;
    StagesCoherent(w, i);
  }

  lemma LastTimer(w: World, i: Inputs, e: Entity, at: Position) returns (e': Entity)
    requires Homed(w) && FullQueries(w, i) && Ticking(w, e, Timer(1, at))
    ensures TargetsMatch(w, i) && TargetReturnsAs(w, i, e, e') && w.net.nextEntity <= e'
    ensures e !in Simulate(w, i).entities && IsTarget(Simulate(w, i), e', at)
  {
    hide Coherent, MasterOf, BeforeReinit, Simulate, IsTarget, TickTimers, DoneTimers, Marked;
    NewTargets(w, i);
    var xs := DueTimers(w, i);
    PendingUntouched(w, i, e);
    TimerTickedAt(BeforeReinit(w, i), i, e);
    var k :| 0 <= k < |xs| && xs[k] == e;
    e' := BeforeReinit(w, i).net.nextEntity + k;
  }

  /** A resource exhausted in one simulate call is gone for good. Its tracker waits through the next
      299 calls, and in the 300th a new resource is there, in place and with full capacity: the
      one that answers to this tracker, where the new resources of the call answer one to one to
      the trackers that run out in it. */
  lemma ResourceReturns(s: Server, cfg: Config, i0: Inputs, x: Entity, run: seq<Stage>, i1: Inputs)
    returns (e: Entity, e': Entity, r: ResourceRespawn)
    requires Steady(s, cfg) && FullQueries(s.world, i0) && x in i0.resources && Distinct(i0.resources)
    requires IsExhausted(ExtractStage(InputStage(s.world, i0), i0), x)
    requires Undisturbed(Do(s, cfg, SimulateStep(i0)), cfg, run) && Simulates(run) == 299
    requires FullQueries(DoAll(Do(s, cfg, SimulateStep(i0)), cfg, run).world, i1)
    ensures var c := ExtractStage(InputStage(s.world, i0), i0).entities[x];
            r.at == c.locale.position.value && r.capacity == c.cargo.resource.value.total
    ensures var s1 := Do(s, cfg, SimulateStep(i0)); var w := DoAll(s1, cfg, run).world; var w' := Simulate(w, i1);
            && x !in s1.world.entities && x !in w.entities && x !in w'.entities
            && Ticking(w, e, Tracker(1, r)) && e !in w'.entities
            && w.net.nextEntity <= e' && IsBack(w', e', r)
            && ReturnsAs(w, i1, e, e') && ResourcesMatch(w, i1)
  {
    hide Steady, Coherent, Ticking, Tracker, FullQueries, Undisturbed, Simulate, DoAll, Do, IsExhausted, IsBack;
    hide InputStage, ExtractStage, Homed, ReturnsAs, ResourcesMatch, DeadStay;
    var s1 := Do(s, cfg, SimulateStep(i0));
    SteadyParts(s, cfg);
    SteadyDo(s, cfg, SimulateStep(i0));
    SimulateIs(s, cfg, i0);
    e, r := ExhaustionCounted(s.world, i0, x);
    ExhaustedIsGone(s.world, i0, x);
    TrackerRun(s1, cfg, run, e, 300, r);
    SteadyUndisturbed(s1, cfg, run);
    ExhaustedWasNamed(s, cfg, i0, x, run);
    e' := LastTracker(DoAll(s1, cfg, run).world, i1, e, r);
    GoneForGood(s, cfg, i0, x, run, i1);
  }

  lemma ExhaustedWasNamed(s: Server, cfg: Config, i0: Inputs, x: Entity, run: seq<Stage>)
    requires Steady(s, cfg) && IsExhausted(ExtractStage(InputStage(s.world, i0), i0), x)
    requires Undisturbed(Do(s, cfg, SimulateStep(i0)), cfg, run)
    ensures Homed(DoAll(Do(s, cfg, SimulateStep(i0)), cfg, run).world)
  {
    hide Steady, Undisturbed, Simulate, DoAll, Do, IsExhausted, InputStage, ExtractStage, Homed;
    ExhaustedHas(ExtractStage(InputStage(s.world, i0), i0), x);
    ExtractKeepsHandles(s.world, i0);
    NamedMeansHomed(s, cfg, x);
    LaterHomed(s, cfg, i0, run);
  }

  lemma LaterHomed(s: Server, cfg: Config, i0: Inputs, run: seq<Stage>)
    requires Steady(s, cfg) && s.world.net.nextId > 1 && Undisturbed(Do(s, cfg, SimulateStep(i0)), cfg, run)
    ensures Homed(DoAll(Do(s, cfg, SimulateStep(i0)), cfg, run).world)
    ensures DeadStay(s.world, DoAll(Do(s, cfg, SimulateStep(i0)), cfg, run).world)
  {
    hide Steady, Undisturbed, Simulate, DoAll, Do, Homed;
    var s1 := Do(s, cfg, SimulateStep(i0));
    SteadyDo(s, cfg, SimulateStep(i0));
    SteadyParts(s, cfg);
    DoDeadStay(s, cfg, SimulateStep(i0));
    SteadyAges(s1, cfg, run);
    DeadStayTransitive(s.world, s1.world, DoAll(s1, cfg, run).world);
    SteadyUndisturbed(s1, cfg, run);
    SteadyHomed(DoAll(s1, cfg, run), cfg);
  }

  /** What is gone after the first call is gone in the end. */
  lemma GoneForGood(s: Server, cfg: Config, i0: Inputs, x: Entity, run: seq<Stage>, i1: Inputs)
    requires Steady(s, cfg) && x < s.world.net.nextEntity && x !in Simulate(s.world, i0).entities
    requires Undisturbed(Do(s, cfg, SimulateStep(i0)), cfg, run)
    ensures var w := DoAll(Do(s, cfg, SimulateStep(i0)), cfg, run).world;
            x !in w.entities && x !in Simulate(w, i1).entities
  {
    hide Steady, Undisturbed, Simulate, DoAll, Do;
    var s1 := Do(s, cfg, SimulateStep(i0));
    SteadyDo(s, cfg, SimulateStep(i0));
    SteadyParts(s, cfg);
    SimulateIs(s, cfg, i0);
    DoDeadStay(s, cfg, SimulateStep(i0));
    SteadyAges(s1, cfg, run);
    SteadyUndisturbed(s1, cfg, run);
    var s2 := DoAll(s1, cfg, run);
    SteadyParts(s2, cfg);
    SimulateIs(s2, cfg, i1);
    DoDeadStay(s2, cfg, SimulateStep(i1));
    hide Tied, Coherent, SparesServer;
  }

  /** A training target terminated in one simulate call is gone for good, and in the 599th after it
      a new one is there: the one that answers to its timer, where the new targets of the call
      answer one to one to the timers that run out in it. */
  lemma TargetReturns(s: Server, cfg: Config, i0: Inputs, x: Entity, run: seq<Stage>, i1: Inputs)
    returns (e: Entity, e': Entity)
    requires Steady(s, cfg) && FullQueries(s.world, i0) && IsKilledTarget(s.world, i0, x)
    requires Undisturbed(Do(s, cfg, SimulateStep(i0)), cfg, run) && Simulates(run) == 598
    requires FullQueries(DoAll(Do(s, cfg, SimulateStep(i0)), cfg, run).world, i1)
    ensures var s1 := Do(s, cfg, SimulateStep(i0)); var w := DoAll(s1, cfg, run).world; var w' := Simulate(w, i1);
            && x !in s1.world.entities && x !in w.entities && x !in w'.entities
            && Ticking(w, e, Timer(1, Position(50.0, 50.0))) && e !in w'.entities
            && w.net.nextEntity <= e' && IsTarget(w', e', Position(50.0, 50.0))
            && TargetReturnsAs(w, i1, e, e') && TargetsMatch(w, i1)
  {
    hide Steady, Coherent, Ticking, Timer, FullQueries, Undisturbed, Simulate, DoAll, Do, IsTarget, IsKilledTarget;
    hide Homed, TargetReturnsAs, TargetsMatch, DeadStay;
    var s1 := Do(s, cfg, SimulateStep(i0));
    SteadyParts(s, cfg);
    SteadyDo(s, cfg, SimulateStep(i0));
    SteadyBounded(s, cfg);
    KilledWasThere(s.world, i0, x);
    SimulateIs(s, cfg, i0);
    e := TerminationCounted(s.world, i0, x);
    KilledIsGone(s.world, i0, x);
    TimerRun(s1, cfg, run, e, 599, Position(50.0, 50.0));
    SteadyUndisturbed(s1, cfg, run);
    KilledWasNamed(s, cfg, i0, x);
    LaterHomed(s, cfg, i0, run);
    e' := LastTimer(DoAll(s1, cfg, run).world, i1, e, Position(50.0, 50.0));
    GoneForGood(s, cfg, i0, x, run, i1);
  }

  /** Nothing before the beams makes a target. */
  lemma KilledWasThere(w: World, i: Inputs, x: Entity)
    requires Coherent(w) && IsKilledTarget(w, i, x)
    ensures x in w.entities
  {
    hide Coherent, Tied, InputStage, ExtractStage, ExhaustStage, CollectStage, Killed;
    StagesCoherent(w, i);
    var w2 := ExtractStage(InputStage(w, i), i);
    var w3 := ExhaustStage(w2, i);
    var w4 := CollectStage(w3, i);
    ExtractInherits(w, i, TargetMark);
    ExhaustInherits(w2, i, TargetMark);
    CollectInherits(w3, i, TargetMark);
    InheritsTransitive(w, w2, w3, TargetMark);
    InheritsTransitive(w, w3, w4, TargetMark);
    CoherentIsTied(w4);
    NameOf(w4, x);
    LinkedAt(w4, w4.net.byEntity[x]);
  }

  lemma SteadyBounded(s: Server, cfg: Config)
    requires Steady(s, cfg)
    ensures forall e | e in s.world.entities :: e < s.world.net.nextEntity
  {
    hide Steady, Tied;
    SteadyParts(s, cfg);
    HandlesBounded(s.world);
  }

  lemma KilledWasNamed(s: Server, cfg: Config, i: Inputs, x: Entity)
    requires Steady(s, cfg) && x in s.world.entities && IsKilledTarget(s.world, i, x)
    ensures s.world.net.nextId > 1
  {
    hide Steady, Tied, Coherent, ThroughCollection, Killed, Keeps;
    SteadyParts(s, cfg);
    SteadyBounded(s, cfg);
    NamedEarlier(s.world, i, x);
    NamedIds(s.world, x);
  }

  lemma NamedEarlier(w: World, i: Inputs, x: Entity)
    requires Tied(w) && x < w.net.nextEntity && x in ThroughCollection(w, i).net.byEntity
    ensures x in w.net.byEntity
  {
    hide Tied, ThroughCollection, Succeeds;
    ThroughCollectionKeeps(w, i);
    if x !in w.net.byEntity { UnnamedLater(w, ThroughCollection(w, i), x); }
  }
}
