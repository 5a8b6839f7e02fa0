/** The tick scheduler as the server runs it, on the world adapter object. */
module Scheduler {
  import opened Ecs
  import opened Adapter
  import opened Coherence
  import opened Economy
  import opened Updates
  import opened Upkeep
  import opened Session
  import opened Custody
  import BevyWorld

  /** What one tick takes from outside: whether the transport could be polled, the clients whose
      session the service refuses, the events, the simulation's inputs, and random places. */
  datatype TickInput = TickInput(
    polled: bool, refused: set<ClientId>, events: seq<Event>, inputs: Inputs, places: nat -> Position)

  /** The stages of one tick, in order. */
  function StagesOf(tick: nat, spawnAtZero: bool, t: TickInput): seq<Stage> {
    Opening(tick, spawnAtZero, t)
    + if t.polled then Checking(tick, t) + Receiving(t.events) + [ApplyPending, SimulateStep(t.inputs)] else []
  }

  function Opening(tick: nat, spawnAtZero: bool, t: TickInput): seq<Stage> {
    [AdvanceTick] + if tick == 0 && spawnAtZero then [Populate(100, t.places)] else []
  }

  function Checking(tick: nat, t: TickInput): seq<Stage> {
    if tick % 60 == 0 then [Revoke(t.refused)] else []
  }

  function Receiving(events: seq<Event>): seq<Stage> {
    seq(|events|, i requires 0 <= i < |events| => Receive(events[i]))
  }

  /** Clients send inputs only. */
  ghost predicate InputEvents(cfg: Config, t: TickInput) {
    forall i | 0 <= i < |t.events| :: SendsInputs(cfg, Receive(t.events[i]))
  }

  lemma InputStages(cfg: Config, tick: nat, spawnAtZero: bool, t: TickInput)
    requires InputEvents(cfg, t)
    ensures InputRun(cfg, StagesOf(tick, spawnAtZero, t))
  {
    var a, b, c := Opening(tick, spawnAtZero, t), Checking(tick, t), Receiving(t.events);
    assert forall i | 0 <= i < |c| :: SendsInputs(cfg, c[i]);
    assert StagesOf(tick, spawnAtZero, t)
        == if t.polled then a + b + c + [ApplyPending, SimulateStep(t.inputs)] else a;
  }

  lemma DoSnoc(s: Server, cfg: Config, run: seq<Stage>, a: Stage)
    ensures DoAll(s, cfg, run + [a]) == Do(DoAll(s, cfg, run), cfg, a)
  {
    hide Do;
    assert (run + [a])[..|run|] == run;
  }

  class TickScheduler {
    var clients: map<ClientId, Client>
    var currentTick: nat
    var updates: seq<Inbound>
    const dev: bool
    const spawnAtZero: bool

    constructor (dev: bool, spawnAtZero: bool)
      ensures clients == map[] && currentTick == 0 && updates == []
      ensures this.dev == dev && this.spawnAtZero == spawnAtZero
    {
      clients, currentTick, updates := map[], 0, [];
      this.dev, this.spawnAtZero := dev, spawnAtZero;
    }

    ghost function Model(world: BevyWorld.BevyWorldAdapter): Server
      reads this, world
    {
      Server(world.Model(), clients, updates)
    }

    ghost function Settings(world: BevyWorld.BevyWorldAdapter): Config {
      Config(world.replicators, dev)
    }

    method DropClient(world: BevyWorld.BevyWorldAdapter, c: ClientId)
      modifies `clients, world
      ensures Model(world) == Drop(old(Model(world)), c)
    {
      hide Despawn;
      if c in clients {
        var agent := clients[c].agent;
        clients := clients - {c};
        if agent.Some? {
          var _ := world.DespawnNetworked(agent.value);
        }
      }
    }

    /** Drops the clients one by one, in whatever order they come. */
    method DropClients(world: BevyWorld.BevyWorldAdapter, gone: set<ClientId>)
      requires Tied(world.Model())
      modifies `clients, world
      ensures Model(world) == DropSet(old(Model(world)), gone)
    {
      hide Tied, Drop, DropSet;
      ghost var s := Model(world);
      DropSetEmpty(s);
      var rest := gone;
      ghost var done: set<ClientId> := {};
      while rest != {}
        invariant done + rest == gone && done !! rest && Model(world) == DropSet(s, done)
        decreases rest
      {
        var c :| c in rest;
        DropClient(world, c);
        DropSetStep(s, done, c);
        rest, done := rest - {c}, done + {c};
      }
    }

    method RevokeSessions(world: BevyWorld.BevyWorldAdapter, refused: set<ClientId>)
      requires Tied(world.Model())
      modifies `clients, world
      ensures Model(world) == Do(old(Model(world)), Settings(world), Revoke(refused))
    {
      hide Tied, DropSet;
      var gone: set<ClientId> := {};
      var rest := clients.Keys;
      while rest != {}
        invariant rest <= clients.Keys && gone == refused * (clients.Keys - rest)
        decreases rest
      {
        var c :| c in rest;
        if c in refused {
          gone := gone + {c};
        }
        rest := rest - {c};
      }
      assert gone == refused * clients.Keys;
      DropClients(world, gone);
    }

    method LogIn(world: BevyWorld.BevyWorldAdapter, c: ClientId, who: Credentials)
      requires Tied(world.Model())
      modifies `clients, world
      ensures Model(world) == Login(old(Model(world)), c, who)
    {
      hide Tied, DespawnSet;
      var ghosts: set<ClientId> := {};
      var rest := clients.Keys;
      while rest != {}
        invariant rest <= clients.Keys && ghosts == Ghosts(clients, c, who.player) - rest
        decreases rest
      {
        var d :| d in rest;
        if clients[d].player == who.player && d != c {
          ghosts := ghosts + {d};
        }
        rest := rest - {d};
      }
      assert ghosts == Ghosts(clients, c, who.player);
      DropClients(world, ghosts);
      clients := clients[c := Client(who.player, who.jti, None)];
    }

    method SpawnAll(world: BevyWorld.BevyWorldAdapter, n: nat, places: nat -> Position)
      modifies world
      ensures Model(world) == old(Model(world)).(world := SpawnMany(old(world.Model()), n, places))
    {
      hide SpawnKind;
      var i := 0;
      while i < n
        invariant 0 <= i <= n && world.Model() == SpawnMany(old(world.Model()), i, places)
      {
        var _ := world.SpawnKind(STRESS_KINDS[i % 5], places(i));
        i := i + 1;
      }
    }

    method StartSessionFor(world: BevyWorld.BevyWorldAdapter, c: ClientId)
      modifies `clients, world
      ensures Model(world) == Begin(old(Model(world)), c)
    {
      hide SpawnSessionAgent;
      if c in clients && clients[c].agent.None? {
        var id := world.SpawnSessionAgent(AGENT, Position(0.0, 0.0), c);
        clients := clients[c := clients[c].(agent := Some(id))];
      }
    }

    method ServeRequest(world: BevyWorld.BevyWorldAdapter, c: ClientId, r: Request)
      requires Tied(world.Model()) && c in clients
      modifies `clients, `updates, world
      ensures Model(world) == Serve(old(Model(world)), Settings(world), c, r)
    {
      hide Tied, SpawnKindFor, SpawnMany, Begin, Clear;
      var privileged := clients[c].jti == "admin" || dev;
      match r
      case StartSession => StartSessionFor(world, c);
      case ClearWorld =>
        if privileged {
          world.ClearWorld();
          clients := clients[c := clients[c].(agent := None)];
        }
      case Spawn(kind, at) =>
        if privileged {
          var _ := world.SpawnKindFor(kind, at, c);
        }
      case StressTest(count, places) =>
        if privileged {
          SpawnAll(world, if count < 1000 then count else 1000, places);
        }
      case Send(us) => QueueUpdates(c, us);
      case _ =>
    }

    method QueueUpdates(c: ClientId, us: seq<ComponentUpdate>)
      modifies `updates
      ensures updates == old(updates) + Stamp(c, us)
    {
      var i := 0;
      while i < |us|
        invariant 0 <= i <= |us| && updates == old(updates) + Stamp(c, us)[..i]
      {
        updates := updates + [Inbound(c, us[i])];
        i := i + 1;
      }
      assert Stamp(c, us)[..i] == Stamp(c, us);
    }

    method HandleEvent(world: BevyWorld.BevyWorldAdapter, e: Event)
      requires Tied(world.Model())
      modifies `clients, `updates, world
      ensures Model(world) == Do(old(Model(world)), Settings(world), Receive(e))
    {
      hide Tied, Drop, Serve, Login;
      match e
      case Lost(c) => DropClient(world, c);
      case Message(c, authorized, r) =>
        if c in clients {
          if authorized {
            ServeRequest(world, c, r);
          } else {
            DropClient(world, c);
          }
        } else if r.Auth? && r.verified.Some? {
          LogIn(world, c, r.verified.value);
        }
    }

    method HandleEvents(world: BevyWorld.BevyWorldAdapter, events: seq<Event>)
      requires Tied(world.Model()) && SparesServer(world.replicators)
      modifies `clients, `updates, world
      ensures Tied(world.Model())
      ensures Model(world) == DoAll(old(Model(world)), Settings(world), Receiving(events))
    {
      hide Tied, SparesServer, Do;
      ghost var s, run := Model(world), Receiving(events);
      var i := 0;
      while i < |events|
        invariant 0 <= i <= |events| && Tied(world.Model()) && Model(world) == DoAll(s, Settings(world), run[..i])
      {
        assert run[..i + 1] == run[..i] + [Receive(events[i])];
        DoSnoc(s, Settings(world), run[..i], Receive(events[i]));
        DoKeeps(Model(world), Settings(world), Receive(events[i]));
        HandleEvent(world, events[i]);
        i := i + 1;
      }
      assert run[..i] == run;
    }

    /** The updates collected from the events; the owner cache is complete, so the cached path has
        the effect of the plain one. */
    method ApplyCollected(world: BevyWorld.BevyWorldAdapter)
      requires Tied(world.Model()) && SparesServer(world.replicators)
      modifies `updates, world
      ensures Model(world) == Do(old(Model(world)), Settings(world), ApplyPending)
    {
      TiedCache(world.Model());
      hide Tied, SparesServer, ApplyUpdates, CacheSound, CacheFull;
      world.ApplyUpdates(updates);
      updates := [];
    }

    method Simulate(world: BevyWorld.BevyWorldAdapter, i: Inputs)
      modifies world
      ensures Model(world) == Do(old(Model(world)), Settings(world), SimulateStep(i))
    {
      hide Economy.Simulate;
      world.Simulate(i);
    }

    /** The tick advances first, and at the very first tick a recording populates the world. */
    method Open(world: BevyWorld.BevyWorldAdapter, tick: nat, t: TickInput)
      modifies world
      ensures Model(world) == DoAll(old(Model(world)), Settings(world), Opening(tick, spawnAtZero, t))
    {
      hide SpawnMany;
      ghost var s, cfg := Model(world), Settings(world);
      world.AdvanceTick();
      OpeningIs(s, cfg, tick, spawnAtZero, t);
      if tick == 0 && spawnAtZero {
        SpawnAll(world, 100, t.places);
      }
    }

    /** One tick: the world and the client records change exactly as its stages say, so agents stay
        with their clients, and with inputs only the adapter stays coherent. */
    method TickStep(world: BevyWorld.BevyWorldAdapter, t: TickInput)
      requires Tied(world.Model()) && SparesServer(world.replicators)
      modifies this, world
      ensures currentTick == old(currentTick) + 1 && Tied(world.Model())
      ensures Model(world) == DoAll(old(Model(world)), Settings(world), StagesOf(old(currentTick), spawnAtZero, t))
      ensures old(Sound(Model(world))) ==> Sound(Model(world))
      ensures && old(Settled(Model(world)) && InputUpdates(world.replicators, updates))
              && InputEvents(Settings(world), t) ==>
                Settled(Model(world)) && InputUpdates(world.replicators, updates)
    {
      hide Tied, Sound, Settled, SparesServer, InputUpdates, InputEvents, Do, DoAll, Opening, Checking, Receiving;
      ghost var s, cfg := Model(world), Settings(world);
      var tick := currentTick;
      currentTick := currentTick + 1;
      Open(world, tick, t);
      StagesJoin(s, cfg, tick, spawnAtZero, t);
      RunKeeps(s, cfg, StagesOf(tick, spawnAtZero, t));
      if Settled(s) && InputUpdates(cfg.registry, s.pending) && InputEvents(cfg, t) {
        InputStages(cfg, tick, spawnAtZero, t);
        RunKeepsSettled(s, cfg, StagesOf(tick, spawnAtZero, t));
      }
      RunKeeps(s, cfg, Opening(tick, spawnAtZero, t));
      if t.polled {
        ghost var s1 := Model(world);
        RunKeeps(s1, cfg, Checking(tick, t));
        CheckingIs(s1, cfg, tick, t);
        if tick % 60 == 0 {
          RevokeSessions(world, t.refused);
        }
        HandleEvents(world, t.events);
        DoKeeps(Model(world), cfg, ApplyPending);
        ApplyCollected(world);
        Simulate(world, t.inputs);
      }
    }
  }

  lemma OpeningIs(s: Server, cfg: Config, tick: nat, spawnAtZero: bool, t: TickInput)
    ensures DoAll(s, cfg, Opening(tick, spawnAtZero, t))
         == if tick == 0 && spawnAtZero then Do(Do(s, cfg, AdvanceTick), cfg, Populate(100, t.places))
            else Do(s, cfg, AdvanceTick)
  {
    hide Do;
    DoSnoc(s, cfg, [], AdvanceTick);
    assert [] + [AdvanceTick] == [AdvanceTick];
    DoSnoc(s, cfg, [AdvanceTick], Populate(100, t.places));
  }

  lemma CheckingIs(s: Server, cfg: Config, tick: nat, t: TickInput)
    ensures DoAll(s, cfg, Checking(tick, t)) == if tick % 60 == 0 then Do(s, cfg, Revoke(t.refused)) else s
  {
    hide Do;
    DoSnoc(s, cfg, [], Revoke(t.refused));
    assert [] + [Revoke(t.refused)] == [Revoke(t.refused)];
  }

  lemma {:induction false} DoConcat(s: Server, cfg: Config, run: seq<Stage>, more: seq<Stage>)
    ensures DoAll(s, cfg, run + more) == DoAll(DoAll(s, cfg, run), cfg, more)
    decreases |more|
  {
    hide Do;
    if more == [] {
      assert run + more == run;
    } else {
      DoConcat(s, cfg, run, more[..|more| - 1]);
      assert run + more == (run + more[..|more| - 1]) + [more[|more| - 1]];
      DoSnoc(s, cfg, run + more[..|more| - 1], more[|more| - 1]);
    }
  }

  ghost function Closed(s: Server, cfg: Config, i: Inputs): Server {
    Do(Do(s, cfg, ApplyPending), cfg, SimulateStep(i))
  }

  lemma StagesJoin(s: Server, cfg: Config, tick: nat, spawnAtZero: bool, t: TickInput)
    ensures var s1 := DoAll(s, cfg, Opening(tick, spawnAtZero, t));
            var s2 := DoAll(DoAll(s1, cfg, Checking(tick, t)), cfg, Receiving(t.events));
            DoAll(s, cfg, StagesOf(tick, spawnAtZero, t)) == if t.polled then Closed(s2, cfg, t.inputs) else s1
  {
    hide Do, Opening, Checking, Receiving;
    var a, b, c := Opening(tick, spawnAtZero, t), Checking(tick, t), Receiving(t.events);
    var run := StagesOf(tick, spawnAtZero, t);
    if t.polled {
      assert run == ((a + b + c) + [ApplyPending]) + [SimulateStep(t.inputs)];
      DoSnoc(s, cfg, (a + b + c) + [ApplyPending], SimulateStep(t.inputs));
      DoSnoc(s, cfg, a + b + c, ApplyPending);
      DoConcat(s, cfg, a + b, c);
      DoConcat(s, cfg, a, b);
    } else {
      assert run == a;
    }
  }
}
