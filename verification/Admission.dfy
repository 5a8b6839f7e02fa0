/** What each event and each stage of a tick does to the records, the agents, the waiting updates and
    the clock. */
module Admission {
  import opened Ecs
  import opened Adapter
  import opened Coherence
  import opened Economy
  import opened Upkeep
  import opened Updates
  import opened Session
  import opened Custody
  import opened Frames
  import opened Scheduler
  import opened Privileges
  import Steering

  // ---- Leaving -------------------------------------------------------------

  /** The client's session agent is this entity. */
  predicate AgentIs(s: Server, c: ClientId, e: Entity) {
    && c in s.clients && s.clients[c].agent.Some?
    && s.clients[c].agent.value in s.world.net.byId && s.world.net.byId[s.clients[c].agent.value] == e
  }

  /** Exactly these clients are removed, and exactly their agents with them. */
  ghost predicate Removes(s: Server, s': Server, gone: set<ClientId>) {
    && s'.pending == s.pending && s'.world.serverTick == s.world.serverTick
    && (forall d :: d in s'.clients <==> d in s.clients && d !in gone)
    && (forall d | d in s'.clients :: s'.clients[d] == s.clients[d])
    && (forall e :: e in s'.world.entities <==>
          e in s.world.entities && forall d | d in gone :: !AgentIs(s, d, e))
    && (forall e | e in s'.world.entities :: s'.world.entities[e] == s.world.entities[e])
  }

  /** The connection is lost, or the service no longer authorises the sender. */
  predicate Ends(s: Server, v: Session.Event) {
    v.Lost? || (v.client in s.clients && !v.authorized)
  }

  /** Such an event removes the client, its agent and nothing else. */
  lemma Leaves(s: Server, cfg: Config, v: Session.Event)
    requires Ends(s, v)
    ensures Removes(s, Do(s, cfg, Receive(v)), {v.client})
  {
    hide WithoutMember, WithoutClient;
  }

  /** Where records are exclusive, every trace of the agent goes with it: its names, its owner, its
      memberships, and the workspace that the index has for the client; no other entry changes. */
  lemma LeavesNoTrace(s: Server, cfg: Config, v: Session.Event, e: Entity)
    requires Ends(s, v) && Exclusive(s.world, s.clients) && AgentIs(s, v.client, e)
    ensures var n, net, net' := s.clients[v.client].agent.value, s.world.net, Do(s, cfg, Receive(v)).world.net;
            && (forall m :: Get(net'.byId, m) == if m == n then None else Get(net.byId, m))
            && (forall x :: Get(net'.byEntity, x) == if x == e then None else Get(net.byEntity, x))
            && (forall m :: Get(net'.owners, m) == if m == n then None else Get(net.owners, m))
            && (forall c: ClientId :: Get(net'.clientWorkspaces, c)
                  == if c == v.client then None else Get(net.clientWorkspaces, c))
            && net'.memberships.Keys == net.memberships.Keys
            && (forall ws | ws in net.memberships :: net'.memberships[ws] == net.memberships[ws] - {e})
            && net'.nextId == net.nextId && net'.nextEntity == net.nextEntity
  {
    assert OwnOrDead(s.world, v.client, s.clients[v.client].agent.value);
  }

  lemma DropsExactly(s: Server, cs: set<ClientId>)
    ensures Removes(s, DropSet(s, cs), cs)
  {
    hide Evicted, WithoutMembers;
    var ns := AgentsOf(s.clients, cs);
    forall e
      ensures e in Victims(s.world, ns) <==> exists d | d in cs :: AgentIs(s, d, e)
    {
      if e in Victims(s.world, ns) {
        var n :| n in ns && n in s.world.net.byId && s.world.net.byId[n] == e;
        var d :| d in cs && d in s.clients && s.clients[d].agent.Some? && s.clients[d].agent.value == n;
        assert AgentIs(s, d, e);
      }
      if d :| d in cs && AgentIs(s, d, e) {
        assert s.clients[d].agent.value in ns;
      }
    }
  }

  /** The periodic check removes the clients that the service refuses. */
  lemma Refuses(s: Server, cfg: Config, refused: set<ClientId>)
    ensures Removes(s, Do(s, cfg, Revoke(refused)), refused)
  {
    hide DropSet;
    DropsExactly(s, refused * s.clients.Keys);
    assert forall d, e | AgentIs(s, d, e) :: d in refused <==> d in refused * s.clients.Keys;
  }

  // ---- Arriving ------------------------------------------------------------

  /** A verified login of a new client removes the player's other clients and records this one,
      without an agent. */
  lemma LogsIn(s: Server, cfg: Config, c: ClientId, authorized: bool, who: Credentials)
    requires c !in s.clients
    ensures var s' := Do(s, cfg, Receive(Message(c, authorized, Auth(Some(who)))));
            && Get(s'.clients, c) == Some(Client(who.player, who.jti, None))
            && Removes(s, s'.(clients := s'.clients - {c}), SessionsOf(s, who.player))
  {
    hide DropSet, Removes;
    DropsExactly(s, SessionsOf(s, who.player));
    assert Ghosts(s.clients, c, who.player) == SessionsOf(s, who.player);
    var s1 := DropSet(s, SessionsOf(s, who.player));
    StillGone(s, s1, c, SessionsOf(s, who.player));
    assert s1.clients[c := Client(who.player, who.jti, None)] - {c} == s1.clients;
  }

  lemma StillGone(s: Server, s': Server, c: ClientId, gone: set<ClientId>)
    requires Removes(s, s', gone) && c !in s.clients
    ensures c !in s'.clients
  {}

  function SessionsOf(s: Server, player: PlayerId): set<ClientId> {
    set d | d in s.clients && s.clients[d].player == player
  }

  /** Who is not logged in is heard only when it logs in; who is logged in need not log in again. */
  lemma Unheard(s: Server, cfg: Config, c: ClientId, authorized: bool, r: Request)
    requires if c in s.clients then authorized && (r.Auth? || r.Other?) else !(r.Auth? && r.verified.Some?)
    ensures Do(s, cfg, Receive(Message(c, authorized, r))) == s
  {}

  /** A client without an agent gets one at the origin, under the id that was next, and it is the only
      thing that changes. */
  lemma Starts(s: Server, cfg: Config, c: ClientId) returns (e: Entity)
    requires Tied(s.world) && c in s.clients && s.clients[c].agent.None?
    ensures var s', n := Do(s, cfg, Receive(Message(c, true, StartSession))), s.world.net.nextId;
            && s.world.net.nextEntity <= e && AgentIs(s', c, e)
            && s'.clients == s.clients[c := s.clients[c].(agent := Some(n))] && s'.pending == s.pending
            && e in s'.world.entities && OfKind(1, Position(0.0, 0.0), s'.world.entities[e])
            && s'.world.entities[e].id == Identity(Some(n), Some(c), true)
            && Get(s'.world.net.clientWorkspaces, c) == s'.world.entities[e].locale.membership
            && (forall x | x in s.world.entities ::
                  x in s'.world.entities && s'.world.entities[x] == s.world.entities[x])
  {
    hide Tied, SpawnKind, KindAt, HomeOf, Ready, OfKind;
    e := NewEntity(s.world);
    var at := Position(0.0, 0.0);
    SpawnKindNew(s.world, AGENT, at);
    KindIs(AGENT, at, HomeOf(s.world), s.world.net.nextId);
    HandlesBounded(s.world);
    IdentityIsNoPart(1, at, Named(KindAt(AGENT, at, HomeOf(s.world)), s.world.net.nextId),
                     Identity(Some(s.world.net.nextId), Some(c), true));
  }

  lemma IdentityIsNoPart(kind: nat, at: Position, parts: Components, id: Identity)
    requires OfKind(kind, at, parts)
    ensures OfKind(kind, at, parts.(id := id))
  {}

  /** One agent each: a client that has one on record gets no other. */
  lemma StartsOnce(s: Server, cfg: Config, c: ClientId)
    requires c in s.clients && s.clients[c].agent.Some?
    ensures Do(s, cfg, Receive(Message(c, true, StartSession))) == s
  {}

  // ---- Updates on their way ------------------------------------------------

  /** What a client sends waits in order, under its own name. */
  lemma Waits(s: Server, cfg: Config, c: ClientId, us: seq<ComponentUpdate>)
    requires c in s.clients
    ensures var s' := Do(s, cfg, Receive(Message(c, true, Send(us))));
            && s'.world == s.world && s'.clients == s.clients && |s'.pending| == |s.pending| + |us|
            && (forall k | 0 <= k < |s.pending| :: s'.pending[k] == s.pending[k])
            && (forall k | 0 <= k < |us| :: s'.pending[|s.pending| + k] == Inbound(c, us[k]))
  {}

  /** The first of the updates that wait takes effect if it is for a live entity that its sender owns
      and of a registered kind, and then on that entity only; the rest follow, and none waits on. */
  lemma TakesEffect(s: Server, cfg: Config, m: Inbound, rest: seq<Inbound>)
    requires s.pending == [m] + rest
    ensures var s', net := Do(s, cfg, ApplyPending), s.world.net;
            var owned := m.update.id in net.byId && net.byId[m.update.id] in s.world.entities
                         && s.world.entities[net.byId[m.update.id]].id.owner == Some(m.client)
                         && m.update.kind in cfg.registry;
            var w1 := if !owned then s.world else
                        var e := net.byId[m.update.id];
                        var write := cfg.registry[m.update.kind];
                        World(s.world.entities[e := write(s.world.serverTick, s.world.entities[e], m.update.payload)],
                              net, s.world.serverTick);
            && s'.pending == [] && s'.clients == s.clients
            && s' == Do(Server(w1, s.clients, rest), cfg, ApplyPending)
  {
    FirstFirst(s.world, cfg.registry, m, rest);
  }

  lemma {:induction false} FirstFirst(w: World, reg: Registry, m: Inbound, rest: seq<Inbound>)
    ensures ApplyUpdates(w, reg, [m] + rest) == ApplyUpdates(ApplyUpdate(w, reg, m), reg, rest)
    decreases |rest|
  {
    hide ApplyUpdate;
    var all := [m] + rest;
    if rest == [] {
      assert all == [m] && all[..0] == [];
    } else {
      FirstFirst(w, reg, m, rest[..|rest| - 1]);
      assert all[..|all| - 1] == [m] + rest[..|rest| - 1] && all[|all| - 1] == rest[|rest| - 1];
    }
  }

  // ---- A tick --------------------------------------------------------------

  /** A tick advances the clock first. Its events come in order after the periodic check, which is due
      every 60 ticks; then the updates are applied, and the simulation is last. The first tick may
      begin with 100 entities. A tick whose poll fails does no more than that. */
  lemma TickShape(tick: nat, spawnAtZero: bool, t: TickInput)
    ensures var r, n := StagesOf(tick, spawnAtZero, t), |t.events|;
            var opening, checks := (if tick == 0 && spawnAtZero then 2 else 1), if tick % 60 == 0 then 1 else 0;
            && |r| == opening + (if t.polled then checks + n + 2 else 0)
            && r[0] == AdvanceTick && (opening == 2 ==> r[1] == Populate(100, t.places))
            && (t.polled && checks == 1 ==> r[opening] == Revoke(t.refused))
            && (t.polled ==> forall k | 0 <= k < n :: r[opening + checks + k] == Receive(t.events[k]))
            && (t.polled ==> r[|r| - 2] == ApplyPending && r[|r| - 1] == SimulateStep(t.inputs))
  {}

  /** Only that one stage moves the clock. */
  lemma StageClock(s: Server, cfg: Config, a: Stage)
    requires SparesServer(cfg.registry) && Tied(s.world)
    ensures var t, t' := s.world.serverTick, Do(s, cfg, a).world.serverTick;
            t' == if a.AdvanceTick? && t < 0xFFFF_FFFF_FFFF_FFFF then t + 1 else t
  {
    hide Tied, SparesServer, ApplyUpdates, Simulate, Handle, DropSet, SpawnMany, SamePart, Wears;
    if a.ApplyPending? {
      UpdatesClock(s.world, cfg.registry, s.pending);
    } else if a.SimulateStep? {
      hide InputStage, DisableAll;
      Steering.SameWorldSize(s.world, a.inputs);
      RestFrame(PlacePart, s.world, a.inputs, 0);
    } else if !a.AdvanceTick? {
      OtherFrame(PlacePart, s, cfg, a, 0);
    }
  }

  lemma {:induction false} UpdatesClock(w: World, reg: Registry, ms: seq<Inbound>)
    ensures ApplyUpdates(w, reg, ms).serverTick == w.serverTick
    decreases |ms|
  {
    if ms != [] { UpdatesClock(w, reg, ms[..|ms| - 1]); }
  }

  /** The number of clock advances in a run. */
  function Advances(run: seq<Stage>): nat {
    if run == [] then 0 else Advances(run[..|run| - 1]) + if run[|run| - 1].AdvanceTick? then 1 else 0
  }

  lemma {:induction false} RunClock(s: Server, cfg: Config, run: seq<Stage>)
    requires SparesServer(cfg.registry) && Tied(s.world) && s.world.serverTick + Advances(run) <= U64_MAX
    ensures Tied(DoAll(s, cfg, run).world)
    ensures DoAll(s, cfg, run).world.serverTick == s.world.serverTick + Advances(run)
    decreases |run|
  {
    hide Tied, SparesServer, Do;
    if run != [] {
      RunClock(s, cfg, run[..|run| - 1]);
      StageClock(DoAll(s, cfg, run[..|run| - 1]), cfg, run[|run| - 1]);
      Steering.TiedAfter(DoAll(s, cfg, run[..|run| - 1]), cfg, run[|run| - 1]);
    }
  }

  /** The stages of `n` ticks from the start on. */
  function Ticks(spawnAtZero: bool, ts: seq<TickInput>): seq<Stage> {
    if ts == [] then []
    else Ticks(spawnAtZero, ts[..|ts| - 1]) + StagesOf(|ts| - 1, spawnAtZero, ts[|ts| - 1])
  }

  lemma {:induction false} AdvancesAdd(a: seq<Stage>, b: seq<Stage>)
    ensures Advances(a + b) == Advances(a) + Advances(b)
    decreases |b|
  {
    if b == [] {
      assert a + b == a;
    } else {
      AdvancesAdd(a, b[..|b| - 1]);
      assert (a + b)[..|a + b| - 1] == a + b[..|b| - 1];
    }
  }

  lemma {:induction false} AdvancesOnce(run: seq<Stage>)
    requires run != [] && run[0].AdvanceTick? && forall k | 1 <= k < |run| :: !run[k].AdvanceTick?
    ensures Advances(run) == 1
    decreases |run|
  {
    if |run| > 1 {
      AdvancesOnce(run[..|run| - 1]);
    } else {
      assert run[..0] == [];
    }
  }

  lemma TickAdvancesOnce(tick: nat, spawnAtZero: bool, t: TickInput)
    ensures Advances(StagesOf(tick, spawnAtZero, t)) == 1
  {
    AdvancesOnce(StagesOf(tick, spawnAtZero, t));
  }

  lemma {:induction false} TicksAdvance(spawnAtZero: bool, ts: seq<TickInput>)
    ensures Advances(Ticks(spawnAtZero, ts)) == |ts|
    decreases |ts|
  {
    hide StagesOf;
    if ts != [] {
      TicksAdvance(spawnAtZero, ts[..|ts| - 1]);
      TickAdvancesOnce(|ts| - 1, spawnAtZero, ts[|ts| - 1]);
      AdvancesAdd(Ticks(spawnAtZero, ts[..|ts| - 1]), StagesOf(|ts| - 1, spawnAtZero, ts[|ts| - 1]));
    }
  }

  /** After `n` ticks the clock of the world shows `n`, whatever happened in them. */
  lemma ClockIsTick(cfg: Config, spawnAtZero: bool, ts: seq<TickInput>)
    requires SparesServer(cfg.registry) && |ts| <= U64_MAX
    ensures DoAll(START, cfg, Ticks(spawnAtZero, ts)).world.serverTick == |ts|
  {
    hide Sound, Exclusive, Settled, SparesServer, DoAll;
    StartTied();
    TicksAdvance(spawnAtZero, ts);
    RunClock(START, cfg, Ticks(spawnAtZero, ts));
  }

  lemma StartTied()
    ensures Tied(START.world)
  {
    Beginnings();
  }
}
