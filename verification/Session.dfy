/** The scheduler's view of the server: who is authenticated, which session agent each client was
    given, and what the stages of a tick do to that and to the world. The answers of the
    authentication service come with the events. */
module Session {
  import opened Ecs
  import opened Adapter
  import opened Coherence
  import opened Economy
  import opened Upkeep
  import opened Updates
  import AntiReplay

  type PlayerId = nat

  datatype Client = Client(player: PlayerId, jti: string, agent: Option<NetworkId>)

  datatype Server = Server(world: World, clients: map<ClientId, Client>, pending: seq<Inbound>)

  const START := Server(EMPTY, map[], [])

  datatype Config = Config(registry: Registry, dev: bool)

  datatype Credentials = Credentials(player: PlayerId, jti: string)

  datatype Request =
    | Auth(verified: Option<Credentials>)
    | StartSession
    | ClearWorld
    | Spawn(kind: nat, at: Position)
    | StressTest(count: nat, places: nat -> Position)
    | Send(updates: seq<ComponentUpdate>)
    | Other

  /** A lost connection (disconnect, closed session, reset stream), or a message together with the
      service's answer to whether the sender's session is still authorised. */
  datatype Event = Lost(client: ClientId) | Message(client: ClientId, authorized: bool, request: Request)

  /** The stages of a tick that touch this state. */
  datatype Stage =
    | AdvanceTick
    | Revoke(refused: set<ClientId>)
    | Receive(event: Event)
    | Populate(count: nat, places: nat -> Position)
    | ApplyPending
    | SimulateStep(inputs: Inputs)

  // ---- Removing clients ----------------------------------------------------

  function Drop(s: Server, c: ClientId): Server {
    if c !in s.clients then s
    else
      var w := if s.clients[c].agent.Some? then Despawn(s.world, s.clients[c].agent.value) else s.world;
      s.(world := w, clients := s.clients - {c})
  }

  function Victims(w: World, ns: set<NetworkId>): set<Entity> {
    set n | n in ns && n in w.net.byId :: w.net.byId[n]
  }

  function Evicted(w: World, es: set<Entity>): set<ClientId> {
    set e | e in es && e in w.entities && w.entities[e].id.session && w.entities[e].id.owner.Some? ::
      w.entities[e].id.owner.value
  }

  function WithoutMembers(m: map<NetworkId, set<Entity>>, es: set<Entity>): map<NetworkId, set<Entity>> {
    map ws | ws in m :: m[ws] - es
  }

  /** Several despawns, whatever their order. */
  function DespawnSet(w: World, ns: set<NetworkId>): World {
    var es := Victims(w, ns);
    w.(entities := w.entities - es,
       net := w.net.(byId := w.net.byId - ns, byEntity := w.net.byEntity - es,
                     owners := w.net.owners - (ns * w.net.byId.Keys),
                     memberships := WithoutMembers(w.net.memberships, es),
                     clientWorkspaces := w.net.clientWorkspaces - Evicted(w, es)))
  }

  function AgentsOf(clients: map<ClientId, Client>, cs: set<ClientId>): set<NetworkId> {
    set c | c in cs && c in clients && clients[c].agent.Some? :: clients[c].agent.value
  }

  /** Several clients removed together with their agents. */
  function DropSet(s: Server, cs: set<ClientId>): Server {
    s.(world := DespawnSet(s.world, AgentsOf(s.clients, cs)), clients := s.clients - cs)
  }

  // ---- The event loop ------------------------------------------------------

  /** The other sessions of a player. */
  function Ghosts(clients: map<ClientId, Client>, c: ClientId, player: PlayerId): set<ClientId> {
    set d | d in clients && clients[d].player == player && d != c
  }

  function Login(s: Server, c: ClientId, who: Credentials): Server {
    var s1 := DropSet(s, Ghosts(s.clients, c, who.player));
    s1.(clients := s1.clients[c := Client(who.player, who.jti, None)])
  }

  predicate Privileged(cfg: Config, client: Client) {
    client.jti == "admin" || cfg.dev
  }

  const STRESS_KINDS := [AGENT, HEAVY_AGENT, CARRIER_AGENT, RESOURCE, DATA_DROP]
  const MAX_STRESS: nat := 1000

  function SpawnMany(w: World, n: nat, places: nat -> Position): World {
    if n == 0 then w else SpawnKind(SpawnMany(w, n - 1, places), STRESS_KINDS[(n - 1) % 5], places(n - 1))
  }

  /** An agent is spawned only for a client that has none on record. */
  function Begin(s: Server, c: ClientId): Server {
    if c !in s.clients || s.clients[c].agent.Some? then s
    else
      s.(world := SpawnSessionAgent(s.world, AGENT, Position(0.0, 0.0), c),
         clients := s.clients[c := s.clients[c].(agent := Some(s.world.net.nextId))])
  }

  /** Only the issuer's record is reset. */
  function ClearBy(s: Server, c: ClientId): Server {
    if c !in s.clients then s
    else s.(world := Clear(s.world), clients := s.clients[c := s.clients[c].(agent := None)])
  }

  function Stamp(c: ClientId, us: seq<ComponentUpdate>): seq<Inbound> {
    seq(|us|, i requires 0 <= i < |us| => Inbound(c, us[i]))
  }

  function Serve(s: Server, cfg: Config, c: ClientId, r: Request): Server
    requires c in s.clients
  {
    match r
    case Auth(_) => s
    case StartSession => Begin(s, c)
    case ClearWorld => if Privileged(cfg, s.clients[c]) then ClearBy(s, c) else s
    case Spawn(kind, at) =>
      if Privileged(cfg, s.clients[c]) then s.(world := SpawnKindFor(s.world, kind, at, c)) else s
    case StressTest(count, places) =>
      if Privileged(cfg, s.clients[c]) then
        s.(world := SpawnMany(s.world, if count < MAX_STRESS then count else MAX_STRESS, places))
      else s
    case Send(us) => s.(pending := s.pending + Stamp(c, us))
    case Other => s
  }

  function Handle(s: Server, cfg: Config, e: Event): Server {
    match e
    case Lost(c) => Drop(s, c)
    case Message(c, authorized, r) =>
      if c in s.clients then
        if authorized then Serve(s, cfg, c, r) else Drop(s, c)
      else if r.Auth? && r.verified.Some? then Login(s, c, r.verified.value)
      else s
  }

  // ---- Runs ----------------------------------------------------------------

  function Advanced(w: World): World {
    w.(serverTick := AntiReplay.SatAdd(w.serverTick, 1))
  }

  function Do(s: Server, cfg: Config, a: Stage): Server {
    match a
    case AdvanceTick => s.(world := Advanced(s.world))
    case Revoke(refused) => DropSet(s, refused * s.clients.Keys)
    case Receive(e) => Handle(s, cfg, e)
    case Populate(n, places) => s.(world := SpawnMany(s.world, n, places))
    case ApplyPending => s.(world := ApplyUpdates(s.world, cfg.registry, s.pending), pending := [])
    case SimulateStep(i) => s.(world := Simulate(s.world, i))
  }

  function DoAll(s: Server, cfg: Config, run: seq<Stage>): Server {
    if run == [] then s else Do(DoAll(s, cfg, run[..|run| - 1]), cfg, run[|run| - 1])
  }

  // ---- Despawning a set ----------------------------------------------------

  lemma DespawnSetEmpty(w: World)
    ensures DespawnSet(w, {}) == w
  {
    assert Victims(w, {}) == {} && Evicted(w, {}) == {};
    forall ws | ws in w.net.memberships
      ensures w.net.memberships[ws] - {} == w.net.memberships[ws]
    {}
  }

  lemma VictimsStep(w: World, ns: set<NetworkId>, n: NetworkId)
    ensures Victims(w, ns + {n}) == Victims(w, ns) + if n in w.net.byId then {w.net.byId[n]} else {}
  {}

  lemma VictimsApart(w: World, ns: set<NetworkId>, n: NetworkId)
    requires Tied(w) && n in w.net.byId && n !in ns
    ensures w.net.byId[n] !in Victims(w, ns) && w.net.byId[n] in w.entities
  {
    LinkedAt(w, n);
  }

  lemma EvictedStep(w: World, es: set<Entity>, e: Entity)
    ensures Evicted(w, es + {e})
         == Evicted(w, es)
            + if e in w.entities && w.entities[e].id.session && w.entities[e].id.owner.Some?
              then {w.entities[e].id.owner.value} else {}
  {}

  lemma DespawnSetStep(w: World, ns: set<NetworkId>, n: NetworkId)
    requires Tied(w)
    ensures DespawnSet(w, ns + {n}) == Despawn(DespawnSet(w, ns), n)
  {
    VictimsStep(w, ns, n);
    if n in w.net.byId && n !in ns {
      VictimsApart(w, ns, n);
      EvictedStep(w, Victims(w, ns), w.net.byId[n]);
      hide Tied, Victims, Evicted, Despawn, DespawnSet;
      SameNet(w, ns, n, Victims(w, ns), w.net.byId[n]);
    } else {
      hide Tied, Victims, Evicted, Despawn, DespawnSet;
      NothingMore(w, ns, n);
    }
  }

  lemma NothingMore(w: World, ns: set<NetworkId>, n: NetworkId)
    requires n !in w.net.byId || n in ns
    ensures DespawnSet(w, ns + {n}) == Despawn(DespawnSet(w, ns), n)
  {
    hide Evicted, WithoutMembers;
    assert Victims(w, ns + {n}) == Victims(w, ns);
    hide Victims;
    assert w.net.byId - (ns + {n}) == w.net.byId - ns;
    assert (ns + {n}) * w.net.byId.Keys == ns * w.net.byId.Keys;
  }

  lemma MembersStep(m: map<NetworkId, set<Entity>>, es: set<Entity>, e: Entity)
    ensures WithoutMembers(m, es + {e}) == WithoutMember(WithoutMembers(m, es), e)
  {
    var m1, m2 := WithoutMembers(m, es + {e}), WithoutMember(WithoutMembers(m, es), e);
    forall ws | ws in m
      ensures m1[ws] == m2[ws]
    {
      assert m[ws] - (es + {e}) == (m[ws] - es) - {e};
    }
  }

  lemma SameNet(w: World, ns: set<NetworkId>, n: NetworkId, es: set<Entity>, e: Entity)
    requires n in w.net.byId && n !in ns && e == w.net.byId[n] && e !in es && e in w.entities
    requires es == Victims(w, ns) && Victims(w, ns + {n}) == es + {e}
    requires Evicted(w, es + {e})
          == Evicted(w, es)
             + if w.entities[e].id.session && w.entities[e].id.owner.Some? then {w.entities[e].id.owner.value} else {}
    ensures DespawnSet(w, ns + {n}) == Despawn(DespawnSet(w, ns), n)
  {
    hide Victims, Evicted, WithoutMembers, WithoutMember;
    var w1, w2 := DespawnSet(w, ns), DespawnSet(w, ns + {n});
    assert w2.entities == w1.entities - {e};
    assert w2.net.byId == w1.net.byId - {n} && w2.net.byEntity == w1.net.byEntity - {e};
    assert w2.net.owners == w1.net.owners - {n};
    MembersStep(w.net.memberships, es, e);
    assert w2.net.clientWorkspaces == WithoutClient(w1.net.clientWorkspaces, w.entities[e].id);
  }

  /** The clients of a set can be dropped one at a time, in any order. */
  lemma DropSetStep(s: Server, cs: set<ClientId>, c: ClientId)
    requires Tied(s.world) && c !in cs
    ensures DropSet(s, cs + {c}) == Drop(DropSet(s, cs), c)
  {
    hide Tied, DespawnSet, Despawn;
    var ns := AgentsOf(s.clients, cs);
    assert s.clients - (cs + {c}) == (s.clients - cs) - {c};
    if c in s.clients && s.clients[c].agent.Some? {
      assert AgentsOf(s.clients, cs + {c}) == ns + {s.clients[c].agent.value};
      DespawnSetStep(s.world, ns, s.clients[c].agent.value);
    } else {
      assert AgentsOf(s.clients, cs + {c}) == ns;
      assert c !in s.clients ==> s.clients - (cs + {c}) == s.clients - cs;
    }
  }

  lemma DropSetEmpty(s: Server)
    ensures DropSet(s, {}) == s
  {
    DespawnSetEmpty(s.world);
    assert AgentsOf(s.clients, {}) == {};
  }
}
