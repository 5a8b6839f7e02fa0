/** The component store of the server: what one entity carries, and the state of
    the world adapter, that is the store together with the redundant structures
    (id bimap, owner cache, workspace index) kept beside it. */
module Ecs {

  datatype Option<+T> = None | Some(value: T)

  type Entity = nat
  type NetworkId = nat
  type ClientId = nat

  const U16_LIMIT: int := 0x1_0000
  const U64_MAX: nat := 0xFFFF_FFFF_FFFF_FFFF

  type U16 = n: nat | n < 0x1_0000
  type U64 = n: nat | n <= U64_MAX

  /** Arithmetic on u16 without overflow checks. */
  function Wrap(n: int): U16 {
    n % 0x1_0000
  }

  function Min(a: int, b: int): int {
    if a <= b then a else b
  }

  function Max(a: int, b: int): int {
    if a <= b then b else a
  }

  function Get<K, V>(m: map<K, V>, k: K): Option<V> {
    if k in m then Some(m[k]) else None
  }

  /** No element twice, as a query visits its entities. */
  ghost predicate Distinct<T>(xs: seq<T>) {
    forall i, j | 0 <= i < j < |xs| :: xs[i] != xs[j]
  }

  /** A set as a sequence. */
  lemma {:induction false} Listed<T>(es: set<T>) returns (xs: seq<T>)
    ensures Distinct(xs) && forall e | e in es :: e in xs
    ensures forall e | e in xs :: e in es
    decreases |es|
  {
    if es == {} {
      xs := [];
    } else {
      var e :| e in es;
      var rest := Listed(es - {e});
      assert e !in rest;
      xs := rest + [e];
    }
  }

  datatype Position = Position(x: real, y: real)

  const ORIGIN := Position(0.0, 0.0)

  function DistanceSquared(p: Position, q: Position): real {
    (p.x - q.x) * (p.x - q.x) + (p.y - q.y) * (p.y - q.y)
  }

  // ---- Components ----------------------------------------------------------

  datatype Identity = Identity(networked: Option<NetworkId>, owner: Option<ClientId>, session: bool)

  datatype Bounds = Bounds(min: Position, max: Position)

  /** Where an entity is; a workspace has a name and bounds, and members name their workspace. */
  datatype Locale = Locale(
    position: Option<Position>, workspace: Option<string>, bounds: Option<Bounds>, membership: Option<NetworkId>)

  datatype DataStore = DataStore(payload: U16, capacity: U16)

  datatype Resource = Resource(remaining: U16, total: U16)

  datatype Cargo = Cargo(store: Option<DataStore>, resource: Option<Resource>, drop: Option<U16>)

  datatype Pool = Pool(current: U16, max: U16)

  datatype Pools = Pools(priority: Option<Pool>, integrity: Option<Pool>, shell: Option<Pool>, regen: Option<nat>)

  datatype Action = Move(x: real, y: real) | ToggleExtraction(target: NetworkId) | OtherAction

  datatype InputCommand = InputCommand(tick: nat, actions: seq<Action>)

  datatype LatestInput = LatestInput(command: InputCommand, lastClientTick: nat)

  datatype ExtractionBeam =
    ExtractionBeam(active: bool, target: Option<NetworkId>, range: real, rate: U16, lastSeen: Option<nat>)

  datatype BeamMarker = BeamMarker(origin: Position, maxRange: real, owner: NetworkId, lifetime: nat)

  datatype Gear = Gear(input: Option<LatestInput>, extractor: Option<ExtractionBeam>, beam: Option<BeamMarker>)

  datatype ResourceRespawn = ResourceRespawn(remaining: nat, at: Position, capacity: U16)

  datatype RespawnTimer = RespawnTimer(delay: nat, at: Position)

  datatype Clocks = Clocks(training: bool, respawn: Option<ResourceRespawn>, timer: Option<RespawnTimer>)

  datatype Components =
    Components(id: Identity, locale: Locale, cargo: Cargo, pools: Pools, gear: Gear, clocks: Clocks)

  /** Everything about an entity but the values of its gameplay components. */
  datatype Shape = Shape(id: Identity, workspace: Option<string>, bounds: Option<Bounds>, membership: Option<NetworkId>,
                         store: bool, resource: bool, drop: bool, pooled: bool, beam: bool,
                         training: bool, tracker: bool, timer: bool)

  function ShapeOf(c: Components): Shape {
    Shape(c.id, c.locale.workspace, c.locale.bounds, c.locale.membership,
          c.cargo.store.Some?, c.cargo.resource.Some?, c.cargo.drop.Some?,
          c.pools.priority.Some? || c.pools.integrity.Some? || c.pools.shell.Some?, c.gear.beam.Some?,
          c.clocks.training, c.clocks.respawn.Some?, c.clocks.timer.Some?)
  }

  const NO_ID := Identity(None, None, false)
  const NOWHERE := Locale(None, None, None, None)
  const NO_CARGO := Cargo(None, None, None)
  const NO_POOLS := Pools(None, None, None, None)
  const NO_GEAR := Gear(None, None, None)
  const NO_CLOCKS := Clocks(false, None, None)
  const BARE := Components(NO_ID, NOWHERE, NO_CARGO, NO_POOLS, NO_GEAR, NO_CLOCKS)

  // ---- Entity kinds --------------------------------------------------------

  const AGENT: nat := 1
  const AI_AGENT: nat := 2
  const HEAVY_AGENT: nat := 3
  const CARRIER_AGENT: nat := 4
  const RESOURCE: nat := 5
  const DATA_DROP: nat := 6
  const TRAINING_TARGET: nat := 10
  const BEAM: nat := 20

  const MASTER: string := "Playground_Master"
  const MASTER_BOUNDS := Bounds(Position(-250.0, -250.0), Position(250.0, 250.0))
  const RESOURCE_PAYLOAD: U16 := 100

  function FullPool(n: U16): Option<Pool> {
    Some(Pool(n, n))
  }

  function AgentParts(priority: U16, integrity: U16, range: real, rate: U16): Components {
    BARE.(cargo := NO_CARGO.(store := Some(DataStore(0, 500))),
          pools := Pools(FullPool(priority), FullPool(integrity), None, Some(0)),
          gear := NO_GEAR.(extractor := Some(ExtractionBeam(false, None, range, rate, None))))
  }

  /** The components that spawn_kind inserts for a kind of entity, before it adds
      the identity, the position and the workspace membership. */
  function Archetype(kind: nat, at: Position): Components {
    if kind == AGENT || kind == AI_AGENT then AgentParts(100, 200, 15.0, 2)
    else if kind == HEAVY_AGENT then AgentParts(500, 1500, 0.0, 0)
    else if kind == CARRIER_AGENT then AgentParts(200, 600, 0.0, 0)
    else if kind == TRAINING_TARGET then
      BARE.(clocks := NO_CLOCKS.(training := true), pools := Pools(FullPool(50), FullPool(100), None, Some(0)))
    else if kind == BEAM then BARE.(gear := NO_GEAR.(beam := Some(BeamMarker(at, 200.0, 0, 300))))
    else if kind == DATA_DROP then BARE.(cargo := NO_CARGO.(drop := Some(0)))
    else if kind == RESOURCE then
      BARE.(cargo := NO_CARGO.(resource := Some(Resource(RESOURCE_PAYLOAD, RESOURCE_PAYLOAD))),
            pools := NO_POOLS.(shell := FullPool(500)))
    else BARE
  }

  // ---- The adapter's state -------------------------------------------------

  /** Everything the adapter keeps beside the component store. */
  datatype Net = Net(
    nextEntity: nat,                               // every handle handed out so far is below it
    byId: map<NetworkId, Entity>,                  // the bimap, left to right
    byEntity: map<Entity, NetworkId>,              // the bimap, right to left
    owners: map<NetworkId, ClientId>,              // owner cache
    nextId: nat,                                   // the NetworkId allocator
    memberships: map<NetworkId, set<Entity>>,      // workspace index
    clientWorkspaces: map<ClientId, NetworkId>)    // workspace index

  const NO_NET := Net(0, map[], map[], map[], 1, map[], map[])

  datatype World = World(entities: map<Entity, Components>, net: Net, serverTick: U64)

  const EMPTY := World(map[], NO_NET, 0)

  type Shapes = map<Entity, Shape>

  function ShapesOf(m: map<Entity, Components>): Shapes {
    map e | e in m :: ShapeOf(m[e])
  }

  /** Overwrites the components of one entity. */
  function Put(w: World, e: Entity, c: Components): World {
    w.(entities := w.entities[e := c])
  }

  /** A fresh entity without a network id (a tracker, say). */
  function SpawnLocal(w: World, c: Components): World {
    w.(entities := w.entities[w.net.nextEntity := c], net := w.net.(nextEntity := w.net.nextEntity + 1))
  }

  function RemoveLocal(w: World, e: Entity): World {
    w.(entities := w.entities - {e})
  }

  lemma ShapesAfterPut(m: map<Entity, Components>, e: Entity, c: Components)
    ensures ShapesOf(m[e := c]) == ShapesOf(m)[e := ShapeOf(c)]
  {}

  lemma ShapesAfterRemove(m: map<Entity, Components>, e: Entity)
    ensures ShapesOf(m - {e}) == ShapesOf(m) - {e}
  {}
}
