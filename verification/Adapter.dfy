/** The world adapter's life-cycle operations, as functions of its state: spawning,
    despawning and clearing, and the lookups that go through the workspace index. */
module Adapter {
  import opened Ecs

  // ---- Lookups -------------------------------------------------------------

  predicate IsMaster(shapes: Shapes, byEntity: map<Entity, NetworkId>, e: Entity) {
    e in shapes && shapes[e].workspace == Some(MASTER) && e in byEntity
  }

  /** The first master workspace among the entities below `n`. */
  function MasterBelow(shapes: Shapes, byEntity: map<Entity, NetworkId>, n: nat): Option<NetworkId> {
    if n == 0 then None
    else
      var r := MasterBelow(shapes, byEntity, n - 1);
      if r.None? && IsMaster(shapes, byEntity, n - 1) then Some(byEntity[n - 1]) else r
  }

  function MasterIn(shapes: Shapes, net: Net): Option<NetworkId> {
    MasterBelow(shapes, net.byEntity, net.nextEntity)
  }

  function MasterOf(w: World): Option<NetworkId> {
    MasterIn(ShapesOf(w.entities), w.net)
  }

  function EntityWorkspace(w: World, n: NetworkId): Option<NetworkId> {
    if n in w.net.byId && w.net.byId[n] in w.entities then w.entities[w.net.byId[n]].locale.membership else None
  }

  /** The lookup that the replication filter uses: the index first, then the scan. */
  function ClientWorkspace(w: World, c: ClientId): Option<NetworkId> {
    if c in w.net.clientWorkspaces then Some(w.net.clientWorkspaces[c]) else MasterOf(w)
  }

  lemma {:induction false} MasterBelowFound(shapes: Shapes, byEntity: map<Entity, NetworkId>, n: nat, e: Entity)
    requires e < n && IsMaster(shapes, byEntity, e)
    ensures MasterBelow(shapes, byEntity, n).Some?
  {
    if e < n - 1 {
      MasterBelowFound(shapes, byEntity, n - 1, e);
    }
  }

  lemma {:induction false} MasterBelowWitness(shapes: Shapes, byEntity: map<Entity, NetworkId>, n: nat)
    returns (e: Entity)
    requires MasterBelow(shapes, byEntity, n).Some?
    ensures e < n && IsMaster(shapes, byEntity, e) && MasterBelow(shapes, byEntity, n) == Some(byEntity[e])
  {
    if MasterBelow(shapes, byEntity, n - 1).Some? {
      e := MasterBelowWitness(shapes, byEntity, n - 1);
    } else {
      e := n - 1;
    }
  }

  // ---- Spawning ------------------------------------------------------------

  function LinkNext(net: Net, n: NetworkId): Net {
    net.(nextEntity := net.nextEntity + 1,
         byId := net.byId[n := net.nextEntity], byEntity := net.byEntity[net.nextEntity := n])
  }

  /** A fresh entity under the given network id. */
  function SpawnAs(w: World, n: NetworkId, c: Components): World {
    w.(entities := w.entities[w.net.nextEntity := c.(id := c.id.(networked := Some(n)))], net := LinkNext(w.net, n))
  }

  function Allocate(w: World): World {
    w.(net := w.net.(nextId := w.net.nextId + 1))
  }

  function JoinWorkspace(net: Net, ws: NetworkId, e: Entity): Net {
    net.(memberships := net.memberships[ws := (if ws in net.memberships then net.memberships[ws] else {}) + {e}])
  }

  function KindAt(kind: nat, at: Position, ws: NetworkId): Components {
    Archetype(kind, at).(locale := Locale(Some(at), None, None, Some(ws)))
  }

  /** The tail of spawn_kind, once the id is allocated and the workspace is known. */
  function Place(w: World, n: NetworkId, kind: nat, at: Position, ws: NetworkId): World {
    var w' := SpawnAs(w, n, KindAt(kind, at, ws));
    w'.(net := JoinWorkspace(w'.net, ws, w.net.nextEntity))
  }

  function MasterParts(ws: NetworkId): Components {
    BARE.(locale := Locale(None, Some(MASTER), Some(MASTER_BOUNDS), Some(ws)))
  }

  /** The networked entity that becomes the master workspace when none exists. */
  function SpawnMaster(w: World): World {
    SpawnAs(Allocate(w), w.net.nextId, MasterParts(w.net.nextId))
  }

  lemma SpawnMasterIsFound(w: World)
    ensures MasterOf(SpawnMaster(w)).Some?
  {
    var w' := SpawnMaster(w);
    MasterBelowFound(ShapesOf(w'.entities), w'.net.byEntity, w'.net.nextEntity, w.net.nextEntity);
  }

  /** spawn_kind; the new entity's network id is `w.net.nextId`. */
  function SpawnKind(w: World, kind: nat, at: Position): World
    decreases if MasterOf(w).None? then 1 else 0
  {
    var n := w.net.nextId;
    match MasterOf(w)
    case Some(ws) => Place(Allocate(w), n, kind, at, ws)
    case None =>
      SpawnMasterIsFound(Allocate(w));
      Place(SpawnKind(SpawnMaster(Allocate(w)), RESOURCE, Position(30.0, 0.0)), n, kind, at, n + 1)
  }

  function SetOwner(w: World, n: NetworkId, c: ClientId): World {
    if n in w.net.byId && w.net.byId[n] in w.entities then
      var parts := w.entities[w.net.byId[n]];
      Put(w, w.net.byId[n], parts.(id := parts.id.(owner := Some(c)))).(net := w.net.(owners := w.net.owners[n := c]))
    else w
  }

  function SpawnKindFor(w: World, kind: nat, at: Position, c: ClientId): World {
    SetOwner(SpawnKind(w, kind, at), w.net.nextId, c)
  }

  function MarkSession(w: World, n: NetworkId, c: ClientId): World {
    if n in w.net.byId && w.net.byId[n] in w.entities && w.entities[w.net.byId[n]].locale.membership.Some? then
      var parts := w.entities[w.net.byId[n]];
      Put(w, w.net.byId[n], parts.(id := parts.id.(session := true))).(
        net := w.net.(clientWorkspaces := w.net.clientWorkspaces[c := parts.locale.membership.value]))
    else w
  }

  function SpawnSessionAgent(w: World, kind: nat, at: Position, c: ClientId): World {
    MarkSession(SpawnKindFor(w, kind, at, c), w.net.nextId, c)
  }

  // ---- Despawning ----------------------------------------------------------

  function WithoutMember(m: map<NetworkId, set<Entity>>, e: Entity): map<NetworkId, set<Entity>> {
    map ws | ws in m :: m[ws] - {e}
  }

  function WithoutClient(m: map<ClientId, NetworkId>, id: Identity): map<ClientId, NetworkId> {
    if id.session && id.owner.Some? then m - {id.owner.value} else m
  }

  /** The structures beside the store once the entity `e`, known as `n`, is gone. */
  function Unlink(net: Net, n: NetworkId, e: Entity, id: Identity): Net {
    net.(byId := net.byId - {n}, byEntity := net.byEntity - {e}, owners := net.owners - {n},
         memberships := WithoutMember(net.memberships, e),
         clientWorkspaces := WithoutClient(net.clientWorkspaces, id))
  }

  function IdentityOf(w: World, e: Entity): Identity {
    if e in w.entities then w.entities[e].id else NO_ID
  }

  function Despawn(w: World, n: NetworkId): World {
    if n !in w.net.byId then w
    else
      var e := w.net.byId[n];
      w.(entities := w.entities - {e}, net := Unlink(w.net, n, e, IdentityOf(w, e)))
  }

  /** What clear_world leaves: the local entities other than resource trackers. */
  function Survivors(w: World): map<Entity, Components> {
    map e | e in w.entities && e !in w.net.byEntity && w.entities[e].clocks.respawn.None? :: w.entities[e]
  }

  function Clear(w: World): World {
    w.(entities := Survivors(w), net := NO_NET.(nextEntity := w.net.nextEntity))
  }
}
