/** What every life-cycle operation of the world adapter keeps. `Linked` needs no
    assumption on what clients send; `Indexed` and `AllKinded` are for worlds in which
    clients overwrite no workspace or gameplay component. All of them speak of the
    shapes of the entities only, so overwriting component values keeps them. */
module Coherence {
  import opened Ecs
  import opened Adapter

  /** Handles and ids in use are below their allocators. */
  ghost predicate Bounded(shapes: Shapes, net: Net) {
    && net.nextId >= 1
    && (forall e | e in shapes :: e < net.nextEntity)
    && (forall n | n in net.byId :: 1 <= n < net.nextId)
  }

  /** The bimap is a bijection between the ids in use and the live Networked entities. */
  ghost predicate Bijective(shapes: Shapes, net: Net) {
    && (forall n | n in net.byId :: net.byId[n] in net.byEntity && net.byEntity[net.byId[n]] == n)
    && (forall e | e in net.byEntity :: e in shapes && net.byEntity[e] in net.byId && net.byId[net.byEntity[e]] == e)
    && (forall e | e in shapes :: shapes[e].id.networked == Get(net.byEntity, e))
  }

  /** The owner cache equals the NetworkOwner components, and session agents have an owner. */
  ghost predicate OwnersCached(shapes: Shapes, net: Net) {
    && (forall n | n in net.owners :: n in net.byId)
    && (forall e | e in shapes ::
          shapes[e].id.owner == if e in net.byEntity then Get(net.owners, net.byEntity[e]) else None)
    && (forall e | e in shapes && shapes[e].id.session :: shapes[e].id.owner.Some?)
  }

  /** Pending respawns are entities of their own, never announced to clients. */
  ghost predicate TrackersLocal(shapes: Shapes) {
    forall e | e in shapes && (shapes[e].tracker || shapes[e].timer) :: shapes[e].id == NO_ID
  }

  /** Entities, ids and the owner cache agree. */
  ghost predicate Linked(shapes: Shapes, net: Net) {
    Bounded(shapes, net) && Bijective(shapes, net) && OwnersCached(shapes, net) && TrackersLocal(shapes)
  }

  /** The master is the only workspace, and every member of a workspace is a member of it. */
  ghost predicate OneMaster(shapes: Shapes, net: Net) {
    && (forall e | e in shapes && shapes[e].workspace.Some? :: IsMaster(shapes, net.byEntity, e))
    && (forall e, e' | IsMaster(shapes, net.byEntity, e) && IsMaster(shapes, net.byEntity, e') :: e == e')
    && (forall e | e in shapes && shapes[e].membership.Some? ::
          e in net.byEntity && shapes[e].membership == MasterIn(shapes, net))
    && (forall c | c in net.clientWorkspaces :: Some(net.clientWorkspaces[c]) == MasterIn(shapes, net))
  }

  /** The workspace index lists exactly the live members of each workspace. */
  ghost predicate MembersListed(shapes: Shapes, net: Net) {
    && (forall ws, e | ws in net.memberships && e in net.memberships[ws] ::
          e in shapes && shapes[e].membership == Some(ws))
    && (forall e | e in shapes && shapes[e].membership.Some? && shapes[e].workspace.None? ::
          shapes[e].membership.value in net.memberships && e in net.memberships[shapes[e].membership.value])
  }

  ghost predicate Indexed(shapes: Shapes, net: Net) {
    OneMaster(shapes, net) && MembersListed(shapes, net)
  }

  predicate Inert(s: Shape) {
    !s.pooled && !s.store && !s.resource && !s.drop && !s.beam
  }

  /** Which components may meet on one entity. */
  predicate Kinded(s: Shape) {
    && (s.store ==> !s.resource && !s.drop && !s.training)
    && (s.resource ==> !s.drop && !s.training)
    && (s.drop ==> !s.pooled && !s.beam && !s.training)
    && (s.beam ==> !s.pooled && !s.store && !s.resource && !s.training)
    && (s.workspace.Some? ==> Inert(s) && !s.training && s.bounds == Some(MASTER_BOUNDS))
    && (s.tracker ==> s.id == NO_ID && Inert(s) && !s.timer && !s.training)
    && (s.timer ==> s.id == NO_ID && Inert(s) && s.training)
  }

  ghost predicate AllKinded(shapes: Shapes) {
    forall e | e in shapes :: Kinded(shapes[e])
  }

  ghost predicate Coherent(w: World) {
    Linked(ShapesOf(w.entities), w.net) && Indexed(ShapesOf(w.entities), w.net) && AllKinded(ShapesOf(w.entities))
  }

  /** Nothing that `w` knew has changed identity in `w'`, no id of `w` has come back,
      and no session agent is new. */
  ghost predicate Ages(shapes: Shapes, net: Net, shapes': Shapes, net': Net) {
    && net.nextId <= net'.nextId
    && net.nextEntity <= net'.nextEntity
    && (forall e | e in shapes' && e < net.nextEntity :: e in shapes && shapes'[e].id == shapes[e].id)
    && (forall e | e in shapes' && net.nextEntity <= e :: !shapes'[e].id.session)
    && (forall n | n in net'.byId && n < net.nextId :: n in net.byId && net'.byId[n] == net.byId[n])
  }

  // ---- Linked --------------------------------------------------------------

  lemma SpawnLocalLinked(s: Shapes, net: Net, x: Shape)
    requires Linked(s, net) && x.id == NO_ID
    ensures var s', net' := s[net.nextEntity := x], net.(nextEntity := net.nextEntity + 1);
      Linked(s', net') && Ages(s, net, s', net')
  {
    hide Bijective, OwnersCached;
    UnnamedBijective(s, net, x);
    UnnamedOwners(s, net, x);
  }

  lemma UnnamedBijective(s: Shapes, net: Net, x: Shape)
    requires Bounded(s, net) && Bijective(s, net) && x.id == NO_ID
    ensures Bijective(s[net.nextEntity := x], net.(nextEntity := net.nextEntity + 1))
  {}

  lemma UnnamedOwners(s: Shapes, net: Net, x: Shape)
    requires Bounded(s, net) && Bijective(s, net) && OwnersCached(s, net) && x.id == NO_ID
    ensures OwnersCached(s[net.nextEntity := x], net.(nextEntity := net.nextEntity + 1))
  {
    hide Bounded, Bijective;
    FreshHandle(s, net);
    var s' := s[net.nextEntity := x];
    forall e | e in s'
      ensures s'[e].id.owner == if e in net.byEntity then Get(net.owners, net.byEntity[e]) else None
      ensures s'[e].id.session ==> s'[e].id.owner.Some?
    {}
  }

  lemma FreshHandle(s: Shapes, net: Net)
    requires Bounded(s, net) && Bijective(s, net)
    ensures net.nextEntity !in net.byEntity && net.nextEntity !in s
  {}

  lemma RemoveLocalLinked(s: Shapes, net: Net, e: Entity)
    requires Linked(s, net) && e !in net.byEntity
    ensures Linked(s - {e}, net) && Ages(s, net, s - {e}, net)
  {}

  lemma LinkNextBijective(s: Shapes, net: Net, n: NetworkId, x: Shape)
    requires Linked(s, net) && n !in net.byId && x.id == NO_ID.(networked := Some(n))
    ensures Bijective(s[net.nextEntity := x], LinkNext(net, n))
  {
    hide OwnersCached;
  }

  lemma LinkNextOwners(s: Shapes, net: Net, n: NetworkId, x: Shape)
    requires Linked(s, net) && n !in net.byId && x.id == NO_ID.(networked := Some(n))
    ensures OwnersCached(s[net.nextEntity := x], LinkNext(net, n))
  {
    hide TrackersLocal;
  }

  lemma LinkNextLinked(s: Shapes, net: Net, n: NetworkId, x: Shape)
    requires Linked(s, net) && 1 <= n < net.nextId && n !in net.byId && x.id == NO_ID.(networked := Some(n))
    requires !x.tracker && !x.timer
    ensures Linked(s[net.nextEntity := x], LinkNext(net, n))
  {
    hide Bijective, OwnersCached;
    LinkNextBijective(s, net, n, x);
    LinkNextOwners(s, net, n, x);
  }

  lemma UnlinkBijective(s: Shapes, net: Net, n: NetworkId, id: Identity)
    requires Bijective(s, net) && n in net.byId
    ensures Bijective(s - {net.byId[n]}, Unlink(net, n, net.byId[n], id))
  {}

  lemma UnlinkLinked(s: Shapes, net: Net, n: NetworkId, id: Identity)
    requires Linked(s, net) && n in net.byId
    ensures var s', net' := s - {net.byId[n]}, Unlink(net, n, net.byId[n], id);
      Linked(s', net') && Ages(s, net, s', net')
  {
    UnlinkBijective(s, net, n, id);
  }

  /** Marking an entity leaves the bimap alone. */
  lemma MarkedBijective(s: Shapes, net: Net, e: Entity, x: Shape, net': Net)
    requires Bounded(s, net) && Bijective(s, net) && e in s && x.id.networked == s[e].id.networked
    requires net' == net.(owners := net'.owners, clientWorkspaces := net'.clientWorkspaces)
    ensures Bounded(s[e := x], net') && Bijective(s[e := x], net')
  {}

  lemma OwnedOwnerAt(s: Shapes, net: Net, n: NetworkId, x: Shape, c: ClientId, e: Entity)
    requires Bijective(s, net) && OwnersCached(s, net) && n in net.byId && x.id.owner == Some(c) && e in s
    ensures var s' := s[net.byId[n] := x];
            && s'[e].id.owner == (if e in net.byEntity then Get(net.owners[n := c], net.byEntity[e]) else None)
            && (s'[e].id.session ==> s'[e].id.owner.Some?)
  {
    assert e in net.byEntity ==> net.byId[net.byEntity[e]] == e;
  }

  lemma CachedIdsInUse(s: Shapes, net: Net, n: NetworkId, c: ClientId)
    requires Bijective(s, net) && OwnersCached(s, net) && n in net.byId
    ensures net.byId[n] in s && forall m | m in net.owners[n := c] :: m in net.byId
  {}

  lemma OwnedOwners(s: Shapes, net: Net, n: NetworkId, x: Shape, c: ClientId)
    requires Bijective(s, net) && OwnersCached(s, net) && n in net.byId && x.id.owner == Some(c)
    ensures OwnersCached(s[net.byId[n] := x], net.(owners := net.owners[n := c]))
  {
    hide Bijective;
    var s', net' := s[net.byId[n] := x], net.(owners := net.owners[n := c]);
    CachedIdsInUse(s, net, n, c);
    forall e | e in s'
      ensures s'[e].id.owner == if e in net'.byEntity then Get(net'.owners, net'.byEntity[e]) else None
      ensures s'[e].id.session ==> s'[e].id.owner.Some?
    {
      hide OwnersCached;
      OwnedOwnerAt(s, net, n, x, c, e);
    }
  }

  lemma NamedIsNoTracker(s: Shapes, e: Entity, x: Shape)
    requires TrackersLocal(s) && e in s && s[e].id != NO_ID && x.tracker == s[e].tracker && x.timer == s[e].timer
    ensures TrackersLocal(s[e := x])
  {}

  lemma OwnedLinked(s: Shapes, net: Net, n: NetworkId, c: ClientId)
    requires Linked(s, net) && n in net.byId
    ensures var e := net.byId[n];
      Linked(s[e := s[e].(id := s[e].id.(owner := Some(c)))], net.(owners := net.owners[n := c]))
  {
    var e := net.byId[n];
    var x := s[e].(id := s[e].id.(owner := Some(c)));
    hide Bounded, OwnersCached, TrackersLocal;
    MarkedBijective(s, net, e, x, net.(owners := net.owners[n := c]));
    OwnedOwners(s, net, n, x, c);
    NamedIsNoTracker(s, e, x);
  }

  lemma SessionLinked(s: Shapes, net: Net, n: NetworkId, m: map<ClientId, NetworkId>)
    requires Linked(s, net) && n in net.byId && s[net.byId[n]].id.owner.Some?
    ensures var e := net.byId[n];
      Linked(s[e := s[e].(id := s[e].id.(session := true))], net.(clientWorkspaces := m))
  {
    var e := net.byId[n];
    var x := s[e].(id := s[e].id.(session := true));
    MarkedBijective(s, net, e, x, net.(clientWorkspaces := m));
    hide Bounded, Bijective;
  }

  // ---- Indexed -------------------------------------------------------------

  lemma {:induction false} MasterBelowSame(s: Shapes, ids: map<Entity, NetworkId>,
                                           s': Shapes, ids': map<Entity, NetworkId>, n: nat)
    requires forall e | 0 <= e < n :: IsMaster(s', ids', e) == IsMaster(s, ids, e)
    requires forall e | 0 <= e < n && IsMaster(s, ids, e) :: Get(ids', e) == Get(ids, e)
    ensures MasterBelow(s', ids', n) == MasterBelow(s, ids, n)
  {
    if n > 0 {
      MasterBelowSame(s, ids, s', ids', n - 1);
    }
  }

  /** A master that is the only one is the one that is found. */
  lemma MasterIsThis(s: Shapes, net: Net, e: Entity)
    requires IsMaster(s, net.byEntity, e) && e < net.nextEntity
    requires forall e' | IsMaster(s, net.byEntity, e') :: e' == e
    ensures MasterIn(s, net) == Some(net.byEntity[e])
  {
    MasterBelowFound(s, net.byEntity, net.nextEntity, e);
    var e' := MasterBelowWitness(s, net.byEntity, net.nextEntity);
  }

  lemma MasterInNone(s: Shapes, net: Net, e: Entity)
    requires MasterIn(s, net).None? && e < net.nextEntity
    ensures !IsMaster(s, net.byEntity, e)
  {
    if IsMaster(s, net.byEntity, e) {
      MasterBelowFound(s, net.byEntity, net.nextEntity, e);
    }
  }

  /** Adding the handle `net.nextEntity`, when it is no workspace, leaves the master as it was. */
  lemma MasterAfterSpawn(s: Shapes, net: Net, x: Shape, net': Net)
    requires Bounded(s, net) && x.workspace.None?
    requires net'.nextEntity == net.nextEntity + 1
    requires forall e | 0 <= e < net.nextEntity :: Get(net'.byEntity, e) == Get(net.byEntity, e)
    ensures MasterIn(s[net.nextEntity := x], net') == MasterIn(s, net)
  {
    var s' := s[net.nextEntity := x];
    forall e | 0 <= e < net.nextEntity
      ensures IsMaster(s', net'.byEntity, e) == IsMaster(s, net.byEntity, e)
    {
      assert Get(net'.byEntity, e) == Get(net.byEntity, e);
    }
    MasterBelowSame(s, net.byEntity, s', net'.byEntity, net.nextEntity);
  }

  lemma PlaceOneMaster(s: Shapes, net: Net, n: NetworkId, x: Shape, ws: NetworkId)
    requires Bounded(s, net) && OneMaster(s, net) && MasterIn(s, net) == Some(ws)
    requires x.workspace.None? && x.membership == Some(ws)
    ensures var s', net' := s[net.nextEntity := x], JoinWorkspace(LinkNext(net, n), ws, net.nextEntity);
      OneMaster(s', net') && MasterIn(s', net') == Some(ws)
  {
    hide MasterIn;
    MasterAfterSpawn(s, net, x, JoinWorkspace(LinkNext(net, n), ws, net.nextEntity));
  }

  lemma PlaceMembersListed(s: Shapes, net: Net, n: NetworkId, x: Shape, ws: NetworkId)
    requires Bounded(s, net) && MembersListed(s, net)
    requires x.workspace.None? && x.membership == Some(ws)
    ensures MembersListed(s[net.nextEntity := x], JoinWorkspace(LinkNext(net, n), ws, net.nextEntity))
  {}

  lemma PlaceIndexed(s: Shapes, net: Net, n: NetworkId, x: Shape, ws: NetworkId)
    requires Linked(s, net) && Indexed(s, net) && MasterIn(s, net) == Some(ws)
    requires x.workspace.None? && x.membership == Some(ws)
    ensures var s', net' := s[net.nextEntity := x], JoinWorkspace(LinkNext(net, n), ws, net.nextEntity);
      Indexed(s', net') && MasterIn(s', net') == Some(ws)
  {
    PlaceOneMaster(s, net, n, x, ws);
    PlaceMembersListed(s, net, n, x, ws);
    hide OneMaster, MembersListed, Linked, MasterIn;
  }

  lemma FoundMaster(s: Shapes, net: Net, n: NetworkId, x: Shape)
    requires Linked(s, net) && Indexed(s, net) && MasterIn(s, net).None?
    requires x.workspace == Some(MASTER) && x.membership == Some(n)
    ensures var s', net' := s[net.nextEntity := x], LinkNext(net, n);
      Indexed(s', net') && MasterIn(s', net') == Some(n)
  {
    hide Bijective, OwnersCached, TrackersLocal;
    NoMaster(s, net);
    hide OneMaster, MembersListed, MasterIn;
    FoundOneMaster(s, net, n, x);
    FoundMembers(s, net, n, x);
  }

  /** Where there is no master there is no workspace and no member of one. */
  lemma NoMaster(s: Shapes, net: Net)
    requires Bounded(s, net) && OneMaster(s, net) && MasterIn(s, net).None?
    ensures forall e | e in s :: s[e].workspace.None? && s[e].membership.None?
    ensures net.clientWorkspaces == map[]
  {
    forall e | e in s ensures s[e].workspace.None? && s[e].membership.None? {
      MasterInNone(s, net, e);
    }
    hide MasterIn;
    assert forall c :: c !in net.clientWorkspaces;
  }

  lemma FoundOneMaster(s: Shapes, net: Net, n: NetworkId, x: Shape)
    requires Bounded(s, net) && net.clientWorkspaces == map[]
    requires forall e | e in s :: s[e].workspace.None? && s[e].membership.None?
    requires x.workspace == Some(MASTER) && x.membership == Some(n)
    ensures var s', net' := s[net.nextEntity := x], LinkNext(net, n);
      OneMaster(s', net') && MasterIn(s', net') == Some(n)
  {
    var s', net' := s[net.nextEntity := x], LinkNext(net, n);
    assert IsMaster(s', net'.byEntity, net.nextEntity);
    MasterIsThis(s', net', net.nextEntity);
    hide MasterIn;
  }

  /** The lists stay right when the old members stay and nothing new is a plain member. */
  lemma MembersSame(s: Shapes, s': Shapes, net: Net)
    requires MembersListed(s, net)
    requires forall e | e in s :: e in s' && s'[e].membership == s[e].membership && s'[e].workspace == s[e].workspace
    requires forall e | e in s' && e !in s :: s'[e].membership.None? || s'[e].workspace.Some?
    ensures MembersListed(s', net)
  {
    forall ws, e | ws in net.memberships && e in net.memberships[ws]
      ensures e in s' && s'[e].membership == Some(ws)
    {
      assert e in s;
    }
    forall e | e in s' && s'[e].membership.Some? && s'[e].workspace.None?
      ensures s'[e].membership.value in net.memberships && e in net.memberships[s'[e].membership.value]
    {
      assert e in s;
    }
  }

  lemma FoundMembers(s: Shapes, net: Net, n: NetworkId, x: Shape)
    requires Bounded(s, net) && MembersListed(s, net) && x.workspace.Some?
    ensures MembersListed(s[net.nextEntity := x], LinkNext(net, n))
  {
    MembersSame(s, s[net.nextEntity := x], net);
  }

  /** Entities outside every workspace come and go without touching the index. */
  lemma LocalSpawnIndexed(s: Shapes, net: Net, x: Shape)
    requires Linked(s, net) && Indexed(s, net) && x.workspace.None? && x.membership.None?
    ensures var s', net' := s[net.nextEntity := x], net.(nextEntity := net.nextEntity + 1);
      Indexed(s', net') && MasterIn(s', net') == MasterIn(s, net)
  {
    hide Bijective, OwnersCached, TrackersLocal, OneMaster, MembersListed, MasterIn;
    LocalSpawnOneMaster(s, net, x);
    LocalSpawnMembers(s, net, x);
  }

  lemma LocalSpawnOneMaster(s: Shapes, net: Net, x: Shape)
    requires Bounded(s, net) && OneMaster(s, net) && x.workspace.None? && x.membership.None?
    ensures var s', net' := s[net.nextEntity := x], net.(nextEntity := net.nextEntity + 1);
      OneMaster(s', net') && MasterIn(s', net') == MasterIn(s, net)
  {
    hide MasterIn;
    MasterAfterSpawn(s, net, x, net.(nextEntity := net.nextEntity + 1));
  }

  lemma LocalSpawnMembers(s: Shapes, net: Net, x: Shape)
    requires Bounded(s, net) && MembersListed(s, net) && x.workspace.None? && x.membership.None?
    ensures MembersListed(s[net.nextEntity := x], net.(nextEntity := net.nextEntity + 1))
  {
    MembersSame(s, s[net.nextEntity := x], net);
  }

  lemma LocalRemoveIndexed(s: Shapes, net: Net, e: Entity)
    requires Indexed(s, net) && e !in net.byEntity && (e in s ==> s[e].membership.None?)
    ensures Indexed(s - {e}, net) && MasterIn(s - {e}, net) == MasterIn(s, net)
  {
    MasterBelowSame(s, net.byEntity, s - {e}, net.byEntity, net.nextEntity);
    hide MasterIn;
  }

  lemma MasterAfterUnlink(s: Shapes, net: Net, n: NetworkId, id: Identity)
    requires n in net.byId && net.byId[n] in s && s[net.byId[n]].workspace.None?
    ensures var e := net.byId[n]; MasterIn(s - {e}, Unlink(net, n, e, id)) == MasterIn(s, net)
  {
    var e := net.byId[n];
    MasterBelowSame(s, net.byEntity, s - {e}, net.byEntity - {e}, net.nextEntity);
  }

  lemma UnlinkIndexed(s: Shapes, net: Net, n: NetworkId, id: Identity)
    requires Indexed(s, net) && n in net.byId && net.byId[n] in s && s[net.byId[n]].workspace.None?
    ensures var e := net.byId[n]; Indexed(s - {e}, Unlink(net, n, e, id))
  {
    MasterAfterUnlink(s, net, n, id);
    hide MasterIn;
  }

  // ---- Worlds --------------------------------------------------------------

  ghost predicate Tied(w: World) {
    Linked(ShapesOf(w.entities), w.net)
  }

  ghost predicate Succeeds(w: World, w': World) {
    Ages(ShapesOf(w.entities), w.net, ShapesOf(w'.entities), w'.net)
  }

  lemma SucceedsTransitive(w: World, w': World, w'': World)
    requires Succeeds(w, w') && Succeeds(w', w'')
    ensures Succeeds(w, w'')
  {
    hide ShapesOf;
  }

  lemma PutKeepsShapes(w: World, e: Entity, c: Components)
    requires e in w.entities && ShapeOf(c) == ShapeOf(w.entities[e])
    ensures ShapesOf(w.entities[e := c]) == ShapesOf(w.entities)
  {
    ShapesAfterPut(w.entities, e, c);
  }

  lemma SpawnLocalKeeps(w: World, c: Components)
    requires Tied(w) && c.id == NO_ID
    ensures Tied(SpawnLocal(w, c)) && Succeeds(w, SpawnLocal(w, c))
    ensures Coherent(w) && c.locale == NOWHERE && Kinded(ShapeOf(c)) ==>
      Coherent(SpawnLocal(w, c)) && MasterOf(SpawnLocal(w, c)) == MasterOf(w)
  {
    hide ShapesOf, Linked, Indexed, Ages, MasterIn, Kinded;
    ShapesAfterPut(w.entities, w.net.nextEntity, c);
    SpawnLocalLinked(ShapesOf(w.entities), w.net, ShapeOf(c));
    if Coherent(w) && c.locale == NOWHERE && Kinded(ShapeOf(c)) {
      LocalSpawnIndexed(ShapesOf(w.entities), w.net, ShapeOf(c));
    }
  }

  lemma RemoveLocalKeeps(w: World, e: Entity)
    requires Tied(w) && e !in w.net.byEntity
    ensures Tied(RemoveLocal(w, e)) && Succeeds(w, RemoveLocal(w, e))
    ensures Coherent(w) && (e in w.entities ==> w.entities[e].locale.membership.None?) ==>
      Coherent(RemoveLocal(w, e)) && MasterOf(RemoveLocal(w, e)) == MasterOf(w)
  {
    ShapesAfterRemove(w.entities, e);
    RemoveLocalLinked(ShapesOf(w.entities), w.net, e);
    if Coherent(w) && (e in w.entities ==> w.entities[e].locale.membership.None?) {
      LocalRemoveIndexed(ShapesOf(w.entities), w.net, e);
    }
  }

  lemma DespawnKeeps(w: World, n: NetworkId)
    requires Tied(w)
    ensures Tied(Despawn(w, n)) && Succeeds(w, Despawn(w, n))
    ensures Coherent(w) && (n in w.net.byId ==> w.entities[w.net.byId[n]].locale.workspace.None?) ==>
      Coherent(Despawn(w, n)) && MasterOf(Despawn(w, n)) == MasterOf(w)
  {
    if n in w.net.byId {
      var e := w.net.byId[n];
      ShapesAfterRemove(w.entities, e);
      UnlinkLinked(ShapesOf(w.entities), w.net, n, IdentityOf(w, e));
      if Coherent(w) && w.entities[e].locale.workspace.None? {
        UnlinkIndexed(ShapesOf(w.entities), w.net, n, IdentityOf(w, e));
        MasterAfterUnlink(ShapesOf(w.entities), w.net, n, IdentityOf(w, e));
      }
      hide ShapesOf, Linked, Indexed, Ages, MasterIn, Kinded;
    }
  }

  function Named(c: Components, n: NetworkId): Components {
    c.(id := c.id.(networked := Some(n)))
  }

  lemma KindAtShape(kind: nat, at: Position, ws: NetworkId, n: NetworkId)
    ensures var x := ShapeOf(Named(KindAt(kind, at, ws), n));
      && x.id == NO_ID.(networked := Some(n)) && x.workspace.None? && x.membership == Some(ws)
      && Kinded(x) && !x.tracker && !x.timer
  {}

  lemma PlaceKeeps(w: World, n: NetworkId, kind: nat, at: Position, ws: NetworkId)
    requires Tied(w) && 1 <= n < w.net.nextId && n !in w.net.byId
    ensures Tied(Place(w, n, kind, at, ws))
    ensures Coherent(w) && MasterOf(w) == Some(ws) ==>
      Coherent(Place(w, n, kind, at, ws)) && MasterOf(Place(w, n, kind, at, ws)) == Some(ws)
  {
    var x := ShapeOf(Named(KindAt(kind, at, ws), n));
    KindAtShape(kind, at, ws, n);
    hide ShapesOf, Linked, Indexed, Ages, MasterIn, Kinded, ShapeOf, KindAt;
    ShapesAfterPut(w.entities, w.net.nextEntity, Named(KindAt(kind, at, ws), n));
    LinkNextLinked(ShapesOf(w.entities), w.net, n, x);
    MembershipsLinked(ShapesOf(w.entities)[w.net.nextEntity := x], LinkNext(w.net, n),
                      JoinWorkspace(LinkNext(w.net, n), ws, w.net.nextEntity).memberships);
    if Coherent(w) && MasterOf(w) == Some(ws) {
      PlaceIndexed(ShapesOf(w.entities), w.net, n, x, ws);
    }
  }

  lemma MembershipsLinked(s: Shapes, net: Net, m: map<NetworkId, set<Entity>>)
    requires Linked(s, net)
    ensures Linked(s, net.(memberships := m))
  {}

  lemma AllocateKeeps(w: World)
    requires Tied(w)
    ensures Tied(Allocate(w)) && 1 <= w.net.nextId && w.net.nextId !in w.net.byId && Succeeds(w, Allocate(w))
    ensures MasterOf(Allocate(w)) == MasterOf(w) && (Coherent(w) ==> Coherent(Allocate(w)))
  {
    hide ShapesOf, MasterBelow, Kinded;
  }

  /** A new name above the allocator of `w` is new for `w`. */
  lemma SpawnAsSucceeds(w: World, w1: World, n: NetworkId, c: Components)
    requires Succeeds(w, w1) && w.net.nextId <= n && c.id == NO_ID
    ensures Succeeds(w, SpawnAs(w1, n, c))
  {
    ShapesAfterPut(w1.entities, w1.net.nextEntity, Named(c, n));
    hide ShapesOf;
  }

  lemma PlaceSucceeds(w: World, w1: World, n: NetworkId, kind: nat, at: Position, ws: NetworkId)
    requires Succeeds(w, w1) && w.net.nextId <= n
    ensures Succeeds(w, Place(w1, n, kind, at, ws))
  {
    KindAtShape(kind, at, ws, n);
    SpawnAsSucceeds(w, w1, n, KindAt(kind, at, ws));
    hide ShapesOf, KindAt, ShapeOf;
  }

  lemma SpawnMasterKeeps(w: World)
    requires Tied(w)
    ensures Tied(SpawnMaster(w)) && Succeeds(w, SpawnMaster(w))
    ensures Coherent(w) && MasterOf(w).None? ==>
      Coherent(SpawnMaster(w)) && MasterOf(SpawnMaster(w)) == Some(w.net.nextId)
  {
    hide ShapesOf, Linked, Indexed, Ages, MasterIn;
    var n, w1 := w.net.nextId, Allocate(w);
    AllocateKeeps(w);
    SpawnAsSucceeds(w, w1, n, MasterParts(n));
    ShapesAfterPut(w.entities, w.net.nextEntity, Named(MasterParts(n), n));
    LinkNextLinked(ShapesOf(w.entities), w1.net, n, ShapeOf(Named(MasterParts(n), n)));
    if Coherent(w) && MasterOf(w).None? {
      FoundMaster(ShapesOf(w.entities), w1.net, n, ShapeOf(Named(MasterParts(n), n)));
    }
  }

  /** What a spawn needs first: an id and, if there is none yet, the master workspace with its resource. */
  ghost function Ready(w: World): World {
    if MasterOf(w).Some? then Allocate(w)
    else SpawnKind(SpawnMaster(Allocate(w)), RESOURCE, Position(30.0, 0.0))
  }

  ghost function HomeOf(w: World): NetworkId {
    if MasterOf(w).Some? then MasterOf(w).value else w.net.nextId + 1
  }

  lemma SpawnKindPlaces(w: World, kind: nat, at: Position)
    ensures SpawnKind(w, kind, at) == Place(Ready(w), w.net.nextId, kind, at, HomeOf(w))
  {
    hide MasterOf, Place;
  }

  lemma ReadyKeeps(w: World)
    requires Tied(w)
    ensures Tied(Ready(w)) && Succeeds(w, Ready(w))
    ensures 1 <= w.net.nextId < Ready(w).net.nextId && w.net.nextId !in Ready(w).net.byId
    ensures Coherent(w) ==> Coherent(Ready(w)) && MasterOf(Ready(w)) == Some(HomeOf(w))
  {
    hide Tied, Succeeds, Coherent, MasterOf, KindAt, Place, SpawnMaster;
    AllocateKeeps(w);
    if MasterOf(w).None? {
      FoundingKeeps(w);
      FoundingIds(w);
    }
  }

  /** The master workspace and its first resource. */
  ghost function Founding(w: World): World {
    SpawnKind(SpawnMaster(Allocate(w)), RESOURCE, Position(30.0, 0.0))
  }

  lemma FoundingPlaces(w: World)
    ensures var w2 := SpawnMaster(Allocate(w));
      && MasterOf(w2).Some?
      && Founding(w) == Place(Allocate(w2), w.net.nextId + 2, RESOURCE, Position(30.0, 0.0), MasterOf(w2).value)
  {
    SpawnMasterIsFound(Allocate(w));
    hide MasterOf, Place;
  }

  lemma FoundingKeeps(w: World)
    requires Tied(w) && MasterOf(w).None?
    ensures Tied(Founding(w)) && Succeeds(w, Founding(w))
    ensures Coherent(w) ==> Coherent(Founding(w)) && MasterOf(Founding(w)) == Some(w.net.nextId + 1)
  {
    hide Tied, Succeeds, Coherent, MasterOf, Place, Founding, Ages;
    var n, w1 := w.net.nextId, Allocate(w);
    AllocateKeeps(w);
    var w2 := SpawnMaster(w1);
    var w3 := Allocate(w2);
    FoundingPlaces(w);
    SpawnMasterKeeps(w1);
    AllocateKeeps(w2);
    var ws := MasterOf(w2).value;
    SucceedsTransitive(w, w1, w2);
    SucceedsTransitive(w, w2, w3);
    assert w2.net.nextId == n + 2;
    hide SpawnMaster;
    PlaceKeeps(w3, n + 2, RESOURCE, Position(30.0, 0.0), ws);
    PlaceSucceeds(w, w3, n + 2, RESOURCE, Position(30.0, 0.0), ws);
  }

  lemma FoundingIds(w: World)
    requires Tied(w)
    ensures w.net.nextId < Founding(w).net.nextId && w.net.nextId !in Founding(w).net.byId
  {
    hide MasterOf, KindAt;
    AllocateKeeps(w);
    hide Tied;
    FoundingPlaces(w);
    hide Founding;
  }

  lemma SpawnKindKeeps(w: World, kind: nat, at: Position)
    requires Tied(w)
    ensures Tied(SpawnKind(w, kind, at)) && Succeeds(w, SpawnKind(w, kind, at))
    ensures Coherent(w) ==> Coherent(SpawnKind(w, kind, at)) && MasterOf(SpawnKind(w, kind, at)) == Some(HomeOf(w))
  {
    hide Tied, Succeeds, Coherent, MasterOf, Place, SpawnKind, Ready, HomeOf;
    SpawnKindPlaces(w, kind, at);
    ReadyKeeps(w);
    PlaceKeeps(Ready(w), w.net.nextId, kind, at, HomeOf(w));
    PlaceSucceeds(w, Ready(w), w.net.nextId, kind, at, HomeOf(w));
  }

  // ---- Owners, session agents and clearing ---------------------------------

  lemma MarkedOneMaster(s: Shapes, net: Net, e: Entity, id: Identity, net': Net)
    requires OneMaster(s, net) && e in s
    requires net' == net.(owners := net'.owners, clientWorkspaces := net'.clientWorkspaces)
    requires forall c | c in net'.clientWorkspaces :: Some(net'.clientWorkspaces[c]) == MasterIn(s, net)
    ensures OneMaster(s[e := s[e].(id := id)], net') && MasterIn(s[e := s[e].(id := id)], net') == MasterIn(s, net)
  {
    MasterBelowSame(s, net.byEntity, s[e := s[e].(id := id)], net.byEntity, net.nextEntity);
    hide MasterIn;
  }

  lemma MarkedMembersListed(s: Shapes, net: Net, e: Entity, id: Identity, net': Net)
    requires MembersListed(s, net) && e in s && net'.memberships == net.memberships
    ensures MembersListed(s[e := s[e].(id := id)], net')
  {}

  /** Changing an identity leaves the index alone; a client may be assigned to the master. */
  lemma MarkedIndexed(s: Shapes, net: Net, e: Entity, id: Identity, net': Net)
    requires Indexed(s, net) && e in s
    requires net' == net.(owners := net'.owners, clientWorkspaces := net'.clientWorkspaces)
    requires forall c | c in net'.clientWorkspaces :: Some(net'.clientWorkspaces[c]) == MasterIn(s, net)
    ensures Indexed(s[e := s[e].(id := id)], net') && MasterIn(s[e := s[e].(id := id)], net') == MasterIn(s, net)
  {
    hide MasterIn, OneMaster, MembersListed;
    MarkedOneMaster(s, net, e, id, net');
    MarkedMembersListed(s, net, e, id, net');
  }

  lemma LinkedAt(w: World, n: NetworkId)
    requires Tied(w) && n in w.net.byId
    ensures var e := w.net.byId[n];
      && e in w.entities && e in ShapesOf(w.entities) && ShapesOf(w.entities)[e] == ShapeOf(w.entities[e])
      && w.entities[e].id.networked == Some(n) && Get(w.net.byEntity, e) == Some(n) && 1 <= n < w.net.nextId
  {}

  lemma KindedRenamed(x: Shape, id: Identity)
    requires Kinded(x) && x.id.networked.Some?
    ensures Kinded(x.(id := id))
  {}

  lemma SetOwnerKeeps(w: World, n: NetworkId, c: ClientId)
    requires Tied(w) && n in w.net.byId
    ensures Tied(SetOwner(w, n, c))
    ensures Coherent(w) ==> Coherent(SetOwner(w, n, c)) && MasterOf(SetOwner(w, n, c)) == MasterOf(w)
  {
    hide ShapesOf, Linked, Indexed, AllKinded, MasterIn;
    LinkedAt(w, n);
    var e, s := w.net.byId[n], ShapesOf(w.entities);
    var id := s[e].id.(owner := Some(c));
    OwnedLinked(s, w.net, n, c);
    ShapesAfterPut(w.entities, e, w.entities[e].(id := id));
    if Coherent(w) { RenamedIndexed(s, w.net, e, id, SetOwner(w, n, c).net); }
  }

  lemma RenamedIndexed(s: Shapes, net: Net, e: Entity, id: Identity, net': Net)
    requires Indexed(s, net) && AllKinded(s) && e in s && s[e].id.networked.Some? && net' == net.(owners := net'.owners)
    ensures var s' := s[e := s[e].(id := id)];
            Indexed(s', net') && AllKinded(s') && MasterIn(s', net') == MasterIn(s, net)
  {
    hide Indexed, MasterIn, Kinded;
    IndexedClients(s, net);
    MarkedIndexed(s, net, e, id, net');
    KindedRenamed(s[e], id);
  }

  lemma IndexedClients(s: Shapes, net: Net)
    requires Indexed(s, net)
    ensures forall c | c in net.clientWorkspaces :: Some(net.clientWorkspaces[c]) == MasterIn(s, net)
    ensures forall e | e in s && s[e].membership.Some? :: s[e].membership == MasterIn(s, net)
  {}

  lemma MarkSessionKeeps(w: World, n: NetworkId, c: ClientId)
    requires Tied(w) && n in w.net.byId && w.net.byId[n] in w.entities && w.entities[w.net.byId[n]].id.owner.Some?
    ensures Tied(MarkSession(w, n, c))
  {
    hide ShapesOf, Linked;
    LinkedAt(w, n);
    var e, s := w.net.byId[n], ShapesOf(w.entities);
    SessionLinked(s, w.net, n, MarkSession(w, n, c).net.clientWorkspaces);
    ShapesAfterPut(w.entities, e, w.entities[e].(id := s[e].id.(session := true)));
  }

  lemma MarkSessionCoherent(w: World, n: NetworkId, c: ClientId)
    requires Coherent(w) && Tied(MarkSession(w, n, c))
    ensures Coherent(MarkSession(w, n, c)) && MasterOf(MarkSession(w, n, c)) == MasterOf(w)
  {
    hide ShapesOf, Linked, Indexed, MasterIn, Kinded;
    if n in w.net.byId && w.net.byId[n] in w.entities && w.entities[w.net.byId[n]].locale.membership.Some? {
      LinkedAt(w, n);
      var e, s := w.net.byId[n], ShapesOf(w.entities);
      var id := s[e].id.(session := true);
      ShapesAfterPut(w.entities, e, w.entities[e].(id := id));
      IndexedClients(s, w.net);
      MarkedIndexed(s, w.net, e, id, MarkSession(w, n, c).net);
      KindedRenamed(s[e], id);
    }
  }

  lemma LocalAnonymous(w: World, e: Entity)
    requires Tied(w) && e in w.entities && e !in w.net.byEntity
    ensures w.entities[e].id == NO_ID && e < w.net.nextEntity
    ensures Coherent(w) ==> w.entities[e].locale.workspace.None? && w.entities[e].locale.membership.None?
  {
    assert ShapesOf(w.entities)[e] == ShapeOf(w.entities[e]);
  }

  lemma ClearedLinked(s: Shapes, n: nat)
    requires forall e | e in s :: s[e].id == NO_ID && e < n
    ensures Linked(s, NO_NET.(nextEntity := n))
  {}

  lemma ClearedIndexed(s: Shapes, n: nat)
    requires forall e | e in s :: s[e].workspace.None? && s[e].membership.None?
    ensures var net := NO_NET.(nextEntity := n); Indexed(s, net) && MasterIn(s, net).None?
  {
    if MasterBelow(s, map[], n).Some? {
      var e := MasterBelowWitness(s, map[], n);
    }
  }

  lemma SurvivorShapes(w: World)
    requires Tied(w)
    ensures var s, s' := ShapesOf(w.entities), ShapesOf(Survivors(w));
      && (forall e | e in s' :: e in s && s'[e] == s[e] && s'[e].id == NO_ID && e < w.net.nextEntity)
      && (Coherent(w) ==> forall e | e in s' :: s'[e].workspace.None? && s'[e].membership.None?)
  {
    hide Linked, Indexed, AllKinded;
    forall e | e in Survivors(w)
      ensures w.entities[e].id == NO_ID && e < w.net.nextEntity
      ensures Coherent(w) ==> w.entities[e].locale.workspace.None? && w.entities[e].locale.membership.None?
    {
      LocalAnonymous(w, e);
    }
  }

  /** Clearing leaves no networked entity, so no session agent, and no master workspace. */
  lemma ClearKeeps(w: World)
    requires Tied(w)
    ensures Tied(Clear(w)) && forall e | e in ShapesOf(Clear(w).entities) :: ShapesOf(Clear(w).entities)[e].id == NO_ID
    ensures Coherent(w) ==> Coherent(Clear(w)) && MasterOf(Clear(w)).None?
  {
    hide Linked, Indexed, Kinded, MasterIn, ShapesOf, Survivors;
    SurvivorShapes(w);
    ClearedLinked(ShapesOf(Survivors(w)), w.net.nextEntity);
    if Coherent(w) {
      ClearedIndexed(ShapesOf(Survivors(w)), w.net.nextEntity);
    }
  }
}
