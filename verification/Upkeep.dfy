/** Every gameplay stage keeps the adapter's structures in agreement with the store. */
module Upkeep {
  import opened Ecs
  import opened Adapter
  import opened Coherence
  import opened Economy

  /** From a tied `w`: `w'` is tied, it forgets and renames nothing, and it is coherent with
      the same master workspace when `w` is. */
  ghost predicate Keeps(w: World, w': World) {
    && Tied(w') && Succeeds(w, w')
    && (Coherent(w) ==> Coherent(w') && KeepsMaster(w, w'))
  }

  /** The master workspace stays; where there was none, the first allocations found it. */
  ghost predicate KeepsMaster(w: World, w': World) {
    if MasterOf(w).Some? then MasterOf(w') == MasterOf(w)
    else
      || (MasterOf(w') == Some(w.net.nextId + 1) && w.net.nextId + 3 <= w'.net.nextId)
      || (MasterOf(w').None? && w'.net.nextId == w.net.nextId)
  }

  lemma KeepsTransitive(w: World, w': World, w'': World)
    requires Keeps(w, w') && Keeps(w', w'')
    ensures Keeps(w, w'')
  {
    hide Tied, Coherent, MasterOf;
    SucceedsTransitive(w, w', w'');
    hide Succeeds;
  }

  // ---- Stages that only change component values ----------------------------

  /** `w'` is `w` with some component values overwritten. */
  ghost predicate Retouched(w: World, w': World) {
    w'.net == w.net && ShapesOf(w'.entities) == ShapesOf(w.entities)
  }

  lemma RetouchedKeeps(w: World, w': World)
    requires Tied(w) && Retouched(w, w')
    ensures Keeps(w, w') && MasterOf(w') == MasterOf(w)
  {
    hide ShapesOf, Linked, Indexed, MasterIn, AllKinded;
    AgesReflexive(ShapesOf(w.entities), w.net);
    hide Ages;
  }

  lemma AgesReflexive(s: Shapes, net: Net)
    requires Linked(s, net)
    ensures Ages(s, net, s, net)
  {}

  lemma SameShapes(es: map<Entity, Components>, es': map<Entity, Components>)
    requires es'.Keys == es.Keys && forall e | e in es :: ShapeOf(es'[e]) == ShapeOf(es[e])
    ensures ShapesOf(es') == ShapesOf(es)
  {
    hide ShapeOf;
    forall e ensures e in es <==> e in es' {
      assert e in es.Keys <==> e in es'.Keys;
    }
  }

  lemma MoveRetouches(w: World, moved: map<Entity, Position>)
    ensures Retouched(w, MoveAll(w, moved))
  {
    SameShapes(w.entities, MoveAll(w, moved).entities);
    hide ShapesOf;
  }

  lemma EncloseRetouches(w: World)
    ensures Retouched(w, EncloseAll(w))
  {
    hide BoundsFor, WrapPosition;
    SameShapes(w.entities, EncloseAll(w).entities);
    hide ShapesOf;
  }

  lemma ToggleRetouches(w: World)
    ensures Retouched(w, ToggleAll(w))
  {
    SameShapes(w.entities, ToggleAll(w).entities);
    hide ShapesOf;
  }

  lemma DisableRetouches(w: World, order: seq<Entity>, sqrt: real -> real)
    ensures Retouched(w, DisableAll(w, order, sqrt))
  {
    hide Validate;
    SameShapes(w.entities, DisableAll(w, order, sqrt).entities);
    hide ShapesOf;
  }

  lemma RegenerateShape(c: Components)
    ensures ShapeOf(Regenerate(c)) == ShapeOf(c)
  {}

  lemma RegenerateRetouches(w: World)
    ensures Retouched(w, RegenerateAll(w))
  {
    hide ShapeOf, Regenerate;
    forall e | e in w.entities ensures ShapeOf(Regenerate(w.entities[e])) == ShapeOf(w.entities[e]) {
      RegenerateShape(w.entities[e]);
    }
    SameShapes(w.entities, RegenerateAll(w).entities);
    hide ShapesOf;
  }

  lemma TickTimersRetouches(w: World)
    ensures Retouched(w, TickTimers(w))
  {
    SameShapes(w.entities, TickTimers(w).entities);
    hide ShapesOf;
  }

  lemma TickTrackersRetouches(w: World)
    ensures Retouched(w, TickTrackers(w))
  {
    SameShapes(w.entities, TickTrackers(w).entities);
    hide ShapesOf;
  }

  lemma PutRetouches(w: World, w1: World, e: Entity, c: Components)
    requires Retouched(w, w1) && e in w1.entities && ShapeOf(c) == ShapeOf(w1.entities[e])
    ensures Retouched(w, Put(w1, e, c))
  {
    PutKeepsShapes(w1, e, c);
    hide ShapesOf, ShapeOf;
  }

  lemma {:induction false} TransferRetouches(w: World, ts: seq<Transfer>)
    ensures Retouched(w, TransferAll(w, ts))
  {
    hide ShapesOf;
    if ts != [] {
      var t, w1 := ts[|ts| - 1], TransferAll(w, ts[..|ts| - 1]);
      TransferRetouches(w, ts[..|ts| - 1]);
      if Holds(w1, t) {
        var store, resource := w1.entities[t.agent].cargo.store.value, w1.entities[t.resource].cargo.resource.value;
        var a := Granted(t.amount, store, resource);
        PutRetouches(w, w1, t.agent, Load(w1.entities[t.agent], a));
        var w2 := Put(w1, t.agent, Load(w1.entities[t.agent], a));
        PutRetouches(w, w2, t.resource, Deplete(w2.entities[t.resource], a));
      }
    }
  }

  lemma {:induction false} ClaimsRetouch(w: World, cs: seq<Claim>)
    ensures Retouched(w, ApplyClaims(w, cs))
  {
    hide ShapesOf;
    if cs != [] {
      var cl, w1 := cs[|cs| - 1], ApplyClaims(w, cs[..|cs| - 1]);
      ClaimsRetouch(w, cs[..|cs| - 1]);
      var w2 := if cl.agent in w1.entities then Put(w1, cl.agent, Load(w1.entities[cl.agent], cl.amount)) else w1;
      if cl.agent in w1.entities {
        PutRetouches(w, w1, cl.agent, Load(w1.entities[cl.agent], cl.amount));
      }
      if cl.drop in w2.entities {
        PutRetouches(w, w2, cl.drop, TakeFrom(w2.entities[cl.drop], cl.amount));
      }
    }
  }

  lemma {:induction false} BeamsRetouch(w: World, beams: seq<Entity>, targets: seq<Entity>)
    ensures Retouched(w, BeamAll(w, beams, targets))
  {
    hide ShapesOf;
    if beams != [] {
      var b, w1 := beams[|beams| - 1], BeamAll(w, beams[..|beams| - 1], targets);
      BeamsRetouch(w, beams[..|beams| - 1], targets);
      if IsBeam(w1, b) && !IsSpent(w1, b) {
        PutRetouches(w, w1, b, AgeBeam(w1.entities[b]));
        var t := FirstTarget(w1, b, targets);
        if t.Some? {
          var c := w1.entities[t.value];
          PutRetouches(w, Put(w1, b, AgeBeam(w1.entities[b])), t.value, c.(pools := HitPools(c.pools)));
        }
      }
    }
  }

  // ---- Stages that spawn and despawn ---------------------------------------

  lemma {:induction false} SpawnTrackersKeeps(w: World, xs: seq<Entity>)
    requires Tied(w)
    ensures Keeps(w, SpawnTrackers(w, xs))
  {
    hide Tied, Succeeds, Coherent, MasterOf, IsExhausted, ShapeOf;
    if xs == [] {
      RetouchedKeeps(w, w);
    } else {
      var e, w1 := xs[|xs| - 1], SpawnTrackers(w, xs[..|xs| - 1]);
      SpawnTrackersKeeps(w, xs[..|xs| - 1]);
      if IsExhausted(w1, e) {
        TrackerKeeps(w, w1, e);
      }
    }
  }

  lemma TrackerKeeps(w: World, w1: World, e: Entity)
    requires Keeps(w, w1) && IsExhausted(w1, e)
    ensures var c := w1.entities[e];
      Keeps(w, SpawnLocal(w1, TrackerParts(c.locale.position.value, c.cargo.resource.value.total)))
  {
    hide Tied, Succeeds, Coherent, MasterOf;
    var c := w1.entities[e];
    var x := TrackerParts(c.locale.position.value, c.cargo.resource.value.total);
    SpawnLocalKeeps(w1, x);
    KeepsTransitive(w, w1, SpawnLocal(w1, x));
  }

  ghost predicate NoWorkspace(w: World, xs: seq<Entity>) {
    forall x | x in xs && x in w.entities :: w.entities[x].locale.workspace.None?
  }

  lemma KeepsStep(w: World, w': World, w'': World)
    requires Keeps(w, w') && Tied(w'') && Succeeds(w', w'')
    requires Coherent(w) ==> Coherent(w'') && KeepsMaster(w', w'')
    ensures Keeps(w, w'')
  {
    hide Tied, Coherent, MasterOf;
    SucceedsTransitive(w, w', w'');
    hide Succeeds;
  }

  lemma DespawnEntityKeeps(w: World, e: Entity)
    requires Tied(w)
    ensures Tied(DespawnEntity(w, e)) && Succeeds(w, DespawnEntity(w, e))
    ensures Coherent(w) && (e in w.entities ==> w.entities[e].locale.workspace.None?) ==>
      Coherent(DespawnEntity(w, e)) && MasterOf(DespawnEntity(w, e)) == MasterOf(w)
  {
    if e in w.net.byEntity {
      NameOf(w, e);
      hide Tied, Succeeds, Coherent, MasterOf;
      DespawnKeeps(w, w.net.byEntity[e]);
    } else {
      RetouchedKeeps(w, w);
    }
  }

  lemma NameOf(w: World, e: Entity)
    requires Tied(w) && e in w.net.byEntity
    ensures w.net.byEntity[e] in w.net.byId && w.net.byId[w.net.byEntity[e]] == e && e in w.entities
  {}

  /** What is left of the old entities is unchanged. */
  ghost predicate Spares(w: World, w': World) {
    && w.net.nextEntity <= w'.net.nextEntity
    && forall e | e in w'.entities && e < w.net.nextEntity :: e in w.entities && w'.entities[e] == w.entities[e]
  }

  lemma {:induction false} DespawnAllSpares(w: World, xs: seq<Entity>)
    ensures Spares(w, DespawnAll(w, xs)) && DespawnAll(w, xs).net.nextEntity == w.net.nextEntity
    ensures forall e | e in DespawnAll(w, xs).entities ::
            e in w.entities && DespawnAll(w, xs).entities[e] == w.entities[e]
  {
    if xs != [] {
      DespawnAllSpares(w, xs[..|xs| - 1]);
    }
  }

  lemma {:induction false} DespawnAllKeeps(w: World, xs: seq<Entity>)
    requires Tied(w) && (Coherent(w) ==> NoWorkspace(w, xs))
    ensures Keeps(w, DespawnAll(w, xs))
  {
    hide Tied, Succeeds, Coherent, MasterOf;
    if xs == [] {
      RetouchedKeeps(w, w);
    } else {
      var e, w1 := xs[|xs| - 1], DespawnAll(w, xs[..|xs| - 1]);
      DespawnAllKeeps(w, xs[..|xs| - 1]);
      DespawnAllSpares(w, xs[..|xs| - 1]);
      DespawnEntityKeeps(w1, e);
      KeepsStep(w, w1, DespawnEntity(w1, e));
    }
  }

  // ---- Growing worlds ------------------------------------------------------

  /** Only new entities: the old ones are all there, unchanged, under their old names. */
  ghost predicate Grows(w: World, w': World) {
    && w.net.nextEntity <= w'.net.nextEntity
    && (forall e | e in w.entities :: e in w'.entities && w'.entities[e] == w.entities[e])
    && (forall e | e in w'.entities && e < w.net.nextEntity :: e in w.entities)
    && (forall e | e in w.entities :: Get(w'.net.byEntity, e) == Get(w.net.byEntity, e))
  }

  lemma GrowsTransitive(w: World, w': World, w'': World)
    requires Grows(w, w') && Grows(w', w'') && forall e | e in w.entities :: e < w.net.nextEntity
    ensures Grows(w, w'')
  {}

  lemma HandlesBounded(w: World)
    requires Tied(w)
    ensures forall e | e in w.entities :: e < w.net.nextEntity
  {
    forall e | e in w.entities ensures e < w.net.nextEntity {
      assert e in ShapesOf(w.entities);
    }
  }

  lemma SpawnLocalGrows(w: World, c: Components)
    requires forall e | e in w.entities :: e < w.net.nextEntity
    ensures Grows(w, SpawnLocal(w, c))
  {}

  lemma SpawnAsGrows(w: World, n: NetworkId, c: Components)
    requires forall e | e in w.entities :: e < w.net.nextEntity
    ensures Grows(w, SpawnAs(w, n, c))
  {}

  lemma PlaceGrows(w: World, n: NetworkId, kind: nat, at: Position, ws: NetworkId)
    requires forall e | e in w.entities :: e < w.net.nextEntity
    ensures Grows(w, Place(w, n, kind, at, ws))
  {
    SpawnAsGrows(w, n, KindAt(kind, at, ws));
    hide KindAt;
  }

  lemma ReadyGrows(w: World)
    requires Tied(w)
    ensures Grows(w, Ready(w)) && forall e | e in Ready(w).entities :: e < Ready(w).net.nextEntity
  {
    hide Tied, MasterOf, KindAt;
    HandlesBounded(w);
    if MasterOf(w).None? {
      var w2 := SpawnMaster(Allocate(w));
      SpawnAsGrows(Allocate(Allocate(w)), w.net.nextId + 1, MasterParts(w.net.nextId + 1));
      SpawnMasterIsFound(Allocate(w));
      PlaceGrows(Allocate(w2), w2.net.nextId, RESOURCE, Position(30.0, 0.0), MasterOf(w2).value);
      hide SpawnMaster, Place;
      assert Ready(w) == Place(Allocate(w2), w2.net.nextId, RESOURCE, Position(30.0, 0.0), MasterOf(w2).value);
      GrowsTransitive(w, Allocate(w2), Ready(w));
    }
  }

  ghost function NewEntity(w: World): Entity {
    Ready(w).net.nextEntity
  }

  /** The new entity is the last one, under the id that was next, with the parts of its kind. */
  lemma SpawnKindNew(w: World, kind: nat, at: Position)
    requires Tied(w)
    ensures var w' := SpawnKind(w, kind, at);
      && Grows(w, w') && w.net.nextEntity <= NewEntity(w) && w'.net.nextEntity == NewEntity(w) + 1
      && Get(w'.net.byId, w.net.nextId) == Some(NewEntity(w))
      && Get(w'.entities, NewEntity(w)) == Some(Named(KindAt(kind, at, HomeOf(w)), w.net.nextId))
  {
    hide Tied, SpawnKind, Ready, HomeOf, KindAt;
    HandlesBounded(w);
    ReadyGrows(w);
    PlaceGrows(Ready(w), w.net.nextId, kind, at, HomeOf(w));
    SpawnKindPlaces(w, kind, at);
    GrowsTransitive(w, Ready(w), SpawnKind(w, kind, at));
  }

  /** Filling in a component value of the entity just spawned. */
  lemma FilledInKeeps(w: World, w1: World, w2: World, e: Entity, c: Components)
    requires Keeps(w, w1) && Grows(w, w1)
    requires e in w1.entities && w.net.nextEntity <= e && ShapeOf(c) == ShapeOf(w1.entities[e]) && w2 == Put(w1, e, c)
    requires forall e' | e' in w.entities :: e' < w.net.nextEntity
    ensures Keeps(w, w2) && Grows(w, w2) && MasterOf(w2) == MasterOf(w1)
  {
    hide Tied, Succeeds, Coherent, MasterOf, ShapeOf, ShapesOf;
    PutRetouches(w1, w1, e, c);
    RetouchedKeeps(w1, w2);
    KeepsTransitive(w, w1, w2);
  }

  lemma SpawnKindKept(w: World, kind: nat, at: Position)
    requires Tied(w)
    ensures Keeps(w, SpawnKind(w, kind, at))
  {
    hide Tied, Succeeds, Coherent, MasterOf, SpawnKind;
    SpawnKindKeeps(w, kind, at);
    SpawnKindTakes(w, kind, at);
  }

  /** A spawn takes one id, or three when it founds the master workspace. */
  lemma SpawnKindTakes(w: World, kind: nat, at: Position)
    ensures SpawnKind(w, kind, at).net.nextId == w.net.nextId + if MasterOf(w).Some? then 1 else 3
  {
    hide MasterOf, KindAt;
    if MasterOf(w).None? { SpawnMasterIsFound(Allocate(w)); }
  }

  lemma DropPayloadKeeps(w: World, c: Components)
    requires Tied(w)
    ensures Keeps(w, DropPayload(w, c)) && Grows(w, DropPayload(w, c))
  {
    HandlesBounded(w);
    hide Tied, Succeeds, Coherent, MasterOf, SpawnKind, ShapeOf;
    if c.cargo.store.Some? && c.cargo.store.value.payload > 0 {
      var w1 := SpawnKind(w, DATA_DROP, PositionOr0(c));
      SpawnKindKept(w, DATA_DROP, PositionOr0(c));
      SpawnKindNew(w, DATA_DROP, PositionOr0(c));
      var e := NewEntity(w);
      var parts := w1.entities[e];
      var parts' := parts.(cargo := parts.cargo.(drop := Some(c.cargo.store.value.payload)));
      if parts.cargo.drop.Some? {
        assert ShapeOf(parts') == ShapeOf(parts) by { DropShape(parts, c.cargo.store.value.payload); }
        FilledInKeeps(w, w1, DropPayload(w, c), e, parts');
      }
    } else {
      RetouchedKeeps(w, w);
    }
  }

  lemma DropShape(c: Components, amount: U16)
    requires c.cargo.drop.Some?
    ensures ShapeOf(c.(cargo := c.cargo.(drop := Some(amount)))) == ShapeOf(c)
  {}

  // ---- Terminations and the rest of the call -------------------------------

  lemma MournKeeps(w: World, c: Components)
    requires Tied(w)
    ensures Keeps(w, Mourn(w, c)) && Grows(w, Mourn(w, c))
  {
    HandlesBounded(w);
    SpawnLocalGrows(w, REINIT);
    hide Tied, Succeeds, Coherent, MasterOf;
    if c.clocks.training {
      SpawnLocalKeeps(w, REINIT);
    } else {
      RetouchedKeeps(w, w);
    }
  }

  ghost function BeforeDespawn(w: World, c: Components): World {
    Mourn(DropPayload(w, c), c)
  }

  lemma BeforeDespawnKeeps(w: World, c: Components)
    requires Tied(w)
    ensures Keeps(w, BeforeDespawn(w, c)) && Grows(w, BeforeDespawn(w, c))
  {
    hide Tied, Succeeds, Coherent, MasterOf, DropPayload, Mourn;
    HandlesBounded(w);
    var w1 := DropPayload(w, c);
    DropPayloadKeeps(w, c);
    MournKeeps(w1, c);
    KeepsTransitive(w, w1, Mourn(w1, c));
    GrowsTransitive(w, w1, Mourn(w1, c));
  }

  lemma ThenDespawnKeeps(w: World, w': World, n: NetworkId)
    requires Keeps(w, w')
    ensures Tied(Despawn(w', n)) && Succeeds(w, Despawn(w', n))
    ensures && Coherent(w)
            && (n in w'.net.byId ==>
                  w'.net.byId[n] in w'.entities && w'.entities[w'.net.byId[n]].locale.workspace.None?) ==>
              Coherent(Despawn(w', n)) && KeepsMaster(w, Despawn(w', n))
  {
    hide Tied, Succeeds, Coherent, MasterOf, WithoutMember, WithoutClient;
    DespawnKeeps(w', n);
    SucceedsTransitive(w, w', Despawn(w', n));
  }

  lemma TerminateKeeps(w: World, e: Entity)
    requires Tied(w)
    ensures Tied(Terminate(w, e)) && Succeeds(w, Terminate(w, e)) && Spares(w, Terminate(w, e))
    ensures Coherent(w) && (e in w.entities ==> w.entities[e].locale.workspace.None?) ==>
      Coherent(Terminate(w, e)) && KeepsMaster(w, Terminate(w, e))
  {
    if e in w.net.byEntity && e in w.entities {
      var c, n := w.entities[e], w.net.byEntity[e];
      var w2 := BeforeDespawn(w, c);
      NameOf(w, e);
      HandlesBounded(w);
      hide Tied, Succeeds, Coherent, MasterOf, Mourn, DropPayload;
      BeforeDespawnKeeps(w, c);
      assert Get(w2.net.byEntity, e) == Some(n);
      NameOf(w2, e);
      ThenDespawnKeeps(w, w2, n);
      hide Keeps, KeepsMaster;
    } else {
      RetouchedKeeps(w, w);
    }
  }

  lemma {:induction false} TerminateAllKeeps(w: World, xs: seq<Entity>)
    requires Tied(w) && (Coherent(w) ==> NoWorkspace(w, xs)) && forall k | 0 <= k < |xs| :: xs[k] < w.net.nextEntity
    ensures Keeps(w, TerminateAll(w, xs)) && Spares(w, TerminateAll(w, xs))
  {
    hide Tied, Succeeds, Coherent, MasterOf, Terminate;
    if xs == [] {
      RetouchedKeeps(w, w);
    } else {
      var e, w1 := xs[|xs| - 1], TerminateAll(w, xs[..|xs| - 1]);
      TerminateAllKeeps(w, xs[..|xs| - 1]);
      TerminateKeeps(w1, e);
      KeepsStep(w, w1, Terminate(w1, e));
    }
  }

  lemma {:induction false} RemoveBeamsKeeps(w: World, xs: seq<Entity>)
    requires Tied(w)
    requires Coherent(w) ==> forall x | x in xs && x in w.entities :: w.entities[x].gear.beam.Some?
    ensures Keeps(w, RemoveBeams(w, xs))
    ensures forall e | e in RemoveBeams(w, xs).entities ::
            e in w.entities && RemoveBeams(w, xs).entities[e] == w.entities[e]
  {
    hide Tied, Succeeds, Coherent, MasterOf;
    if xs == [] {
      RetouchedKeeps(w, w);
    } else {
      var e, w1 := xs[|xs| - 1], RemoveBeams(w, xs[..|xs| - 1]);
      RemoveBeamsKeeps(w, xs[..|xs| - 1]);
      RemoveBeamKeeps(w1, e);
      KeepsStep(w, w1, RemoveBeam(w1, e));
    }
  }

  lemma RemoveBeamKeeps(w: World, e: Entity)
    requires Tied(w)
    ensures Tied(RemoveBeam(w, e)) && Succeeds(w, RemoveBeam(w, e))
    ensures Coherent(w) && (e in w.entities ==> w.entities[e].gear.beam.Some?) ==>
      Coherent(RemoveBeam(w, e)) && MasterOf(RemoveBeam(w, e)) == MasterOf(w)
  {
    if e in w.entities && Coherent(w) {
      KindedAt(w, e);
      if e !in w.net.byEntity { LocalAnonymous(w, e); }
    }
    if e in w.net.byEntity {
      NameOf(w, e);
      hide Tied, Succeeds, Coherent, MasterOf;
      DespawnKeeps(w, w.net.byEntity[e]);
    } else {
      hide Tied, Succeeds, Coherent, MasterOf;
      RemoveLocalKeeps(w, e);
    }
  }

  lemma KindedAt(w: World, e: Entity)
    requires Coherent(w) && e in w.entities
    ensures Kinded(ShapeOf(w.entities[e])) && e < w.net.nextEntity
  {
    assert ShapesOf(w.entities)[e] == ShapeOf(w.entities[e]);
  }

  lemma {:induction false} ShootAllKeeps(w: World, shots: seq<Shot>)
    requires Tied(w)
    ensures Keeps(w, ShootAll(w, shots)) && Grows(w, ShootAll(w, shots))
  {
    hide Tied, Succeeds, Coherent, MasterOf, Shoot;
    if shots == [] {
      RetouchedKeeps(w, w);
    } else {
      var s, w1 := shots[|shots| - 1], ShootAll(w, shots[..|shots| - 1]);
      ShootAllKeeps(w, shots[..|shots| - 1]);
      ShootKeeps(w1, s);
      KeepsTransitive(w, w1, Shoot(w1, s));
      HandlesBounded(w);
      GrowsTransitive(w, w1, Shoot(w1, s));
    }
  }

  lemma ShootKeeps(w: World, s: Shot)
    requires Tied(w)
    ensures Keeps(w, Shoot(w, s)) && Grows(w, Shoot(w, s))
  {
    HandlesBounded(w);
    hide Tied, Succeeds, Coherent, MasterOf, SpawnKind;
    var w1, e := SpawnKind(w, BEAM, s.at), NewEntity(w);
    SpawnKindKept(w, BEAM, s.at);
    SpawnKindNew(w, BEAM, s.at);
    if w1.entities[e].gear.beam.Some? {
      var c := w1.entities[e];
      FilledInKeeps(w, w1, Shoot(w, s), e, c.(gear := c.gear.(beam := Some(c.gear.beam.value.(owner := s.owner)))));
    }
  }

  lemma RespawnKeeps(w: World, r: ResourceRespawn)
    requires Tied(w)
    ensures Keeps(w, Respawn(w, r)) && Grows(w, Respawn(w, r))
  {
    HandlesBounded(w);
    hide Tied, Succeeds, Coherent, MasterOf, SpawnKind;
    var w1, e := SpawnKind(w, RESOURCE, r.at), NewEntity(w);
    SpawnKindKept(w, RESOURCE, r.at);
    SpawnKindNew(w, RESOURCE, r.at);
    if w1.entities[e].cargo.resource.Some? {
      var c := w1.entities[e];
      FilledInKeeps(w, w1, Respawn(w, r), e, c.(cargo := c.cargo.(resource := Some(Resource(r.capacity, r.capacity)))));
    }
  }

  lemma {:induction false} RespawnAllKeeps(w: World, rs: seq<ResourceRespawn>)
    requires Tied(w)
    ensures Keeps(w, RespawnAll(w, rs)) && Grows(w, RespawnAll(w, rs))
  {
    hide Tied, Succeeds, Coherent, MasterOf, Respawn;
    if rs == [] {
      RetouchedKeeps(w, w);
    } else {
      var r, w1 := rs[|rs| - 1], RespawnAll(w, rs[..|rs| - 1]);
      RespawnAllKeeps(w, rs[..|rs| - 1]);
      RespawnKeeps(w1, r);
      KeepsTransitive(w, w1, Respawn(w1, r));
      HandlesBounded(w);
      GrowsTransitive(w, w1, Respawn(w1, r));
    }
  }

  lemma {:induction false} SpawnTargetsKeeps(w: World, ps: seq<Position>)
    requires Tied(w)
    ensures Keeps(w, SpawnTargets(w, ps)) && Grows(w, SpawnTargets(w, ps))
  {
    hide Tied, Succeeds, Coherent, MasterOf, SpawnKind;
    if ps == [] {
      RetouchedKeeps(w, w);
    } else {
      var p, w1 := ps[|ps| - 1], SpawnTargets(w, ps[..|ps| - 1]);
      SpawnTargetsKeeps(w, ps[..|ps| - 1]);
      SpawnKindKept(w1, TRAINING_TARGET, p);
      SpawnKindNew(w1, TRAINING_TARGET, p);
      KeepsTransitive(w, w1, SpawnKind(w1, TRAINING_TARGET, p));
      HandlesBounded(w);
      GrowsTransitive(w, w1, SpawnKind(w1, TRAINING_TARGET, p));
    }
  }

  /** Every entity listed is, if alive, a pending respawn. */
  ghost predicate ArePending(w: World, xs: seq<Entity>) {
    forall x | x in xs && x in w.entities :: w.entities[x].clocks.timer.Some? || w.entities[x].clocks.respawn.Some?
  }

  lemma PendingIsLocal(w: World, e: Entity)
    requires Tied(w)
    requires e in w.entities ==> w.entities[e].clocks.timer.Some? || w.entities[e].clocks.respawn.Some?
    ensures e !in w.net.byEntity
  {
    if e in w.net.byEntity {
      NameOf(w, e);
      LinkedAt(w, w.net.byEntity[e]);
    }
  }

  lemma {:induction false} RemoveAllKeeps(w: World, xs: seq<Entity>)
    requires Tied(w) && ArePending(w, xs)
    ensures Keeps(w, RemoveAll(w, xs)) && RemoveAll(w, xs).net == w.net
    ensures forall e :: e in RemoveAll(w, xs).entities <==> e in w.entities && e !in xs
    ensures forall e | e in RemoveAll(w, xs).entities :: RemoveAll(w, xs).entities[e] == w.entities[e]
  {
    hide Tied, Succeeds, Coherent, MasterOf;
    if xs == [] {
      RetouchedKeeps(w, w);
    } else {
      var e, w1 := xs[|xs| - 1], RemoveAll(w, xs[..|xs| - 1]);
      assert xs == xs[..|xs| - 1] + [e];
      RemoveAllKeeps(w, xs[..|xs| - 1]);
      PendingIsLocal(w1, e);
      RemovePendingKeeps(w1, e);
      KeepsTransitive(w, w1, RemoveLocal(w1, e));
    }
  }

  lemma RemovePendingKeeps(w: World, e: Entity)
    requires Tied(w) && e !in w.net.byEntity
    ensures Keeps(w, RemoveLocal(w, e))
  {
    if Coherent(w) && e in w.entities { LocalAnonymous(w, e); }
    hide Tied, Succeeds, Coherent, MasterOf;
    RemoveLocalKeeps(w, e);
  }

  // ---- What the lists of a call hold ---------------------------------------

  lemma {:induction false} ExhaustedAre(w: World, order: seq<Entity>)
    ensures forall x | x in Exhausted(w, order) :: IsExhausted(w, x) && x in order
  {
    hide IsExhausted;
    if order != [] {
      ExhaustedAre(w, order[..|order| - 1]);
    }
  }

  lemma {:induction false} EmptiedAre(w: World, cs: seq<Claim>)
    ensures forall x | x in Emptied(w, cs) :: x in w.entities && w.entities[x].cargo.drop.Some?
  {
    if cs != [] {
      EmptiedAre(w, cs[..|cs| - 1]);
      ClaimsRetouch(w, cs[..|cs| - 1]);
      RetouchedAt(w, ApplyClaims(w, cs[..|cs| - 1]), cs[|cs| - 1].drop);
    }
  }

  lemma RetouchedAt(w: World, w': World, e: Entity)
    requires Retouched(w, w')
    ensures e in w.entities <==> e in w'.entities
    ensures e in w.entities ==> ShapeOf(w'.entities[e]) == ShapeOf(w.entities[e])
  {
    hide ShapeOf;
    assert e in ShapesOf(w.entities) <==> e in ShapesOf(w'.entities);
  }

  lemma {:induction false} SpentAre(w: World, beams: seq<Entity>, targets: seq<Entity>)
    ensures forall x | x in Spent(w, beams, targets) :: x in w.entities && w.entities[x].gear.beam.Some?
  {
    hide IsSpent, BeamTarget;
    if beams != [] {
      SpentAre(w, beams[..|beams| - 1], targets);
      BeamsRetouch(w, beams[..|beams| - 1], targets);
      RetouchedAt(w, BeamAll(w, beams[..|beams| - 1], targets), beams[|beams| - 1]);
      hide BeamAll;
    }
  }

  lemma {:induction false} KilledAre(w: World, beams: seq<Entity>, targets: seq<Entity>)
    ensures forall x | x in Killed(w, beams, targets) :: x in w.entities && ShapeOf(w.entities[x]).pooled
  {
    if beams != [] {
      KilledAre(w, beams[..|beams| - 1], targets);
      BeamsRetouch(w, beams[..|beams| - 1], targets);
      var w1 := BeamAll(w, beams[..|beams| - 1], targets);
      var t := BeamTarget(w1, beams[|beams| - 1], targets);
      if t.Some? {
        assert HasPool(w1.entities[t.value]);
        RetouchedAt(w, w1, t.value);
      }
      hide BeamAll, BeamTarget, Fatal;
    }
  }

  lemma {:induction false} DoneTimersAre(w: World, order: seq<Entity>)
    ensures forall x | x in DoneTimers(w, order) :: TimerDone(w, x) && x in order
  {
    if order != [] {
      DoneTimersAre(w, order[..|order| - 1]);
    }
  }

  lemma {:induction false} DoneTrackersAre(w: World, order: seq<Entity>)
    ensures forall x | x in DoneTrackers(w, order) :: TrackerDone(w, x) && x in order
  {
    if order != [] {
      DoneTrackersAre(w, order[..|order| - 1]);
    }
  }

  // ---- The whole call ------------------------------------------------------

  lemma InputStageRetouches(w: World, i: Inputs)
    ensures Retouched(w, InputStage(w, i))
  {
    hide MoveAll, EncloseAll, ToggleAll;
    MoveRetouches(w, i.moved);
    EncloseRetouches(MoveAll(w, i.moved));
    ToggleRetouches(EncloseAll(MoveAll(w, i.moved)));
    hide ShapesOf;
  }

  lemma ExtractStageRetouches(w: World, i: Inputs)
    ensures Retouched(w, ExtractStage(w, i))
  {
    DisableRetouches(w, i.extractors, i.sqrt);
    TransferRetouches(DisableAll(w, i.extractors, i.sqrt), Transfers(w, i.extractors, i.sqrt));
  }

  lemma {:induction false} SpawnTrackersGrows(w: World, xs: seq<Entity>)
    requires forall e | e in w.entities :: e < w.net.nextEntity
    ensures Grows(w, SpawnTrackers(w, xs))
    ensures forall e | e in SpawnTrackers(w, xs).entities :: e < SpawnTrackers(w, xs).net.nextEntity
  {
    hide IsExhausted;
    if xs != [] {
      SpawnTrackersGrows(w, xs[..|xs| - 1]);
    }
  }

  lemma ExhaustStageKeeps(w: World, i: Inputs)
    requires Tied(w)
    ensures Keeps(w, ExhaustStage(w, i))
  {
    var xs := Exhausted(w, i.resources);
    var w1 := SpawnTrackers(w, xs);
    HandlesBounded(w);
    ExhaustedAre(w, i.resources);
    SpawnTrackersGrows(w, xs);
    if Coherent(w1) {
      forall x | x in xs && x in w1.entities ensures w1.entities[x].locale.workspace.None? {
        KindedAt(w1, x);
      }
    }
    hide Tied, Succeeds, Coherent, MasterOf, IsExhausted;
    SpawnTrackersKeeps(w, xs);
    DespawnAllKeeps(w1, xs);
    KeepsTransitive(w, w1, DespawnAll(w1, xs));
  }

  lemma CollectStageKeeps(w: World, i: Inputs)
    requires Tied(w)
    ensures Keeps(w, CollectStage(w, i))
  {
    var cs := Claims(w, i.drops, i.agents);
    var w1 := ApplyClaims(w, cs);
    ClaimsRetouch(w, cs);
    EmptiedAre(w, cs);
    if Coherent(w1) {
      forall x | x in Emptied(w, cs) && x in w1.entities ensures w1.entities[x].locale.workspace.None? {
        RetouchedAt(w, w1, x);
        KindedAt(w1, x);
      }
    }
    hide Tied, Succeeds, Coherent, MasterOf;
    RetouchedKeeps(w, w1);
    DespawnAllKeeps(w1, Emptied(w, cs));
    KeepsTransitive(w, w1, DespawnAll(w1, Emptied(w, cs)));
  }

  lemma BeamStageKeeps(w: World, i: Inputs)
    requires Tied(w)
    ensures Keeps(w, BeamStage(w, i))
  {
    var w1 := BeamAll(w, i.beams, i.targets);
    var dead, spent := Killed(w, i.beams, i.targets), Spent(w, i.beams, i.targets);
    var w2 := TerminateAll(w1, dead);
    KilledStage(w, i);
    SpentStage(w, i);
    hide Tied, Succeeds, Coherent, MasterOf, BeamAll, Killed, Spent;
    KeepsTransitive(w, w1, w2);
    KeepsTransitive(w, w2, RemoveBeams(w2, spent));
  }

  lemma KilledStage(w: World, i: Inputs)
    requires Tied(w)
    ensures var w1 := BeamAll(w, i.beams, i.targets); var w2 := TerminateAll(w1, Killed(w, i.beams, i.targets));
      Keeps(w, w1) && Keeps(w1, w2) && Spares(w1, w2)
  {
    hide Tied, Succeeds, Coherent, MasterOf, BeamAll, Killed, Terminate;
    var w1 := BeamAll(w, i.beams, i.targets);
    var dead := Killed(w, i.beams, i.targets);
    BeamsRetouch(w, i.beams, i.targets);
    RetouchedKeeps(w, w1);
    KilledAre(w, i.beams, i.targets);
    HandlesBounded(w);
    if Coherent(w1) {
      forall x | x in dead && x in w1.entities ensures w1.entities[x].locale.workspace.None? {
        RetouchedAt(w, w1, x);
        KindedAt(w1, x);
      }
    }
    forall k | 0 <= k < |dead| ensures dead[k] < w1.net.nextEntity {
      assert dead[k] in dead;
    }
    TerminateAllKeeps(w1, dead);
  }

  lemma SpentStage(w: World, i: Inputs)
    requires Tied(w)
    ensures var w2 := TerminateAll(BeamAll(w, i.beams, i.targets), Killed(w, i.beams, i.targets));
      Keeps(w2, RemoveBeams(w2, Spent(w, i.beams, i.targets)))
  {
    var w1 := BeamAll(w, i.beams, i.targets);
    var spent := Spent(w, i.beams, i.targets);
    var w2 := TerminateAll(w1, Killed(w, i.beams, i.targets));
    BeamsRetouch(w, i.beams, i.targets);
    SpentAre(w, i.beams, i.targets);
    HandlesBounded(w);
    hide Tied, Succeeds, Coherent, MasterOf, BeamAll, Killed, Spent;
    KilledStage(w, i);
    forall x | x in spent && x in w2.entities ensures w2.entities[x].gear.beam.Some? {
      RetouchedAt(w, w1, x);
    }
    RemoveBeamsKeeps(w2, spent);
  }

  lemma ReinitStageKeeps(w: World, i: Inputs)
    requires Tied(w)
    ensures Keeps(w, ReinitStage(w, i))
  {
    var w1 := TickTimers(w);
    var xs := DoneTimers(w1, i.timers);
    TickTimersRetouches(w);
    RetouchedKeeps(w, w1);
    DoneTimersAre(w1, i.timers);
    hide Tied, Succeeds, Coherent, MasterOf;
    RemoveAllKeeps(w1, xs);
    SpawnTargetsKeeps(RemoveAll(w1, xs), TimerPlaces(w1, xs));
    KeepsTransitive(w, w1, RemoveAll(w1, xs));
    KeepsTransitive(w, RemoveAll(w1, xs), ReinitStage(w, i));
  }

  lemma RespawnStageKeeps(w: World, i: Inputs)
    requires Tied(w)
    ensures Keeps(w, RespawnStage(w, i))
  {
    var w1 := TickTrackers(w);
    var xs := DoneTrackers(w1, i.trackers);
    TickTrackersRetouches(w);
    RetouchedKeeps(w, w1);
    DoneTrackersAre(w1, i.trackers);
    hide Tied, Succeeds, Coherent, MasterOf;
    RemoveAllKeeps(w1, xs);
    RespawnAllKeeps(RemoveAll(w1, xs), TrackersAt(w1, xs));
    KeepsTransitive(w, w1, RemoveAll(w1, xs));
    KeepsTransitive(w, RemoveAll(w1, xs), RespawnStage(w, i));
  }

  lemma ThroughCollectionKeeps(w: World, i: Inputs)
    requires Tied(w)
    ensures Keeps(w, ThroughCollection(w, i))
  {
    hide Tied, Succeeds, Coherent, MasterOf, InputStage, ExtractStage, ExhaustStage, CollectStage;
    var w1 := InputStage(w, i);
    var w2 := ExtractStage(w1, i);
    var w3 := ExhaustStage(w2, i);
    InputStageRetouches(w, i);
    ExtractStageRetouches(w1, i);
    RetouchedKeeps(w, w2);
    ExhaustStageKeeps(w2, i);
    CollectStageKeeps(w3, i);
    KeepsTransitive(w, w2, w3);
    KeepsTransitive(w, w3, CollectStage(w3, i));
  }

  lemma ThroughReinitKeeps(w: World, i: Inputs)
    requires Tied(w)
    ensures Keeps(w, ThroughReinit(w, i))
  {
    hide Tied, Succeeds, Coherent, MasterOf, ThroughCollection, BeamStage, RegenerateAll, ReinitStage;
    var w1 := ThroughCollection(w, i);
    var w2 := BeamStage(w1, i);
    var w3 := ShootAll(w2, i.shots);
    var w4 := RegenerateAll(w3);
    ThroughCollectionKeeps(w, i);
    BeamStageKeeps(w1, i);
    ShootAllKeeps(w2, i.shots);
    RegenerateRetouches(w3);
    RetouchedKeeps(w3, w4);
    ReinitStageKeeps(w4, i);
    KeepsTransitive(w, w1, w2);
    KeepsTransitive(w, w2, w3);
    KeepsTransitive(w, w3, w4);
    KeepsTransitive(w, w4, ReinitStage(w4, i));
  }

  /** One simulate call, whatever the motion, the query orders and the shots. */
  lemma SimulateKeeps(w: World, i: Inputs)
    requires Tied(w)
    ensures Keeps(w, Simulate(w, i))
  {
    hide Tied, Succeeds, Coherent, MasterOf, ThroughReinit, RespawnStage;
    ThroughReinitKeeps(w, i);
    RespawnStageKeeps(ThroughReinit(w, i), i);
    KeepsTransitive(w, ThroughReinit(w, i), Simulate(w, i));
  }
}
