/** What the stages leave alone of an entity that survives them: who it is and what it is told, where
    it is, and what protects it. */
module Frames {
  import opened Ecs
  import opened Adapter
  import opened Coherence
  import opened Economy
  import opened Upkeep
  import opened Session
  import opened Custody

  /** The parts of an entity that most stages leave alone. */
  datatype Part = ControlPart | PlacePart | PoolPart | StorePart

  predicate SamePart(p: Part, c: Components, c': Components) {
    match p
    case ControlPart => SameControls(c, c')
    case PlacePart => c'.locale == c.locale
    case PoolPart => c'.pools == c.pools
    case StorePart => c'.cargo.store == c.cargo.store
  }

  /** If `e` is still there, it was there before, this part of it is the same, and it has lost no
      component; the server's tick stays. */
  ghost predicate KeepsPart(p: Part, w: World, w': World, e: Entity) {
    && w.net.nextEntity <= w'.net.nextEntity && w'.serverTick == w.serverTick
    && (e < w.net.nextEntity && e in w'.entities ==>
          e in w.entities && SamePart(p, w.entities[e], w'.entities[e]) && Wears(w.entities[e], w'.entities[e]))
  }

  predicate SameControls(c: Components, c': Components) {
    c'.id == c.id && c'.gear.input == c.gear.input && c'.gear.extractor == c.gear.extractor
  }

  /** Every component of `c` is a component of `c'`. */
  predicate Wears(c: Components, c': Components) {
    && (c.id.networked.Some? ==> c'.id.networked.Some?)
    && (c.id.owner.Some? ==> c'.id.owner.Some?)
    && (c.id.session ==> c'.id.session)
    && (c.locale.position.Some? ==> c'.locale.position.Some?)
    && (c.locale.workspace.Some? ==> c'.locale.workspace.Some?)
    && (c.locale.bounds.Some? ==> c'.locale.bounds.Some?)
    && (c.locale.membership.Some? ==> c'.locale.membership.Some?)
    && (c.cargo.store.Some? ==> c'.cargo.store.Some?)
    && (c.cargo.resource.Some? ==> c'.cargo.resource.Some?)
    && (c.cargo.drop.Some? ==> c'.cargo.drop.Some?)
    && (c.pools.priority.Some? ==> c'.pools.priority.Some?)
    && (c.pools.integrity.Some? ==> c'.pools.integrity.Some?)
    && (c.pools.shell.Some? ==> c'.pools.shell.Some?)
    && (c.pools.regen.Some? ==> c'.pools.regen.Some?)
    && (c.gear.input.Some? ==> c'.gear.input.Some?)
    && (c.gear.extractor.Some? ==> c'.gear.extractor.Some?)
    && (c.gear.beam.Some? ==> c'.gear.beam.Some?)
    && (c.clocks.training ==> c'.clocks.training)
    && (c.clocks.respawn.Some? ==> c'.clocks.respawn.Some?)
    && (c.clocks.timer.Some? ==> c'.clocks.timer.Some?)
  }

  // ---- Spawning and despawning ---------------------------------------------

  lemma PlaceFrame(p: Part, w: World, n: NetworkId, kind: nat, at: Position, ws: NetworkId, e: Entity)
    ensures KeepsPart(p, w, Place(w, n, kind, at, ws), e)
  {
    hide KindAt;
  }

  lemma MasterFrame(p: Part, w: World, e: Entity)
    ensures KeepsPart(p, w, SpawnMaster(w), e)
  {}

  lemma SpawnKindFrame(p: Part, w: World, kind: nat, at: Position, e: Entity)
    ensures KeepsPart(p, w, SpawnKind(w, kind, at), e)
    decreases if MasterOf(w).None? then 1 else 0
  {
    hide MasterOf, Place, SpawnMaster, SamePart, Wears;
    match MasterOf(w)
    case Some(ws) => PlaceFrame(p, Allocate(w), w.net.nextId, kind, at, ws, e);
    case None =>
      var w1 := SpawnMaster(Allocate(w));
      SpawnMasterIsFound(Allocate(w));
      MasterFrame(p, Allocate(w), e);
      SpawnKindFrame(p, w1, RESOURCE, Position(30.0, 0.0), e);
      var w2 := SpawnKind(w1, RESOURCE, Position(30.0, 0.0));
      PlaceFrame(p, w2, w.net.nextId, kind, at, w.net.nextId + 1, e);
      Chain(p, Allocate(w), w1, w2, e);
      Chain(p, Allocate(w), w2, Place(w2, w.net.nextId, kind, at, w.net.nextId + 1), e);
  }

  lemma NothingChanged(p: Part, w: World, e: Entity)
    ensures KeepsPart(p, w, w, e)
  {}

  lemma Chain(p: Part, w: World, w': World, w'': World, e: Entity)
    requires KeepsPart(p, w, w', e) && KeepsPart(p, w', w'', e)
    ensures KeepsPart(p, w, w'', e)
  {}

  lemma {:induction false} DespawnAllFrame(p: Part, w: World, xs: seq<Entity>, e: Entity)
    ensures KeepsPart(p, w, DespawnAll(w, xs), e)
    decreases |xs|
  {
    if xs != [] { DespawnAllFrame(p, w, xs[..|xs| - 1], e); }
  }

  lemma {:induction false} TrackersFrame(p: Part, w: World, xs: seq<Entity>, e: Entity)
    ensures KeepsPart(p, w, SpawnTrackers(w, xs), e)
    decreases |xs|
  {
    hide IsExhausted, TrackerParts;
    if xs != [] { TrackersFrame(p, w, xs[..|xs| - 1], e); }
  }

  lemma PutFrame(p: Part, w: World, x: Entity, c: Components, e: Entity)
    requires x in w.entities && SamePart(p, w.entities[x], c) && Wears(w.entities[x], c)
    ensures KeepsPart(p, w, Put(w, x, c), e)
  {
    NothingChanged(p, w, e);
    hide SamePart, Wears;
  }

  lemma SetDropFrame(p: Part, w: World, n: NetworkId, amount: U16, e: Entity)
    ensures KeepsPart(p, w, SetDrop(w, n, amount), e)
  {
    hide KeepsPart;
    NothingChanged(p, w, e);
    if n in w.net.byId && w.net.byId[n] in w.entities && w.entities[w.net.byId[n]].cargo.drop.Some? {
      var c := w.entities[w.net.byId[n]];
      PutFrame(p, w, w.net.byId[n], c.(cargo := c.cargo.(drop := Some(amount))), e);
    }
  }

  lemma SetResourceFrame(p: Part, w: World, n: NetworkId, capacity: U16, e: Entity)
    ensures KeepsPart(p, w, SetResource(w, n, capacity), e)
  {
    hide KeepsPart;
    NothingChanged(p, w, e);
    if n in w.net.byId && w.net.byId[n] in w.entities && w.entities[w.net.byId[n]].cargo.resource.Some? {
      var c := w.entities[w.net.byId[n]];
      PutFrame(p, w, w.net.byId[n], c.(cargo := c.cargo.(resource := Some(Resource(capacity, capacity)))), e);
    }
  }

  lemma SetBeamOwnerFrame(p: Part, w: World, n: NetworkId, owner: NetworkId, e: Entity)
    ensures KeepsPart(p, w, SetBeamOwner(w, n, owner), e)
  {
    hide KeepsPart;
    NothingChanged(p, w, e);
    if n in w.net.byId && w.net.byId[n] in w.entities && w.entities[w.net.byId[n]].gear.beam.Some? {
      var c := w.entities[w.net.byId[n]];
      PutFrame(p, w, w.net.byId[n], c.(gear := c.gear.(beam := Some(c.gear.beam.value.(owner := owner)))), e);
    }
  }

  lemma DropPayloadFrame(p: Part, w: World, c: Components, e: Entity)
    ensures KeepsPart(p, w, DropPayload(w, c), e)
  {
    hide SpawnKind, SetDrop, SamePart, Wears, PositionOr0;
    if c.cargo.store.Some? && c.cargo.store.value.payload > 0 {
      var w1 := SpawnKind(w, DATA_DROP, PositionOr0(c));
      SpawnKindFrame(p, w, DATA_DROP, PositionOr0(c), e);
      SetDropFrame(p, w1, w.net.nextId, c.cargo.store.value.payload, e);
      Chain(p, w, w1, DropPayload(w, c), e);
    } else {
      NothingChanged(p, w, e);
    }
  }

  lemma MournFrame(p: Part, w: World, c: Components, e: Entity)
    ensures KeepsPart(p, w, Mourn(w, c), e)
  {}

  lemma DespawnFrame(p: Part, w: World, n: NetworkId, e: Entity)
    ensures KeepsPart(p, w, Despawn(w, n), e)
  {}

  lemma TerminateFrame(p: Part, w: World, x: Entity, e: Entity)
    ensures KeepsPart(p, w, Terminate(w, x), e)
  {
    hide DropPayload, Mourn, Despawn, SamePart, Wears;
    if x in w.net.byEntity && x in w.entities {
      var c := w.entities[x];
      var w1 := DropPayload(w, c);
      DropPayloadFrame(p, w, c, e);
      MournFrame(p, w1, c, e);
      Chain(p, w, w1, Mourn(w1, c), e);
      DespawnFrame(p, Mourn(w1, c), w.net.byEntity[x], e);
      Chain(p, w, Mourn(w1, c), Terminate(w, x), e);
    } else {
      NothingChanged(p, w, e);
    }
  }

  lemma {:induction false} TerminateAllFrame(p: Part, w: World, xs: seq<Entity>, e: Entity)
    ensures KeepsPart(p, w, TerminateAll(w, xs), e)
    decreases |xs|
  {
    hide Terminate;
    if xs != [] {
      TerminateAllFrame(p, w, xs[..|xs| - 1], e);
      TerminateFrame(p, TerminateAll(w, xs[..|xs| - 1]), xs[|xs| - 1], e);
    }
  }

  lemma {:induction false} RemoveBeamsFrame(p: Part, w: World, xs: seq<Entity>, e: Entity)
    ensures KeepsPart(p, w, RemoveBeams(w, xs), e)
    decreases |xs|
  {
    if xs != [] { RemoveBeamsFrame(p, w, xs[..|xs| - 1], e); }
  }

  lemma {:induction false} RemoveAllFrame(p: Part, w: World, xs: seq<Entity>, e: Entity)
    ensures KeepsPart(p, w, RemoveAll(w, xs), e)
    decreases |xs|
  {
    if xs != [] { RemoveAllFrame(p, w, xs[..|xs| - 1], e); }
  }

  lemma {:induction false} ShotsFrame(p: Part, w: World, shots: seq<Shot>, e: Entity)
    ensures KeepsPart(p, w, ShootAll(w, shots), e)
    decreases |shots|
  {
    hide SpawnKind, SetBeamOwner, SamePart, Wears;
    if shots == [] {
      NothingChanged(p, w, e);
    } else {
      var w1, shot := ShootAll(w, shots[..|shots| - 1]), shots[|shots| - 1];
      var w2 := SpawnKind(w1, BEAM, shot.at);
      ShotsFrame(p, w, shots[..|shots| - 1], e);
      SpawnKindFrame(p, w1, BEAM, shot.at, e);
      Chain(p, w, w1, w2, e);
      SetBeamOwnerFrame(p, w2, w1.net.nextId, shot.owner, e);
      Chain(p, w, w2, ShootAll(w, shots), e);
    }
  }

  lemma {:induction false} TargetsFrame(p: Part, w: World, ps: seq<Position>, e: Entity)
    ensures KeepsPart(p, w, SpawnTargets(w, ps), e)
    decreases |ps|
  {
    hide SpawnKind, SamePart, Wears;
    if ps == [] {
      NothingChanged(p, w, e);
    } else {
      var w1 := SpawnTargets(w, ps[..|ps| - 1]);
      TargetsFrame(p, w, ps[..|ps| - 1], e);
      SpawnKindFrame(p, w1, TRAINING_TARGET, ps[|ps| - 1], e);
      Chain(p, w, w1, SpawnTargets(w, ps), e);
    }
  }

  lemma {:induction false} RespawnsFrame(p: Part, w: World, rs: seq<ResourceRespawn>, e: Entity)
    ensures KeepsPart(p, w, RespawnAll(w, rs), e)
    decreases |rs|
  {
    hide SpawnKind, SetResource, SamePart, Wears;
    if rs == [] {
      NothingChanged(p, w, e);
    } else {
      var w1, r := RespawnAll(w, rs[..|rs| - 1]), rs[|rs| - 1];
      var w2 := SpawnKind(w1, RESOURCE, r.at);
      RespawnsFrame(p, w, rs[..|rs| - 1], e);
      SpawnKindFrame(p, w1, RESOURCE, r.at, e);
      Chain(p, w, w1, w2, e);
      SetResourceFrame(p, w2, w1.net.nextId, r.capacity, e);
      Chain(p, w, w2, RespawnAll(w, rs), e);
    }
  }

  // ---- Stages that write other components ----------------------------------

  lemma {:induction false} TransfersFrame(p: Part, w: World, ts: seq<Transfer>, e: Entity)
    requires p != StorePart
    ensures KeepsPart(p, w, TransferAll(w, ts), e)
    decreases |ts|
  {
    hide TransferOne, SamePart, Wears;
    if ts == [] {
      NothingChanged(p, w, e);
    } else {
      var w1 := TransferAll(w, ts[..|ts| - 1]);
      TransfersFrame(p, w, ts[..|ts| - 1], e);
      TransferFrame(p, w1, ts[|ts| - 1], e);
      Chain(p, w, w1, TransferAll(w, ts), e);
    }
  }

  lemma TransferFrame(p: Part, w: World, t: Transfer, e: Entity)
    requires p != StorePart
    ensures KeepsPart(p, w, TransferOne(w, t), e)
  {
    hide Granted;
  }

  lemma {:induction false} ClaimsFrame(p: Part, w: World, cs: seq<Claim>, e: Entity)
    requires p != StorePart
    ensures KeepsPart(p, w, ApplyClaims(w, cs), e)
    decreases |cs|
  {
    hide ApplyClaim, SamePart, Wears;
    if cs == [] {
      NothingChanged(p, w, e);
    } else {
      var w1 := ApplyClaims(w, cs[..|cs| - 1]);
      ClaimsFrame(p, w, cs[..|cs| - 1], e);
      ClaimFrame(p, w1, cs[|cs| - 1], e);
      Chain(p, w, w1, ApplyClaims(w, cs), e);
    }
  }

  lemma LoadFrame(p: Part, c: Components, amount: U16)
    requires p != StorePart
    ensures SamePart(p, c, Load(c, amount)) && Wears(c, Load(c, amount))
    ensures SamePart(p, c, TakeFrom(c, amount)) && Wears(c, TakeFrom(c, amount))
  {}

  lemma ClaimFrame(p: Part, w: World, cl: Claim, e: Entity)
    requires p != StorePart
    ensures KeepsPart(p, w, ApplyClaim(w, cl), e)
  {
    hide KeepsPart, SamePart, Wears, Load, TakeFrom;
    NothingChanged(p, w, e);
    if cl.amount > 0 {
      var w1 := if cl.agent in w.entities then Put(w, cl.agent, Load(w.entities[cl.agent], cl.amount)) else w;
      if cl.agent in w.entities {
        LoadFrame(p, w.entities[cl.agent], cl.amount);
        PutFrame(p, w, cl.agent, Load(w.entities[cl.agent], cl.amount), e);
      }
      if cl.drop in w1.entities {
        LoadFrame(p, w1.entities[cl.drop], cl.amount);
        PutFrame(p, w1, cl.drop, TakeFrom(w1.entities[cl.drop], cl.amount), e);
        Chain(p, w, w1, ApplyClaim(w, cl), e);
      }
    }
  }

  lemma {:induction false} BeamsFrame(p: Part, w: World, beams: seq<Entity>, targets: seq<Entity>, e: Entity)
    requires p != PoolPart
    ensures KeepsPart(p, w, BeamAll(w, beams, targets), e)
    decreases |beams|
  {
    hide BeamOne, SamePart, Wears;
    if beams == [] {
      NothingChanged(p, w, e);
    } else {
      var w1 := BeamAll(w, beams[..|beams| - 1], targets);
      BeamsFrame(p, w, beams[..|beams| - 1], targets, e);
      BeamFrame(p, w1, beams[|beams| - 1], targets, e);
      Chain(p, w, w1, BeamAll(w, beams, targets), e);
    }
  }

  lemma BeamFrame(p: Part, w: World, b: Entity, targets: seq<Entity>, e: Entity)
    requires p != PoolPart
    ensures KeepsPart(p, w, BeamOne(w, b, targets), e)
  {
    hide IsSpent;
  }

  // ---- One simulate call ---------------------------------------------------

  lemma CollectFrame(p: Part, w: World, i: Inputs, e: Entity)
    requires p != StorePart
    ensures KeepsPart(p, w, CollectStage(w, i), e)
  {
    hide Claims, Emptied, ApplyClaims, DespawnAll, SamePart, Wears;
    var cs := Claims(w, i.drops, i.agents);
    ClaimsFrame(p, w, cs, e);
    DespawnAllFrame(p, ApplyClaims(w, cs), Emptied(w, cs), e);
    Chain(p, w, ApplyClaims(w, cs), CollectStage(w, i), e);
  }

  lemma ExhaustFrame(p: Part, w: World, i: Inputs, e: Entity)
    ensures KeepsPart(p, w, ExhaustStage(w, i), e)
  {
    hide Exhausted, SpawnTrackers, DespawnAll, SamePart, Wears;
    var w1 := SpawnTrackers(w, Exhausted(w, i.resources));
    TrackersFrame(p, w, Exhausted(w, i.resources), e);
    DespawnAllFrame(p, w1, Exhausted(w, i.resources), e);
    Chain(p, w, w1, ExhaustStage(w, i), e);
  }

  lemma BeamStageFrame(p: Part, w: World, i: Inputs, e: Entity)
    requires p != PoolPart
    ensures KeepsPart(p, w, BeamStage(w, i), e)
  {
    hide BeamAll, Killed, Spent, TerminateAll, RemoveBeams, SamePart, Wears;
    var w1 := BeamAll(w, i.beams, i.targets);
    var w2 := TerminateAll(w1, Killed(w, i.beams, i.targets));
    BeamsFrame(p, w, i.beams, i.targets, e);
    TerminateAllFrame(p, w1, Killed(w, i.beams, i.targets), e);
    RemoveBeamsFrame(p, w2, Spent(w, i.beams, i.targets), e);
    Chain(p, w, w1, w2, e);
    Chain(p, w, w2, BeamStage(w, i), e);
  }

  lemma ReinitFrame(p: Part, w: World, i: Inputs, e: Entity)
    ensures KeepsPart(p, w, ReinitStage(w, i), e)
  {
    hide DoneTimers, RemoveAll, SpawnTargets, TimerPlaces;
    var w1 := TickTimers(w);
    var xs := DoneTimers(w1, i.timers);
    RemoveAllFrame(p, w1, xs, e);
    TargetsFrame(p, RemoveAll(w1, xs), TimerPlaces(w1, xs), e);
  }

  lemma RespawnFrame(p: Part, w: World, i: Inputs, e: Entity)
    ensures KeepsPart(p, w, RespawnStage(w, i), e)
  {
    hide DoneTrackers, RemoveAll, RespawnAll, TrackersAt;
    var w1 := TickTrackers(w);
    var xs := DoneTrackers(w1, i.trackers);
    RemoveAllFrame(p, w1, xs, e);
    RespawnsFrame(p, RemoveAll(w1, xs), TrackersAt(w1, xs), e);
  }

  lemma RegenerateFrame(p: Part, w: World, e: Entity)
    requires p != PoolPart
    ensures KeepsPart(p, w, RegenerateAll(w), e)
  {}

  /** After the beams that failed validation are off, the rest of the call leaves the controls alone. */
  lemma RestFrame(p: Part, w: World, i: Inputs, e: Entity)
    requires p == ControlPart || p == PlacePart
    ensures KeepsPart(p, DisableAll(InputStage(w, i), i.extractors, i.sqrt), Simulate(w, i), e)
  {
    hide InputStage, DisableAll, Transfers, TransferAll, ExhaustStage, CollectStage, BeamStage, ShootAll, RegenerateAll,
         ReinitStage, RespawnStage, SamePart, Wears;
    var w1 := InputStage(w, i);
    var w2 := DisableAll(w1, i.extractors, i.sqrt);
    TransfersFrame(p, w2, Transfers(w1, i.extractors, i.sqrt), e);
    var w3 := ExtractStage(w1, i);
    ExhaustFrame(p, w3, i, e);
    CollectFrame(p, ExhaustStage(w3, i), i, e);
    var w4 := ThroughCollection(w, i);
    Chain(p, w2, w3, ExhaustStage(w3, i), e);
    Chain(p, w2, ExhaustStage(w3, i), w4, e);
    hide ThroughCollection, ExtractStage;
    BeamStageFrame(p, w4, i, e);
    var w5 := BeamStage(w4, i);
    ShotsFrame(p, w5, i.shots, e);
    RegenerateFrame(p, ShootAll(w5, i.shots), e);
    var w6 := RegenerateAll(ShootAll(w5, i.shots));
    Chain(p, w4, w5, ShootAll(w5, i.shots), e);
    Chain(p, w4, ShootAll(w5, i.shots), w6, e);
    Chain(p, w2, w4, w6, e);
    ReinitFrame(p, w6, i, e);
    RespawnFrame(p, ReinitStage(w6, i), i, e);
    Chain(p, w6, ReinitStage(w6, i), Simulate(w, i), e);
    Chain(p, w2, w6, Simulate(w, i), e);
  }

  // ---- The other stages of a tick ------------------------------------------

  lemma SpawnForFrame(p: Part, w: World, kind: nat, at: Position, c: ClientId, e: Entity)
    requires Tied(w)
    ensures KeepsPart(p, w, SpawnKindFor(w, kind, at, c), e)
  {
    hide Tied, Succeeds, Founded, SpawnKind, KindAt, HomeOf;
    SpawnForKeeps(w, kind, at, c);
    hide NewEntity;
    SpawnKindFrame(p, w, kind, at, e);
  }

  lemma AgentFrame(p: Part, w: World, at: Position, c: ClientId, e: Entity)
    requires Tied(w)
    ensures KeepsPart(p, w, SpawnSessionAgent(w, AGENT, at, c), e)
  {
    hide Tied, Succeeds, Founded, SpawnKindFor, KindAt, HomeOf;
    SpawnForKeeps(w, AGENT, at, c);
    hide NewEntity;
    SpawnForFrame(p, w, AGENT, at, c, e);
  }

  lemma {:induction false} ManyFrame(p: Part, w: World, n: nat, places: nat -> Position, e: Entity)
    ensures KeepsPart(p, w, SpawnMany(w, n, places), e)
    decreases n
  {
    hide SpawnKind, SamePart, Wears;
    if n > 0 {
      var w1 := SpawnMany(w, n - 1, places);
      ManyFrame(p, w, n - 1, places, e);
      SpawnKindFrame(p, w1, STRESS_KINDS[(n - 1) % 5], places(n - 1), e);
      Chain(p, w, w1, SpawnMany(w, n, places), e);
    } else {
      NothingChanged(p, w, e);
    }
  }

  lemma ServeFrame(p: Part, s: Server, cfg: Config, c: ClientId, r: Request, e: Entity)
    requires Tied(s.world) && c in s.clients
    ensures KeepsPart(p, s.world, Serve(s, cfg, c, r).world, e)
  {
    hide Tied, SpawnKindFor, SpawnSessionAgent, SpawnMany;
    match r
    case StartSession => AgentFrame(p, s.world, Position(0.0, 0.0), c, e);
    case Spawn(kind, at) => SpawnForFrame(p, s.world, kind, at, c, e);
    case StressTest(count, places) =>
      ManyFrame(p, s.world, if count < MAX_STRESS then count else MAX_STRESS, places, e);
    case _ =>
  }

  lemma DropFrame(p: Part, s: Server, c: ClientId, cs: set<ClientId>, e: Entity)
    ensures KeepsPart(p, s.world, Drop(s, c).world, e) && KeepsPart(p, s.world, DropSet(s, cs).world, e)
  {
    hide Victims, Evicted, WithoutMembers;
  }

  lemma HandleFrame(p: Part, s: Server, cfg: Config, v: Session.Event, e: Entity)
    requires Tied(s.world)
    ensures KeepsPart(p, s.world, Handle(s, cfg, v).world, e)
  {
    hide Tied, Drop, DropSet, Serve, SamePart, Wears;
    NothingChanged(p, s.world, e);
    DropFrame(p, s, v.client, {}, e);
    if v.Message? && v.client in s.clients {
      ServeFrame(p, s, cfg, v.client, v.request, e);
    } else if v.Message? && v.request.Auth? && v.request.verified.Some? {
      DropFrame(p, s, v.client, Ghosts(s.clients, v.client, v.request.verified.value.player), e);
    }
  }

  lemma OtherFrame(p: Part, s: Server, cfg: Config, a: Stage, e: Entity)
    requires Tied(s.world) && !a.AdvanceTick? && !a.ApplyPending? && !a.SimulateStep?
    ensures KeepsPart(p, s.world, Do(s, cfg, a).world, e)
  {
    hide Tied, DropSet, Handle, SpawnMany;
    match a
    case Revoke(refused) => DropFrame(p, s, 0, refused * s.clients.Keys, e);
    case Receive(v) => HandleFrame(p, s, cfg, v, e);
    case Populate(n, places) => ManyFrame(p, s.world, n, places, e);
  }
}
