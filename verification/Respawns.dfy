/** When pending respawns come due: a tracker or timer is left alone by everything in a
    simulate call but its own countdown, and comes back in place when that runs out. */
module Respawns {
  import opened Ecs
  import opened Adapter
  import opened Coherence
  import opened Economy
  import opened Upkeep
  import opened Ledger

  predicate IsPending(w: World, e: Entity) {
    e in w.entities && (w.entities[e].clocks.respawn.Some? || w.entities[e].clocks.timer.Some?)
  }

  /** The pending respawn `e` is still there with the same clocks. */
  predicate Untouched(w: World, w': World, e: Entity) {
    e in w.entities && e in w'.entities && w'.entities[e].clocks == w.entities[e].clocks
  }

  lemma PendingIs(w: World, e: Entity)
    requires Coherent(w) && IsPending(w, e)
    ensures e !in w.net.byEntity && w.entities[e].gear.beam.None? && w.entities[e].cargo == NO_CARGO
    ensures w.entities[e].clocks.respawn.Some? ==> w.entities[e].clocks.timer.None?
  {
    KindedAt(w, e);
    PendingIsLocal(w, e);
  }

  lemma RewriteUntouched(w: World, w': World, e: Entity)
    requires SameClocks(w.entities, w'.entities) && e in w.entities
    ensures Untouched(w, w', e)
  {
    assert e in w'.entities.Keys;
  }

  lemma InputExtractUntouched(w: World, i: Inputs, e: Entity)
    requires e in w.entities
    ensures Untouched(w, ExtractStage(InputStage(w, i), i), e)
  {
    var w1 := InputStage(w, i);
    var w2 := DisableAll(w1, i.extractors, i.sqrt);
    assert Untouched(w, w1, e);
    assert Untouched(w1, w2, e) by { hide Validate; }
    hide InputStage, DisableAll, Transfers;
    TransfersKeepClocks(w2, Transfers(w1, i.extractors, i.sqrt));
    RewriteUntouched(w2, ExtractStage(w1, i), e);
  }

  lemma {:induction false} DespawnAllUntouched(w: World, xs: seq<Entity>, e: Entity)
    requires Tied(w) && e in w.entities && e !in w.net.byEntity
    ensures e in DespawnAll(w, xs).entities && DespawnAll(w, xs).entities[e] == w.entities[e]
    ensures e !in DespawnAll(w, xs).net.byEntity
  {
    hide Tied, WithoutMember, WithoutClient;
    if xs != [] {
      var w1, x := DespawnAll(w, xs[..|xs| - 1]), xs[|xs| - 1];
      DespawnAllUntouched(w, xs[..|xs| - 1], e);
      DespawnAllTied(w, xs[..|xs| - 1]);
      hide DespawnAll;
      if x in w1.net.byEntity { NameOf(w1, x); }
    }
  }

  lemma ExhaustStageUntouched(w: World, i: Inputs, e: Entity)
    requires Coherent(w) && IsPending(w, e)
    ensures Untouched(w, ExhaustStage(w, i), e)
  {
    var xs := Exhausted(w, i.resources);
    PendingIs(w, e);
    hide Coherent, Tied, Exhausted, SpawnTrackers, DespawnAll;
    CoherentIsTied(w);
    HandlesBounded(w);
    SpawnTrackersGrows(w, xs);
    SpawnTrackersKeeps(w, xs);
    assert Get(SpawnTrackers(w, xs).net.byEntity, e) == Get(w.net.byEntity, e);
    DespawnAllUntouched(SpawnTrackers(w, xs), xs, e);
  }

  lemma CollectStageUntouched(w: World, i: Inputs, e: Entity)
    requires Coherent(w) && IsPending(w, e)
    ensures Untouched(w, CollectStage(w, i), e)
  {
    var cs := Claims(w, i.drops, i.agents);
    PendingIs(w, e);
    hide Coherent, Tied, Claims, ApplyClaims, Emptied, DespawnAll;
    CoherentIsTied(w);
    ClaimsRetouch(w, cs);
    ClaimsKeepClocks(w, cs);
    RewriteUntouched(w, ApplyClaims(w, cs), e);
    RetouchedKeeps(w, ApplyClaims(w, cs));
    DespawnAllUntouched(ApplyClaims(w, cs), Emptied(w, cs), e);
  }

  lemma {:induction false} BeamsKeepClocks(w: World, beams: seq<Entity>, targets: seq<Entity>)
    ensures SameClocks(w.entities, BeamAll(w, beams, targets).entities)
  {
    hide FirstTarget, IsSpent, HitPools;
    if beams != [] {
      BeamsKeepClocks(w, beams[..|beams| - 1], targets);
      BeamKeepsClocks(BeamAll(w, beams[..|beams| - 1], targets), beams[|beams| - 1], targets);
    }
  }

  lemma BeamKeepsClocks(w: World, b: Entity, targets: seq<Entity>)
    ensures SameClocks(w.entities, BeamOne(w, b, targets).entities)
  {
    hide IsSpent, HitPools;
    assert BeamOne(w, b, targets).entities.Keys == w.entities.Keys;
  }

  lemma TerminateUntouched(w: World, x: Entity, e: Entity)
    requires Tied(w) && e in w.entities && e !in w.net.byEntity
    ensures e in Terminate(w, x).entities && Terminate(w, x).entities[e] == w.entities[e]
    ensures e !in Terminate(w, x).net.byEntity
  {
    hide Tied, Mourn, DropPayload, WithoutMember, WithoutClient;
    if x in w.net.byEntity {
      NameOf(w, x);
      var w2 := BeforeDespawn(w, w.entities[x]);
      BeforeDespawnKeeps(w, w.entities[x]);
      assert Get(w2.net.byEntity, x) == Get(w.net.byEntity, x);
      assert Get(w2.net.byEntity, e) == Get(w.net.byEntity, e);
      hide Keeps, BeforeDespawn;
      TerminateIs(w, x);
      NameOf(w2, x);
    }
  }

  lemma {:induction false} TerminateAllUntouched(w: World, xs: seq<Entity>, e: Entity)
    requires Tied(w) && e in w.entities && e !in w.net.byEntity
    ensures e in TerminateAll(w, xs).entities && TerminateAll(w, xs).entities[e] == w.entities[e]
    ensures e !in TerminateAll(w, xs).net.byEntity
  {
    hide Tied, Terminate;
    if xs != [] {
      TerminateAllUntouched(w, xs[..|xs| - 1], e);
      TerminateAllTied(w, xs[..|xs| - 1]);
      TerminateUntouched(TerminateAll(w, xs[..|xs| - 1]), xs[|xs| - 1], e);
    }
  }

  lemma {:induction false} RemoveBeamsUntouched(w: World, xs: seq<Entity>, e: Entity)
    requires Tied(w) && e in w.entities && e !in xs && e !in w.net.byEntity
    ensures e in RemoveBeams(w, xs).entities && RemoveBeams(w, xs).entities[e] == w.entities[e]
    ensures Tied(RemoveBeams(w, xs)) && e !in RemoveBeams(w, xs).net.byEntity
  {
    if xs != [] {
      var x, w1 := xs[|xs| - 1], RemoveBeams(w, xs[..|xs| - 1]);
      assert xs == xs[..|xs| - 1] + [x];
      RemoveBeamsUntouched(w, xs[..|xs| - 1], e);
      if x in w1.net.byEntity { NameOf(w1, x); }
      hide Tied, RemoveBeams;
      RemoveBeamKeeps(w1, x);
    }
  }

  lemma BeamStageUntouched(w: World, i: Inputs, e: Entity)
    requires Coherent(w) && IsPending(w, e)
    ensures Untouched(w, BeamStage(w, i), e)
  {
    PendingIs(w, e);
    SpentAre(w, i.beams, i.targets);
    hide Coherent, Tied, BeamAll, Killed, Spent, TerminateAll, RemoveBeams;
    var w1 := BeamAll(w, i.beams, i.targets);
    CoherentIsTied(w);
    BeamsRetouch(w, i.beams, i.targets);
    BeamsKeepClocks(w, i.beams, i.targets);
    RewriteUntouched(w, w1, e);
    RetouchedKeeps(w, w1);
    TerminateAllUntouched(w1, Killed(w, i.beams, i.targets), e);
    TerminateAllTied(w1, Killed(w, i.beams, i.targets));
    RemoveBeamsUntouched(TerminateAll(w1, Killed(w, i.beams, i.targets)), Spent(w, i.beams, i.targets), e);
  }

  /** The world that the countdowns meet. */
  ghost function BeforeReinit(w: World, i: Inputs): World {
    RegenerateAll(ShootAll(BeamStage(ThroughCollection(w, i), i), i.shots))
  }

  lemma AfterBeamsUntouched(w: World, i: Inputs, e: Entity)
    requires Tied(w) && e in w.entities
    ensures Untouched(w, RegenerateAll(ShootAll(w, i.shots)), e)
  {
    hide Tied, Keeps, ShootAll, RegenerateAll;
    ShootAllKeeps(w, i.shots);
    RegenerateUntouched(ShootAll(w, i.shots), e);
  }

  lemma RegenerateUntouched(w: World, e: Entity)
    requires e in w.entities
    ensures Untouched(w, RegenerateAll(w), e)
  {}

  /** From the exhaustion stage on, nothing before the countdowns touches a pending respawn. */
  lemma AfterExhaustUntouched(w: World, i: Inputs, e: Entity)
    requires Coherent(w) && IsPending(ExhaustStage(ExtractStage(InputStage(w, i), i), i), e)
    ensures Untouched(ExhaustStage(ExtractStage(InputStage(w, i), i), i), BeforeReinit(w, i), e)
  {
    hide Coherent, Tied, InputStage, ExtractStage, ExhaustStage, CollectStage, BeamStage, RegenerateAll;
    StagesCoherent(w, i);
    var w3 := ExhaustStage(ExtractStage(InputStage(w, i), i), i);
    var w4 := ThroughCollection(w, i);
    CollectStageUntouched(w3, i, e);
    BeamStageUntouched(w4, i, e);
    CoherentIsTied(BeamStage(w4, i));
    AfterBeamsUntouched(BeamStage(w4, i), i, e);
  }

  /** Nothing before the countdowns touches a pending respawn. */
  lemma PendingUntouched(w: World, i: Inputs, e: Entity)
    requires Coherent(w) && IsPending(w, e)
    ensures Untouched(w, BeforeReinit(w, i), e)
  {
    hide Coherent, Tied, InputStage, ExtractStage, ExhaustStage, BeforeReinit;
    StagesCoherent(w, i);
    var w2 := ExtractStage(InputStage(w, i), i);
    InputExtractUntouched(w, i, e);
    ExhaustStageUntouched(w2, i, e);
    AfterExhaustUntouched(w, i, e);
  }

  // ---- Trackers ------------------------------------------------------------

  lemma ReinitUntouched(w: World, i: Inputs, e: Entity)
    requires Coherent(w) && IsPending(w, e) && w.entities[e].clocks.respawn.Some?
    ensures Untouched(w, ReinitStage(w, i), e)
  {
    var w1 := TickTimers(w);
    var xs := DoneTimers(w1, i.timers);
    PendingIs(w, e);
    assert Untouched(w, w1, e);
    TickTimersRetouches(w);
    DoneTimersAre(w1, i.timers);
    hide Coherent, Tied, DoneTimers, TickTimers;
    CoherentIsTied(w);
    RetouchedKeeps(w, w1);
    RemoveAllKeeps(w1, xs);
    SpawnTargetsKeeps(RemoveAll(w1, xs), TimerPlaces(w1, xs));
  }

  /** An entity that came with a respawn: a full resource in its place. */
  predicate IsBack(w: World, e: Entity, r: ResourceRespawn) {
    && e in w.entities && e in w.net.byEntity
    && w.entities[e].cargo.resource == Some(Resource(r.capacity, r.capacity))
    && w.entities[e].locale.position == Some(r.at)
  }

  lemma RespawnIsBack(w: World, r: ResourceRespawn)
    requires Tied(w)
    ensures IsBack(Respawn(w, r), NewEntity(w), r) && Respawn(w, r).net.nextEntity == NewEntity(w) + 1
  {
    hide Tied, SpawnKind, KindAt, ShapeOf, ShapesOf, NewEntity, Grows, Keeps;
    var w1 := SpawnKind(w, RESOURCE, r.at);
    SpawnKindNew(w, RESOURCE, r.at);
    SpawnKindKeeps(w, RESOURCE, r.at);
    LinkedAt(w1, w.net.nextId);
    ResourceIsPlaced(r.at, HomeOf(w), w.net.nextId);
  }

  lemma ResourceIsPlaced(at: Position, ws: NetworkId, n: NetworkId)
    ensures var c := Named(KindAt(RESOURCE, at, ws), n); c.cargo.resource.Some? && c.locale.position == Some(at)
  {}

  lemma IsBackPersists(w: World, w': World, e: Entity, r: ResourceRespawn)
    requires IsBack(w, e, r) && Grows(w, w')
    ensures IsBack(w', e, r)
  {
    assert Get(w'.net.byEntity, e) == Get(w.net.byEntity, e);
  }

  /** Each respawn in a list has an entity of its own. */
  ghost function BackAs(w: World, rs: seq<ResourceRespawn>, k: nat): Entity
    requires k < |rs|
  {
    NewEntity(RespawnAll(w, rs[..k]))
  }

  lemma {:induction false} AllAreBack(w: World, rs: seq<ResourceRespawn>, k: nat)
    requires Tied(w) && k < |rs|
    ensures IsBack(RespawnAll(w, rs), BackAs(w, rs, k), rs[k])
    ensures w.net.nextEntity <= BackAs(w, rs, k) < RespawnAll(w, rs).net.nextEntity
    ensures forall j | 0 <= j < k :: BackAs(w, rs, j) < BackAs(w, rs, k)
  {
    hide Tied, Respawn, IsBack, NewEntity;
    var rs1, r := rs[..|rs| - 1], rs[|rs| - 1];
    var w1 := RespawnAll(w, rs1);
    RespawnStep(w, rs1, r);
    if k < |rs| - 1 {
      AllAreBack(w, rs1, k);
      assert rs1[..k] == rs[..k];
      forall j | 0 <= j < k ensures BackAs(w, rs, j) < BackAs(w, rs, k) {
        assert rs1[..j] == rs[..j];
        assert BackAs(w, rs1, j) < BackAs(w, rs1, k);
      }
      IsBackPersists(w1, RespawnAll(w, rs), BackAs(w, rs, k), rs[k]);
    } else {
      assert rs[..k] == rs1;
      forall j | 0 <= j < k ensures BackAs(w, rs, j) < BackAs(w, rs, k) {
        AllAreBack(w, rs1, j);
        assert rs1[..j] == rs[..j];
      }
    }
  }

  lemma RespawnStep(w: World, rs: seq<ResourceRespawn>, r: ResourceRespawn)
    requires Tied(w)
    ensures var w1 := RespawnAll(w, rs);
      && Grows(w1, Respawn(w1, r)) && IsBack(Respawn(w1, r), NewEntity(w1), r)
      && w.net.nextEntity <= w1.net.nextEntity <= NewEntity(w1) && Respawn(w1, r).net.nextEntity == NewEntity(w1) + 1
  {
    hide Tied, Respawn, IsBack, NewEntity, RespawnAll;
    var w1 := RespawnAll(w, rs);
    RespawnAllKeeps(w, rs);
    RespawnKeeps(w1, r);
    RespawnIsBack(w1, r);
    SpawnKindNew(w1, RESOURCE, r.at);
  }

  /** The countdown of a tracker that the last stage meets. */
  lemma TrackerEnds(w: World, i: Inputs, e: Entity) returns (e': Entity)
    requires Coherent(w) && IsPending(BeforeReinit(w, i), e) && e in i.trackers
    requires BeforeReinit(w, i).entities[e].clocks.respawn.Some?
    ensures var r, w' := BeforeReinit(w, i).entities[e].clocks.respawn.value, Simulate(w, i);
      if r.remaining > 1 then
        && e in w'.entities
        && w'.entities[e].clocks
        == BeforeReinit(w, i).entities[e].clocks.(respawn := Some(r.(remaining := r.remaining - 1)))
      else
        e !in w'.entities && w.net.nextEntity <= e' && IsBack(w', e', r)
  {
    hide Coherent, Tied, InputStage, ExtractStage, ExhaustStage, CollectStage, BeamStage, ReinitStage, RespawnStage;
    hide RegenerateAll;
    StagesCoherent(w, i);
    CoherentIsTied(w);
    ReinitUntouched(BeforeReinit(w, i), i, e);
    e' := TrackerRunsOut(ThroughReinit(w, i), i, e);
    ThroughReinitAges(w, i);
  }

  lemma ThroughReinitAges(w: World, i: Inputs)
    requires Tied(w)
    ensures w.net.nextEntity <= ThroughReinit(w, i).net.nextEntity
  {
    hide Tied, ThroughReinit;
    ThroughReinitKeeps(w, i);
  }

  /** One simulate call counts a tracker down by one, or brings its resource back if it runs out. */
  lemma TrackerCountsDown(w: World, i: Inputs, e: Entity) returns (e': Entity)
    requires Coherent(w) && IsPending(w, e) && w.entities[e].clocks.respawn.Some? && e in i.trackers
    ensures var r, w' := w.entities[e].clocks.respawn.value, Simulate(w, i);
      if r.remaining > 1 then
        && e in w'.entities
        && w'.entities[e].clocks == w.entities[e].clocks.(respawn := Some(r.(remaining := r.remaining - 1)))
      else
        e !in w'.entities && w.net.nextEntity <= e' && IsBack(w', e', r)
  {
    hide Coherent, BeforeReinit, Simulate, IsBack;
    PendingUntouched(w, i, e);
    e' := TrackerEnds(w, i, e);
  }

  lemma TickedAt(w: World, i: Inputs, e: Entity)
    requires e in w.entities && w.entities[e].clocks.respawn.Some? && e in i.trackers
    ensures var w1, r := TickTrackers(w), w.entities[e].clocks.respawn.value;
      && e in w1.entities
      && w1.entities[e].clocks == w.entities[e].clocks.(respawn := Some(r.(remaining := SatDec(r.remaining))))
      && (e in DoneTrackers(w1, i.trackers) <==> r.remaining <= 1)
  {
    DoneTrackersAre(TickTrackers(w), i.trackers);
    if w.entities[e].clocks.respawn.value.remaining <= 1 { DoneTrackersAll(TickTrackers(w), i.trackers, e); }
  }

  lemma TrackerRunsOut(w: World, i: Inputs, e: Entity) returns (e': Entity)
    requires Coherent(w) && IsPending(w, e) && w.entities[e].clocks.respawn.Some? && e in i.trackers
    ensures var r, w' := w.entities[e].clocks.respawn.value, RespawnStage(w, i);
      if r.remaining > 1 then
        && e in w'.entities
        && w'.entities[e].clocks == w.entities[e].clocks.(respawn := Some(r.(remaining := r.remaining - 1)))
      else
        e !in w'.entities && w.net.nextEntity <= e' && IsBack(w', e', r)
  {
    hide Coherent, Tied, DoneTrackers, TickTrackers, IsBack, TrackerDone, BackAs, Succeeds, MasterOf, Keeps;
    var w1 := TickTrackers(w);
    var xs := DoneTrackers(w1, i.trackers);
    var rs := TrackersAt(w1, xs);
    TickedAt(w, i, e);
    RemovedTied(w, i);
    RespawnAllKeeps(RemoveAll(w1, xs), rs);
    RemoveAllKeeps(w1, xs);
    e' := 0;
    if e in xs {
      var k :| 0 <= k < |xs| && xs[k] == e;
      AllAreBack(RemoveAll(w1, xs), rs, k);
      e' := BackAs(RemoveAll(w1, xs), rs, k);
      SameReturn(RespawnStage(w, i), e', w.entities[e].clocks.respawn.value, rs[k]);
    }
  }

  lemma SameReturn(w: World, e: Entity, r: ResourceRespawn, r': ResourceRespawn)
    requires IsBack(w, e, r') && r'.at == r.at && r'.capacity == r.capacity
    ensures IsBack(w, e, r)
  {}

  lemma RemovedTied(w: World, i: Inputs)
    requires Coherent(w)
    ensures var w1 := TickTrackers(w); var xs := DoneTrackers(w1, i.trackers);
      && Tied(w1) && ArePending(w1, xs) && Tied(RemoveAll(w1, xs))
      && RemoveAll(w1, xs).net.nextEntity == w.net.nextEntity
      && forall e | e in w.entities :: e < w.net.nextEntity
  {
    hide Coherent, Tied, DoneTrackers, TickTrackers, Succeeds, MasterOf;
    var w1 := TickTrackers(w);
    TickTrackersRetouches(w);
    DoneTrackersPending(w1, i.trackers);
    CoherentIsTied(w);
    HandlesBounded(w);
    RetouchedKeeps(w, w1);
    RemoveAllKeeps(w1, DoneTrackers(w1, i.trackers));
  }

  lemma DoneTrackersPending(w: World, order: seq<Entity>)
    ensures ArePending(w, DoneTrackers(w, order))
  {
    DoneTrackersAre(w, order);
  }

  // ---- Training targets ----------------------------------------------------

  predicate IsTarget(w: World, e: Entity, at: Position) {
    && e in w.entities && e in w.net.byEntity && w.entities[e].clocks == NO_CLOCKS.(training := true)
    && w.entities[e].locale.position == Some(at)
  }

  lemma TargetIsPlaced(w: World, at: Position)
    requires Tied(w)
    ensures IsTarget(SpawnKind(w, TRAINING_TARGET, at), NewEntity(w), at)
  {
    hide Tied, SpawnKind, KindAt, ShapeOf, ShapesOf, NewEntity, Grows;
    var w1 := SpawnKind(w, TRAINING_TARGET, at);
    SpawnKindNew(w, TRAINING_TARGET, at);
    SpawnKindKeeps(w, TRAINING_TARGET, at);
    LinkedAt(w1, w.net.nextId);
    TargetParts(at, HomeOf(w), w.net.nextId);
  }

  lemma TargetParts(at: Position, ws: NetworkId, n: NetworkId)
    ensures var c := Named(KindAt(TRAINING_TARGET, at, ws), n);
      c.clocks == NO_CLOCKS.(training := true) && c.locale.position == Some(at)
  {}

  lemma IsTargetPersists(w: World, w': World, e: Entity, at: Position)
    requires IsTarget(w, e, at) && Grows(w, w')
    ensures IsTarget(w', e, at)
  {
    assert Get(w'.net.byEntity, e) == Get(w.net.byEntity, e);
  }

  lemma {:induction false} TargetPlaced(w: World, ps: seq<Position>, k: nat) returns (e: Entity)
    requires Tied(w) && k < |ps|
    ensures w.net.nextEntity <= e && IsTarget(SpawnTargets(w, ps), e, ps[k])
  {
    hide Tied, SpawnKind, IsTarget;
    var ps1, p := ps[..|ps| - 1], ps[|ps| - 1];
    var w1 := SpawnTargets(w, ps1);
    SpawnTargetsKeeps(w, ps1);
    SpawnKindNew(w1, TRAINING_TARGET, p);
    if k < |ps| - 1 {
      e := TargetPlaced(w, ps1, k);
      IsTargetPersists(w1, SpawnTargets(w, ps), e, ps[k]);
    } else {
      e := NewEntity(w1);
      TargetIsPlaced(w1, p);
    }
  }

  /** The last stage leaves alone what is no tracker. */
  lemma RespawnStageSpares(w: World, i: Inputs, e: Entity)
    requires Tied(w) && e in w.entities && w.entities[e].clocks.respawn.None?
    ensures e in RespawnStage(w, i).entities && RespawnStage(w, i).entities[e] == w.entities[e]
    ensures Get(RespawnStage(w, i).net.byEntity, e) == Get(w.net.byEntity, e)
  {
    var w1 := TickTrackers(w);
    var xs := DoneTrackers(w1, i.trackers);
    assert e in w1.entities && w1.entities[e] == w.entities[e];
    TickTrackersRetouches(w);
    DoneTrackersAre(w1, i.trackers);
    DoneTrackersPending(w1, i.trackers);
    hide Tied, DoneTrackers, TickTrackers, ShapesOf;
    RetouchedKeeps(w, w1);
    RemoveAllKeeps(w1, xs);
    RespawnAllKeeps(RemoveAll(w1, xs), TrackersAt(w1, xs));
  }

  lemma {:induction false} DoneTimersAll(w: World, order: seq<Entity>, e: Entity)
    requires e in order && TimerDone(w, e)
    ensures e in DoneTimers(w, order)
  {
    if e != order[|order| - 1] {
      DoneTimersAll(w, order[..|order| - 1], e);
    }
  }

  lemma TimerTickedAt(w: World, i: Inputs, e: Entity)
    requires e in w.entities && w.entities[e].clocks.timer.Some? && e in i.timers
    ensures var w1, t := TickTimers(w), w.entities[e].clocks.timer.value;
      && e in w1.entities && w1.entities[e].clocks == w.entities[e].clocks.(timer := Some(t.(delay := SatDec(t.delay))))
      && (e in DoneTimers(w1, i.timers) <==> t.delay <= 1) && ArePending(w1, DoneTimers(w1, i.timers))
  {
    DoneTimersAre(TickTimers(w), i.timers);
    if w.entities[e].clocks.timer.value.delay <= 1 { DoneTimersAll(TickTimers(w), i.timers, e); }
  }

  lemma TimerRunsOut(w: World, i: Inputs, e: Entity) returns (e': Entity)
    requires Tied(w) && e in w.entities && w.entities[e].clocks.timer.Some? && e in i.timers
    ensures var t, w' := w.entities[e].clocks.timer.value, ReinitStage(w, i);
      if t.delay > 1 then
        e in w'.entities && w'.entities[e].clocks == w.entities[e].clocks.(timer := Some(t.(delay := t.delay - 1)))
      else
        e !in w'.entities && e < w'.net.nextEntity && w.net.nextEntity <= e' && IsTarget(w', e', t.at)
  {
    hide Tied, DoneTimers, TickTimers, IsTarget, Succeeds, MasterOf, Coherent;
    var w1 := TickTimers(w);
    var xs := DoneTimers(w1, i.timers);
    var ps := TimerPlaces(w1, xs);
    TimerTickedAt(w, i, e);
    TickTimersRetouches(w);
    HandlesBounded(w);
    RetouchedKeeps(w, w1);
    RemoveAllKeeps(w1, xs);
    SpawnTargetsKeeps(RemoveAll(w1, xs), ps);
    e' := 0;
    if e in xs {
      var k :| 0 <= k < |xs| && xs[k] == e;
      e' := TargetPlaced(RemoveAll(w1, xs), ps, k);
    }
  }

  /** The countdown of a timer that the stage for it meets. */
  lemma TimerEnds(w: World, i: Inputs, e: Entity) returns (e': Entity)
    requires Coherent(w) && IsPending(BeforeReinit(w, i), e) && e in i.timers
    requires BeforeReinit(w, i).entities[e].clocks.timer.Some?
    ensures var t, w' := BeforeReinit(w, i).entities[e].clocks.timer.value, Simulate(w, i);
      if t.delay > 1 then
        && e in w'.entities
        && w'.entities[e].clocks == BeforeReinit(w, i).entities[e].clocks.(timer := Some(t.(delay := t.delay - 1)))
      else
        e !in w'.entities && w.net.nextEntity <= e' && IsTarget(w', e', t.at)
  {
    hide Coherent, Tied, InputStage, ExtractStage, ExhaustStage, CollectStage, BeamStage, ReinitStage, RespawnStage;
    hide RegenerateAll;
    StagesCoherent(w, i);
    CoherentIsTied(w);
    var w1, w2 := BeforeReinit(w, i), ThroughReinit(w, i);
    PendingIs(w1, e);
    CoherentIsTied(w1);
    CoherentIsTied(w2);
    e' := TimerRunsOut(w1, i, e);
    BeforeReinitAges(w, i);
    if e in w2.entities {
      RespawnStageSpares(w2, i, e);
    } else {
      RespawnStageSpares(w2, i, e');
      RespawnStageForgets(w2, i, e);
    }
  }

  /** One simulate call counts a training target's timer down by one, or spawns the target anew. */
  lemma TimerCountsDown(w: World, i: Inputs, e: Entity) returns (e': Entity)
    requires Coherent(w) && IsPending(w, e) && w.entities[e].clocks.timer.Some? && e in i.timers
    ensures var t, w' := w.entities[e].clocks.timer.value, Simulate(w, i);
      if t.delay > 1 then
        e in w'.entities && w'.entities[e].clocks == w.entities[e].clocks.(timer := Some(t.(delay := t.delay - 1)))
      else
        e !in w'.entities && w.net.nextEntity <= e' && IsTarget(w', e', t.at)
  {
    hide Coherent, BeforeReinit, Simulate, IsTarget;
    PendingUntouched(w, i, e);
    e' := TimerEnds(w, i, e);
  }

  lemma BeforeReinitAges(w: World, i: Inputs)
    requires Tied(w)
    ensures w.net.nextEntity <= BeforeReinit(w, i).net.nextEntity
  {
    hide Tied, ThroughCollection, BeamStage;
    ThroughCollectionKeeps(w, i);
    BeamStageKeeps(ThroughCollection(w, i), i);
    ShootAllKeeps(BeamStage(ThroughCollection(w, i), i), i.shots);
  }

  /** The last stage does not reuse handles. */
  lemma RespawnStageForgets(w: World, i: Inputs, e: Entity)
    requires Tied(w) && e !in w.entities && e < w.net.nextEntity
    ensures e !in RespawnStage(w, i).entities
  {
    hide Tied;
    RespawnStageKeeps(w, i);
    hide RespawnStage;
    assert e in RespawnStage(w, i).entities ==> e in ShapesOf(RespawnStage(w, i).entities);
  }
}
