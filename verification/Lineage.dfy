/** What a simulate call adds to the world: exactly one tracker for each exhausted resource, one
    timer for each terminated training target, one resource for each tracker and one target for
    each timer that runs out, and no other resource or target. */
module Lineage {
  import opened Ecs
  import opened Adapter
  import opened Coherence
  import opened Economy
  import opened Upkeep
  import opened Ledger
  import opened Respawns

  datatype Mark = ResourceMark | TargetMark | TimerMark

  /** A resource, a training target that clients know, or the unnamed timer of one. */
  predicate Marked(m: Mark, c: Components) {
    match m
    case ResourceMark => c.cargo.resource.Some?
    case TargetMark => c.clocks.training && c.id.networked.Some?
    case TimerMark => c.clocks.timer.Some?
  }

  /** Nothing is marked that was not. */
  ghost predicate Inherits(w: World, w': World, m: Mark) {
    forall e | e in w'.entities && Marked(m, w'.entities[e]) :: e in w.entities && Marked(m, w.entities[e])
  }

  ghost predicate Homed(w: World) {
    Coherent(w) && MasterOf(w).Some?
  }

  lemma InheritsTransitive(w: World, w': World, w'': World, m: Mark)
    requires Inherits(w, w', m) && Inherits(w', w'', m)
    ensures Inherits(w, w'', m)
  {}

  lemma RetouchedInherits(w: World, w': World, m: Mark)
    requires Retouched(w, w')
    ensures Inherits(w, w', m)
  {
    forall e | e in w'.entities && Marked(m, w'.entities[e])
      ensures e in w.entities && Marked(m, w.entities[e])
    {
      assert ShapesOf(w'.entities)[e] == ShapeOf(w'.entities[e]);
      assert e in ShapesOf(w.entities);
    }
  }

  lemma FewerInherits(w: World, w': World, m: Mark)
    requires forall e | e in w'.entities :: e in w.entities && w'.entities[e] == w.entities[e]
    ensures Inherits(w, w', m)
  {}

  lemma KeepsHomed(w: World, w': World)
    requires Homed(w) && Keeps(w, w')
    ensures Homed(w')
  {
    hide Coherent, MasterOf, Tied, Succeeds;
  }

  // ---- Spawns --------------------------------------------------------------

  lemma SpawnKindAdds(w: World, kind: nat, at: Position)
    requires MasterOf(w).Some?
    ensures var w' := SpawnKind(w, kind, at);
            && w'.entities == w.entities[w.net.nextEntity := Named(KindAt(kind, at, MasterOf(w).value), w.net.nextId)]
            && w'.net.nextEntity == w.net.nextEntity + 1
            && w'.net.byId == w.net.byId[w.net.nextId := w.net.nextEntity]
            && w'.net.byEntity == w.net.byEntity[w.net.nextEntity := w.net.nextId]
  {
    hide MasterOf, KindAt;
  }

  lemma KindMarks(at: Position, ws: NetworkId, n: NetworkId, m: Mark)
    ensures !Marked(m, Named(KindAt(DATA_DROP, at, ws), n)) && !Marked(m, Named(KindAt(BEAM, at, ws), n))
    ensures Marked(m, Named(KindAt(TRAINING_TARGET, at, ws), n)) <==> m == TargetMark
    ensures Marked(m, Named(KindAt(RESOURCE, at, ws), n)) <==> m == ResourceMark
  {}

  lemma DropInherits(w: World, c: Components, m: Mark)
    requires MasterOf(w).Some?
    ensures Inherits(w, DropPayload(w, c), m)
  {
    hide MasterOf, KindAt, SpawnKind;
    if c.cargo.store.Some? && c.cargo.store.value.payload > 0 {
      SpawnKindAdds(w, DATA_DROP, PositionOr0(c));
      KindMarks(PositionOr0(c), MasterOf(w).value, w.net.nextId, m);
    }
  }

  lemma TerminateInherits(w: World, x: Entity, m: Mark)
    requires MasterOf(w).Some? && m != TimerMark
    ensures Inherits(w, Terminate(w, x), m)
  {
    if x in w.net.byEntity && x in w.entities {
      var c := w.entities[x];
      DropInherits(w, c, m);
      hide MasterOf, DropPayload, WithoutMember, WithoutClient;
      var w1 := DropPayload(w, c);
      assert Inherits(w1, Mourn(w1, c), m);
      FewerInherits(Mourn(w1, c), Terminate(w, x), m);
    }
  }

  lemma {:induction false} TerminateAllInherits(w: World, xs: seq<Entity>, m: Mark)
    requires m != TimerMark
    requires Homed(w) && NoWorkspace(w, xs) && forall k | 0 <= k < |xs| :: xs[k] < w.net.nextEntity
    ensures Inherits(w, TerminateAll(w, xs), m) && Homed(TerminateAll(w, xs))
    decreases |xs|
  {
    hide Coherent, Tied, MasterOf, Terminate, Succeeds;
    if xs != [] {
      var xs1 := xs[..|xs| - 1];
      TerminateAllInherits(w, xs1, m);
      TerminateInherits(TerminateAll(w, xs1), xs[|xs| - 1], m);
      InheritsTransitive(w, TerminateAll(w, xs1), TerminateAll(w, xs), m);
    }
    CoherentIsTied(w);
    TerminateAllKeeps(w, xs);
    KeepsHomed(w, TerminateAll(w, xs));
  }

  lemma ShootInherits(w: World, s: Shot, m: Mark)
    requires MasterOf(w).Some?
    ensures Inherits(w, Shoot(w, s), m)
  {
    hide MasterOf, KindAt, SpawnKind;
    SpawnKindAdds(w, BEAM, s.at);
    KindMarks(s.at, MasterOf(w).value, w.net.nextId, m);
  }

  lemma {:induction false} ShootAllInherits(w: World, shots: seq<Shot>, m: Mark)
    requires Homed(w)
    ensures Inherits(w, ShootAll(w, shots), m) && Homed(ShootAll(w, shots))
    decreases |shots|
  {
    hide Coherent, Tied, MasterOf, Shoot, Succeeds, Grows;
    if shots != [] {
      var rest := shots[..|shots| - 1];
      ShootAllInherits(w, rest, m);
      ShootInherits(ShootAll(w, rest), shots[|shots| - 1], m);
      InheritsTransitive(w, ShootAll(w, rest), ShootAll(w, shots), m);
    }
    CoherentIsTied(w);
    ShootAllKeeps(w, shots);
    KeepsHomed(w, ShootAll(w, shots));
  }

  lemma {:induction false} SpawnTrackersInherits(w: World, xs: seq<Entity>, m: Mark)
    ensures Inherits(w, SpawnTrackers(w, xs), m)
    decreases |xs|
  {
    if xs != [] { SpawnTrackersInherits(w, xs[..|xs| - 1], m); }
  }

  // ---- Stages --------------------------------------------------------------

  lemma ExtractInherits(w: World, i: Inputs, m: Mark)
    ensures Inherits(w, ExtractStage(InputStage(w, i), i), m)
  {
    hide InputStage, ExtractStage;
    InputStageRetouches(w, i);
    ExtractStageRetouches(InputStage(w, i), i);
    RetouchedInherits(w, ExtractStage(InputStage(w, i), i), m);
  }

  lemma ExhaustInherits(w: World, i: Inputs, m: Mark)
    ensures Inherits(w, ExhaustStage(w, i), m)
  {
    hide SpawnTrackers, DespawnAll, Exhausted;
    var xs := Exhausted(w, i.resources);
    SpawnTrackersInherits(w, xs, m);
    DespawnAllSpares(SpawnTrackers(w, xs), xs);
    FewerInherits(SpawnTrackers(w, xs), ExhaustStage(w, i), m);
  }

  lemma CollectInherits(w: World, i: Inputs, m: Mark)
    ensures Inherits(w, CollectStage(w, i), m)
  {
    hide ApplyClaims, DespawnAll, Claims, Emptied;
    var cs := Claims(w, i.drops, i.agents);
    ClaimsRetouch(w, cs);
    RetouchedInherits(w, ApplyClaims(w, cs), m);
    DespawnAllSpares(ApplyClaims(w, cs), Emptied(w, cs));
    FewerInherits(ApplyClaims(w, cs), CollectStage(w, i), m);
  }

  lemma BeamInherits(w: World, i: Inputs, m: Mark)
    requires Homed(w) && m != TimerMark
    ensures Inherits(w, BeamStage(w, i), m)
  {
    CoherentIsTied(w);
    SpentAre(w, i.beams, i.targets);
    hide Coherent, Tied, MasterOf, BeamAll, Killed, Spent, TerminateAll, RemoveBeams, Succeeds;
    var w1 := BeamAll(w, i.beams, i.targets);
    var killed, spent := Killed(w, i.beams, i.targets), Spent(w, i.beams, i.targets);
    BeamsRetouch(w, i.beams, i.targets);
    RetouchedKeeps(w, w1);
    KeepsHomed(w, w1);
    RetouchedInherits(w, w1, m);
    KilledAreTargets(w, i);
    TerminateAllInherits(w1, killed, m);
    SpentStage(w, i);
    RemovedBeams(w, i);
    FewerInherits(TerminateAll(w1, killed), BeamStage(w, i), m);
  }

  lemma KilledAreTargets(w: World, i: Inputs)
    requires Coherent(w)
    ensures var w1, killed := BeamAll(w, i.beams, i.targets), Killed(w, i.beams, i.targets);
            NoWorkspace(w1, killed) && forall k | 0 <= k < |killed| :: killed[k] < w1.net.nextEntity
  {
    CoherentIsTied(w);
    hide Coherent, Tied, BeamAll, Killed;
    var w1, killed := BeamAll(w, i.beams, i.targets), Killed(w, i.beams, i.targets);
    BeamsRetouch(w, i.beams, i.targets);
    KilledAre(w, i.beams, i.targets);
    HandlesBounded(w);
    forall x | x in killed && x in w1.entities
      ensures w1.entities[x].locale.workspace.None?
    {
      RetouchedAt(w, w1, x);
      KindedAt(w, x);
    }
    forall k | 0 <= k < |killed| ensures killed[k] < w1.net.nextEntity { assert killed[k] in killed; }
  }

  lemma RemovedBeams(w: World, i: Inputs)
    requires Tied(w)
    ensures var w2 := TerminateAll(BeamAll(w, i.beams, i.targets), Killed(w, i.beams, i.targets));
            forall e | e in BeamStage(w, i).entities ::
              e in w2.entities && BeamStage(w, i).entities[e] == w2.entities[e]
  {
    hide Tied, BeamAll, Killed, Spent, TerminateAll;
    FewerBeams(TerminateAll(BeamAll(w, i.beams, i.targets), Killed(w, i.beams, i.targets)),
               Spent(w, i.beams, i.targets));
  }

  lemma {:induction false} FewerBeams(w: World, xs: seq<Entity>)
    ensures forall e | e in RemoveBeams(w, xs).entities ::
            e in w.entities && RemoveBeams(w, xs).entities[e] == w.entities[e]
    decreases |xs|
  {
    hide WithoutMember, WithoutClient;
    if xs != [] { FewerBeams(w, xs[..|xs| - 1]); }
  }

  /** Up to the countdowns a call makes no resource and no target. */
  lemma BeforeReinitInherits(w: World, i: Inputs, m: Mark)
    requires Homed(w) && m != TimerMark
    ensures Inherits(w, BeforeReinit(w, i), m) && Homed(BeforeReinit(w, i))
  {
    hide Coherent, Tied, MasterOf, InputStage, ExtractStage, ExhaustStage, CollectStage, BeamStage, ShootAll, Succeeds;
    var w2 := ExtractStage(InputStage(w, i), i);
    var w3 := ExhaustStage(w2, i);
    var w4 := CollectStage(w3, i);
    var w5 := BeamStage(w4, i);
    var w6 := ShootAll(w5, i.shots);
    CoherentIsTied(w);
    ThroughCollectionKeeps(w, i);
    KeepsHomed(w, w4);
    BeamStageHomed(w4, i);
    ExtractInherits(w, i, m);
    ExhaustInherits(w2, i, m);
    CollectInherits(w3, i, m);
    BeamInherits(w4, i, m);
    ShootAllInherits(w5, i.shots, m);
    RegenerateHomed(w6, m);
    hide Inherits, RegenerateAll;
    InheritsTransitive(w, w2, w3, m);
    InheritsTransitive(w, w3, w4, m);
    InheritsTransitive(w, w4, w5, m);
    InheritsTransitive(w, w5, w6, m);
    InheritsTransitive(w, w6, RegenerateAll(w6), m);
  }

  lemma BeamStageHomed(w: World, i: Inputs)
    requires Homed(w)
    ensures Homed(BeamStage(w, i))
  {
    hide Coherent, Tied, MasterOf, BeamStage, Succeeds;
    CoherentIsTied(w);
    BeamStageKeeps(w, i);
    KeepsHomed(w, BeamStage(w, i));
  }

  lemma RegenerateHomed(w: World, m: Mark)
    requires Homed(w)
    ensures Homed(RegenerateAll(w)) && Inherits(w, RegenerateAll(w), m)
  {
    hide Coherent, Tied, MasterOf, RegenerateAll, Succeeds;
    CoherentIsTied(w);
    RegenerateRetouches(w);
    RetouchedKeeps(w, RegenerateAll(w));
    KeepsHomed(w, RegenerateAll(w));
    RetouchedInherits(w, RegenerateAll(w), m);
  }

  // ---- Exact additions -----------------------------------------------------

  /** `n` new entities in consecutive handles; the old ones are all there, unchanged. */
  ghost predicate Adds(w: World, w': World, n: nat) {
    && w'.net.nextEntity == w.net.nextEntity + n
    && (forall e :: e in w'.entities <==> e in w.entities || w.net.nextEntity <= e < w'.net.nextEntity)
    && (forall e | e in w.entities && e < w.net.nextEntity :: e in w'.entities && w'.entities[e] == w.entities[e])
  }

  lemma AddsNothing(w: World)
    ensures Adds(w, w, 0)
  {}

  lemma AddsTransitive(w: World, w': World, w'': World, n: nat, k: nat)
    requires Adds(w, w', n) && Adds(w', w'', k)
    ensures Adds(w, w'', n + k)
  {}

  lemma TrackerAdds(w: World, x: Entity)
    requires IsExhausted(w, x) && forall e | e in w.entities :: e < w.net.nextEntity
    ensures var c := w.entities[x];
            Adds(w, SpawnLocal(w, TrackerParts(c.locale.position.value, c.cargo.resource.value.total)), 1)
  {}

  /** One tracker for each entry of a list of exhausted resources. */
  lemma {:induction false} TrackersExactly(w: World, xs: seq<Entity>)
    requires Tied(w) && forall k | 0 <= k < |xs| :: IsExhausted(w, xs[k])
    ensures Adds(w, SpawnTrackers(w, xs), |xs|) && SpawnTrackers(w, xs).net.byEntity == w.net.byEntity
    decreases |xs|
  {
    hide Tied, IsExhausted, Adds, TrackerParts, Grows;
    if xs == [] {
      AddsNothing(w);
    } else {
      var xs1, x := xs[..|xs| - 1], xs[|xs| - 1];
      var w1 := SpawnTrackers(w, xs1);
      assert forall k | 0 <= k < |xs1| :: xs1[k] == xs[k];
      TrackersExactly(w, xs1);
      HandlesBounded(w);
      SpawnTrackersGrows(w, xs1);
      StillExhausted(w, w1, x);
      TrackerAdds(w1, x);
      SpawnTrackersStep(w, xs);
      AddsTransitive(w, w1, SpawnTrackers(w, xs), |xs1|, 1);
    }
  }

  lemma SpawnTrackersStep(w: World, xs: seq<Entity>)
    requires xs != [] && IsExhausted(SpawnTrackers(w, xs[..|xs| - 1]), xs[|xs| - 1])
    ensures var w1 := SpawnTrackers(w, xs[..|xs| - 1]);
            var c := w1.entities[xs[|xs| - 1]];
            SpawnTrackers(w, xs) == SpawnLocal(w1, TrackerParts(c.locale.position.value, c.cargo.resource.value.total))
  {
    hide IsExhausted, TrackerParts;
  }

  lemma StillExhausted(w: World, w': World, x: Entity)
    requires IsExhausted(w, x) && Grows(w, w')
    ensures IsExhausted(w', x) && w'.entities[x] == w.entities[x]
  {
    assert Get(w'.net.byEntity, x) == Get(w.net.byEntity, x);
  }

  /** It remembers the place and the capacity of its resource. */
  lemma {:induction false} TrackerAt(w: World, xs: seq<Entity>, k: nat)
    requires Tied(w) && k < |xs| && forall j | 0 <= j < |xs| :: IsExhausted(w, xs[j])
    ensures IsExhausted(w, xs[k])
    ensures Get(SpawnTrackers(w, xs).entities, w.net.nextEntity + k)
         == Some(TrackerParts(w.entities[xs[k]].locale.position.value, w.entities[xs[k]].cargo.resource.value.total))
    decreases |xs|
  {
    hide Tied, IsExhausted, TrackerParts, SpawnTrackers, Grows;
    HandlesBounded(w);
    var xs1, x := xs[..|xs| - 1], xs[|xs| - 1];
    assert forall j | 0 <= j < |xs1| :: xs1[j] == xs[j];
    TrackersExactly(w, xs1);
    SpawnTrackersGrows(w, xs1);
    StillExhausted(w, SpawnTrackers(w, xs1), x);
    SpawnTrackersStep(w, xs);
    if k < |xs| - 1 { TrackerAt(w, xs1, k); }
  }

  lemma {:induction false} ExhaustedIff(w: World, order: seq<Entity>)
    ensures forall x :: x in Exhausted(w, order) <==> x in order && IsExhausted(w, x)
    ensures forall k | 0 <= k < |Exhausted(w, order)| :: IsExhausted(w, Exhausted(w, order)[k])
    decreases |order|
  {
    if order != [] {
      ExhaustedIff(w, order[..|order| - 1]);
      assert order == order[..|order| - 1] + [order[|order| - 1]];
    }
  }

  /** Despawning named entities removes exactly those. */
  lemma {:induction false} DespawnsExactly(w: World, xs: seq<Entity>)
    requires Tied(w) && forall k | 0 <= k < |xs| :: xs[k] in w.net.byEntity
    ensures var w' := DespawnAll(w, xs);
            && w'.net.nextEntity == w.net.nextEntity
            && (forall e :: e in w'.entities <==> e in w.entities && e !in xs)
            && (forall e | e in w'.entities :: w'.entities[e] == w.entities[e])
    decreases |xs|
  {
    DespawnAllSpares(w, xs);
    forall e
      ensures e in DespawnAll(w, xs).entities <==> e in w.entities && e !in xs
    {
      DespawnsIff(w, xs, e);
    }
  }

  lemma {:induction false} DespawnsIff(w: World, xs: seq<Entity>, e: Entity)
    requires Tied(w) && forall k | 0 <= k < |xs| :: xs[k] in w.net.byEntity
    ensures e in DespawnAll(w, xs).entities <==> e in w.entities && e !in xs
    decreases |xs|
  {
    hide Tied, WithoutMember, WithoutClient;
    if xs != [] {
      var xs1, x := xs[..|xs| - 1], xs[|xs| - 1];
      assert xs == xs1 + [x];
      DespawnsIff(w, xs1, e);
      DespawnAllTied(w, xs1);
      DespawnAllSpares(w, xs1);
      if x !in xs1 { DespawnAllSparesNames(w, xs1, x); }
      if x in xs1 { DespawnAllTakes(w, xs1, x); }
      if x in DespawnAll(w, xs1).net.byEntity { NameOf(DespawnAll(w, xs1), x); }
    }
  }

  lemma {:induction false} DespawnAllTakes(w: World, xs: seq<Entity>, x: Entity)
    requires Tied(w) && x in xs
    ensures x !in DespawnAll(w, xs).net.byEntity
    decreases |xs|
  {
    hide Tied, WithoutMember, WithoutClient;
    var xs1, y := xs[..|xs| - 1], xs[|xs| - 1];
    assert xs == xs1 + [y];
    DespawnAllTied(w, xs1);
    if x in xs1 { DespawnAllTakes(w, xs1, x); }
    hide DespawnAll;
    if y in DespawnAll(w, xs1).net.byEntity { NameOf(DespawnAll(w, xs1), y); }
  }

  /** The exhaustion stage exchanges each exhausted resource for one tracker: the k-th new entity
      is the tracker of the k-th exhausted resource. */
  lemma ExhaustExactly(w: World, i: Inputs)
    requires Coherent(w) && Distinct(i.resources)
    ensures var xs, w' := Exhausted(w, i.resources), ExhaustStage(w, i);
            && Distinct(xs) && (forall x :: x in xs <==> x in i.resources && IsExhausted(w, x))
            && w'.net.nextEntity == w.net.nextEntity + |xs|
            && (forall e ::
                  e in w'.entities <==> (e in w.entities && e !in xs) || w.net.nextEntity <= e < w'.net.nextEntity)
            && (forall k | 0 <= k < |xs| :: IsTrackerOf(w, xs[k], w', w.net.nextEntity + k))
  {
    hide Coherent, Tied, Exhausted, IsExhausted, SpawnTrackers, DespawnAll, TrackerParts;
    var xs := Exhausted(w, i.resources);
    CoherentIsTied(w);
    HandlesBounded(w);
    ExhaustedIff(w, i.resources);
    ExhaustedDistinct(w, i.resources);
    forall k | 0 <= k < |xs| ensures xs[k] in w.net.byEntity && xs[k] in w.entities { ExhaustedHas(w, xs[k]); }
    TrackersExactly(w, xs);
    SpawnTrackersTied(w, xs);
    DespawnsExactly(SpawnTrackers(w, xs), xs);
    forall k | 0 <= k < |xs| ensures IsTrackerOf(w, xs[k], ExhaustStage(w, i), w.net.nextEntity + k) {
      TrackerAt(w, xs, k);
      ExhaustedParts(w, xs[k]);
    }
  }

  /** `t` is the tracker of the resource `x`: new, at 301, with its place and its capacity. */
  predicate IsTrackerOf(w: World, x: Entity, w': World, t: Entity) {
    && x in w.entities && w.entities[x].locale.position.Some? && w.entities[x].cargo.resource.Some?
    && Get(w'.entities, t)
       == Some(TrackerParts(w.entities[x].locale.position.value, w.entities[x].cargo.resource.value.total))
  }

  lemma ExhaustedParts(w: World, x: Entity)
    requires IsExhausted(w, x)
    ensures w.entities[x].locale.position.Some? && w.entities[x].cargo.resource.Some?
  {}

  lemma ExhaustedHas(w: World, x: Entity)
    requires IsExhausted(w, x)
    ensures x in w.net.byEntity && x in w.entities
  {}

  lemma SpawnTrackersTied(w: World, xs: seq<Entity>)
    requires Tied(w)
    ensures Tied(SpawnTrackers(w, xs))
  {
    hide Tied, SpawnTrackers;
    SpawnTrackersKeeps(w, xs);
  }

  // ---- What comes back -----------------------------------------------------

  lemma HomeNext(w: World)
    requires MasterOf(w).Some?
    ensures NewEntity(w) == w.net.nextEntity
  {
    hide MasterOf;
  }

  lemma OneBack(w: World, r: ResourceRespawn)
    requires Homed(w)
    ensures Adds(w, Respawn(w, r), 1) && Homed(Respawn(w, r))
    ensures Inherits(w, Respawn(w, r), TargetMark) && Inherits(w, Respawn(w, r), TimerMark)
  {
    hide Coherent, Tied, MasterOf;
    OneBackHomed(w, r);
    CoherentIsTied(w);
    HandlesBounded(w);
    BackAdds(w, r);
  }

  lemma BackAdds(w: World, r: ResourceRespawn)
    requires MasterOf(w).Some? && forall e | e in w.entities :: e < w.net.nextEntity
    ensures Adds(w, Respawn(w, r), 1)
    ensures Inherits(w, Respawn(w, r), TargetMark) && Inherits(w, Respawn(w, r), TimerMark)
  {
    hide MasterOf, SpawnKind, KindAt;
    SpawnKindAdds(w, RESOURCE, r.at);
    KindMarks(r.at, MasterOf(w).value, w.net.nextId, TargetMark);
    KindMarks(r.at, MasterOf(w).value, w.net.nextId, TimerMark);
  }

  lemma OneBackHomed(w: World, r: ResourceRespawn)
    requires Homed(w)
    ensures Homed(Respawn(w, r))
  {
    hide Coherent, Tied, MasterOf, Respawn, Succeeds, Grows;
    CoherentIsTied(w);
    RespawnKeeps(w, r);
    KeepsHomed(w, Respawn(w, r));
  }

  /** Exactly one new entity for each respawn, none of them a training target. */
  lemma {:induction false} RespawnsExactly(w: World, rs: seq<ResourceRespawn>)
    requires Homed(w)
    ensures Adds(w, RespawnAll(w, rs), |rs|) && Homed(RespawnAll(w, rs))
    ensures Inherits(w, RespawnAll(w, rs), TargetMark) && Inherits(w, RespawnAll(w, rs), TimerMark)
    decreases |rs|
  {
    hide Homed, Adds, Respawn;
    if rs == [] {
      AddsNothing(w);
    } else {
      var rs1, r := rs[..|rs| - 1], rs[|rs| - 1];
      var w1 := RespawnAll(w, rs1);
      RespawnsExactly(w, rs1);
      OneBack(w1, r);
      AddsTransitive(w, w1, RespawnAll(w, rs), |rs1|, 1);
      InheritsTransitive(w, w1, RespawnAll(w, rs), TargetMark);
      InheritsTransitive(w, w1, RespawnAll(w, rs), TimerMark);
    }
  }

  /** The k-th of them is the k-th resource. */
  lemma BackAt(w: World, rs: seq<ResourceRespawn>, k: nat)
    requires Homed(w) && k < |rs|
    ensures IsBack(RespawnAll(w, rs), w.net.nextEntity + k, rs[k])
  {
    hide Coherent, MasterOf, Tied, NewEntity, IsBack, RespawnAll, Inherits;
    CoherentIsTied(w);
    AllAreBack(w, rs, k);
    RespawnsExactly(w, rs[..k]);
    HomeNext(RespawnAll(w, rs[..k]));
  }

  lemma OneTarget(w: World, at: Position)
    requires Homed(w)
    ensures var w' := SpawnKind(w, TRAINING_TARGET, at);
            && Adds(w, w', 1) && Homed(w') && IsTarget(w', w.net.nextEntity, at)
            && Inherits(w, w', ResourceMark) && Inherits(w, w', TimerMark)
  {
    hide Coherent, Tied, MasterOf, SpawnKind, Keeps;
    CoherentIsTied(w);
    HandlesBounded(w);
    SpawnKindKept(w, TRAINING_TARGET, at);
    KeepsHomed(w, SpawnKind(w, TRAINING_TARGET, at));
    TargetAdds(w, at);
  }

  lemma TargetAdds(w: World, at: Position)
    requires MasterOf(w).Some? && forall e | e in w.entities :: e < w.net.nextEntity
    ensures var w' := SpawnKind(w, TRAINING_TARGET, at);
            && Adds(w, w', 1) && IsTarget(w', w.net.nextEntity, at)
            && Inherits(w, w', ResourceMark) && Inherits(w, w', TimerMark)
  {
    hide MasterOf, SpawnKind, KindAt;
    SpawnKindAdds(w, TRAINING_TARGET, at);
    KindMarks(at, MasterOf(w).value, w.net.nextId, ResourceMark);
    KindMarks(at, MasterOf(w).value, w.net.nextId, TimerMark);
    TargetParts(at, MasterOf(w).value, w.net.nextId);
  }

  /** Exactly one new entity for each place, none of them a resource. */
  lemma {:induction false} TargetsExactly(w: World, ps: seq<Position>)
    requires Homed(w)
    ensures Adds(w, SpawnTargets(w, ps), |ps|) && Homed(SpawnTargets(w, ps))
    ensures Inherits(w, SpawnTargets(w, ps), ResourceMark) && Inherits(w, SpawnTargets(w, ps), TimerMark)
    decreases |ps|
  {
    hide Homed, Adds, SpawnKind, IsTarget;
    if ps == [] {
      AddsNothing(w);
    } else {
      var ps1, p := ps[..|ps| - 1], ps[|ps| - 1];
      var w1 := SpawnTargets(w, ps1);
      TargetsExactly(w, ps1);
      OneTarget(w1, p);
      AddsTransitive(w, w1, SpawnTargets(w, ps), |ps1|, 1);
      InheritsTransitive(w, w1, SpawnTargets(w, ps), ResourceMark);
      InheritsTransitive(w, w1, SpawnTargets(w, ps), TimerMark);
    }
  }

  /** The k-th of them is the k-th target. */
  lemma {:induction false} TargetAt(w: World, ps: seq<Position>, k: nat)
    requires Homed(w) && k < |ps|
    ensures IsTarget(SpawnTargets(w, ps), w.net.nextEntity + k, ps[k])
    decreases |ps|
  {
    hide Coherent, MasterOf, Tied, SpawnKind, IsTarget, Inherits, Grows, NewEntity;
    var ps1, p := ps[..|ps| - 1], ps[|ps| - 1];
    var w1 := SpawnTargets(w, ps1);
    TargetsExactly(w, ps1);
    OneTarget(w1, p);
    if k < |ps| - 1 {
      TargetAt(w, ps1, k);
      CoherentIsTied(w1);
      SpawnKindNew(w1, TRAINING_TARGET, p);
      IsTargetPersists(w1, SpawnTargets(w, ps), w.net.nextEntity + k, ps[k]);
    }
  }

  // ---- One call ------------------------------------------------------------

  /** The respawn queries of a call visit every tracker and every timer, and none twice. */
  ghost predicate FullQueries(w: World, i: Inputs) {
    && Distinct(i.trackers) && Distinct(i.timers)
    && (forall e | e in BeforeReinit(w, i).entities && BeforeReinit(w, i).entities[e].clocks.respawn.Some? ::
         e in i.trackers)
    && (forall e | e in BeforeReinit(w, i).entities && BeforeReinit(w, i).entities[e].clocks.timer.Some? ::
         e in i.timers)
  }

  /** The timers that run out in a call, and the trackers. */
  ghost function DueTimers(w: World, i: Inputs): seq<Entity> {
    DoneTimers(TickTimers(BeforeReinit(w, i)), i.timers)
  }

  ghost function DueTrackers(w: World, i: Inputs): seq<Entity> {
    DoneTrackers(TickTrackers(ThroughReinit(w, i)), i.trackers)
  }

  lemma {:induction false} DoneTimersDistinct(w: World, order: seq<Entity>)
    requires Distinct(order)
    ensures Distinct(DoneTimers(w, order)) && forall e | e in DoneTimers(w, order) :: e in order
    decreases |order|
  {
    if order != [] {
      var rest, e := order[..|order| - 1], order[|order| - 1];
      DoneTimersDistinct(w, rest);
      assert e !in rest;
    }
  }

  lemma ReinitIs(w: World, i: Inputs)
    requires Homed(w)
    ensures var w1 := TickTimers(w);
            var xs := DoneTimers(w1, i.timers);
            var w2 := RemoveAll(w1, xs);
            && Homed(w2) && w2.net.nextEntity == w.net.nextEntity
            && Inherits(w, w2, ResourceMark) && Inherits(w, w2, TargetMark) && Inherits(w, w2, TimerMark)
            && (forall e :: e in w2.entities <==> e in w1.entities && e !in xs)
            && (forall e | e in w2.entities :: w2.entities[e] == w1.entities[e])
            && ReinitStage(w, i) == SpawnTargets(w2, TimerPlaces(w1, xs))
  {
    hide Coherent, Tied, MasterOf, TickTimers, DoneTimers, RemoveAll, TimerPlaces, Keeps;
    var w1 := TickTimers(w);
    var xs := DoneTimers(w1, i.timers);
    CoherentIsTied(w);
    TickTimersRetouches(w);
    RetouchedKeeps(w, w1);
    KeepsHomed(w, w1);
    CoherentIsTied(w1);
    PendingTimers(w1, i.timers);
    RemoveAllKeeps(w1, xs);
    KeepsHomed(w1, RemoveAll(w1, xs));
    RetouchedInherits(w, w1, ResourceMark);
    RetouchedInherits(w, w1, TargetMark);
    RetouchedInherits(w, w1, TimerMark);
    FewerInherits(w1, RemoveAll(w1, xs), ResourceMark);
    FewerInherits(w1, RemoveAll(w1, xs), TargetMark);
    FewerInherits(w1, RemoveAll(w1, xs), TimerMark);
    InheritsTransitive(w, w1, RemoveAll(w1, xs), ResourceMark);
    InheritsTransitive(w, w1, RemoveAll(w1, xs), TargetMark);
    InheritsTransitive(w, w1, RemoveAll(w1, xs), TimerMark);
  }

  lemma PendingTimers(w: World, order: seq<Entity>)
    ensures ArePending(w, DoneTimers(w, order))
  {
    DoneTimersAre(w, order);
  }

  lemma RespawnIs(w: World, i: Inputs)
    requires Homed(w)
    ensures var w1 := TickTrackers(w);
            var xs := DoneTrackers(w1, i.trackers);
            var w2 := RemoveAll(w1, xs);
            && Homed(w2) && w2.net.nextEntity == w.net.nextEntity
            && Inherits(w, w2, ResourceMark) && Inherits(w, w2, TargetMark) && Inherits(w, w2, TimerMark)
            && (forall e :: e in w2.entities <==> e in w1.entities && e !in xs)
            && RespawnStage(w, i) == RespawnAll(w2, TrackersAt(w1, xs))
  {
    hide Coherent, Tied, MasterOf, TickTrackers, DoneTrackers, RemoveAll, TrackersAt, Keeps;
    var w1 := TickTrackers(w);
    var xs := DoneTrackers(w1, i.trackers);
    CoherentIsTied(w);
    TickTrackersRetouches(w);
    RetouchedKeeps(w, w1);
    KeepsHomed(w, w1);
    CoherentIsTied(w1);
    DoneTrackersPending(w1, i.trackers);
    RemoveAllKeeps(w1, xs);
    KeepsHomed(w1, RemoveAll(w1, xs));
    RetouchedInherits(w, w1, ResourceMark);
    RetouchedInherits(w, w1, TargetMark);
    RetouchedInherits(w, w1, TimerMark);
    FewerInherits(w1, RemoveAll(w1, xs), ResourceMark);
    FewerInherits(w1, RemoveAll(w1, xs), TargetMark);
    FewerInherits(w1, RemoveAll(w1, xs), TimerMark);
    InheritsTransitive(w, w1, RemoveAll(w1, xs), ResourceMark);
    InheritsTransitive(w, w1, RemoveAll(w1, xs), TargetMark);
    InheritsTransitive(w, w1, RemoveAll(w1, xs), TimerMark);
  }

  /** The stage of the timers: one target for each that runs out, and no resource. */
  lemma ReinitExactly(w: World, i: Inputs)
    requires Homed(w)
    ensures var xs, w' := DoneTimers(TickTimers(w), i.timers), ReinitStage(w, i);
            && Homed(w') && w'.net.nextEntity == w.net.nextEntity + |xs|
            && Inherits(w, w', ResourceMark) && Inherits(w, w', TimerMark)
            && (forall e | e in w'.entities && e < w.net.nextEntity && Marked(TargetMark, w'.entities[e]) ::
                  e in w.entities && Marked(TargetMark, w.entities[e]))
            && (forall e | w.net.nextEntity <= e < w'.net.nextEntity :: e in w'.entities)
  {
    hide Homed, TickTimers, DoneTimers, RemoveAll, Marked, ReinitStage;
    var w1 := TickTimers(w);
    var xs := DoneTimers(w1, i.timers);
    var w2 := RemoveAll(w1, xs);
    ReinitIs(w, i);
    TargetsExactly(w2, TimerPlaces(w1, xs));
    InheritsTransitive(w, w2, ReinitStage(w, i), ResourceMark);
    InheritsTransitive(w, w2, ReinitStage(w, i), TimerMark);
  }

  /** The stage of the trackers: one entity for each that runs out, and no target. */
  lemma RespawnExactly(w: World, i: Inputs)
    requires Homed(w)
    ensures var xs, w' := DoneTrackers(TickTrackers(w), i.trackers), RespawnStage(w, i);
            && Homed(w') && w'.net.nextEntity == w.net.nextEntity + |xs|
            && Inherits(w, w', TargetMark) && Inherits(w, w', TimerMark)
            && (forall e | e in w'.entities && e < w.net.nextEntity && Marked(ResourceMark, w'.entities[e]) ::
                  e in w.entities && Marked(ResourceMark, w.entities[e]))
            && (forall e | w.net.nextEntity <= e < w'.net.nextEntity :: e in w'.entities)
  {
    hide Homed, TickTrackers, DoneTrackers, RemoveAll, Marked, RespawnStage;
    var w1 := TickTrackers(w);
    var xs := DoneTrackers(w1, i.trackers);
    var w2 := RemoveAll(w1, xs);
    RespawnIs(w, i);
    RespawnsExactly(w2, TrackersAt(w1, xs));
    InheritsTransitive(w, w2, RespawnStage(w, i), TargetMark);
    InheritsTransitive(w, w2, RespawnStage(w, i), TimerMark);
  }

  /** The k-th tracker that runs out is gone, and the k-th new entity is its resource. */
  lemma DueTrackerBack(w: World, i: Inputs, k: nat)
    requires Homed(w) && k < |DoneTrackers(TickTrackers(w), i.trackers)|
    ensures var x, w' := DoneTrackers(TickTrackers(w), i.trackers)[k], RespawnStage(w, i);
            && x in w.entities && w.entities[x].clocks.respawn.Some? && x !in w'.entities
            && IsBack(w', w.net.nextEntity + k, w.entities[x].clocks.respawn.value)
  {
    hide Homed, TrackerDone, TickTrackers, DoneTrackers, RemoveAll, RespawnStage, IsBack, Inherits, TrackersAt;
    var w1 := TickTrackers(w);
    var xs := DoneTrackers(w1, i.trackers);
    var rs := TrackersAt(w1, xs);
    DueTrackerHas(w, i, k);
    DueTrackerGone(w, i, xs[k]);
    RespawnIs(w, i);
    BackAt(RemoveAll(w1, xs), rs, k);
    SameReturn(RespawnStage(w, i), w.net.nextEntity + k, w.entities[xs[k]].clocks.respawn.value, rs[k]);
  }

  lemma DueTrackerGone(w: World, i: Inputs, x: Entity)
    requires Homed(w) && x in DoneTrackers(TickTrackers(w), i.trackers) && x in w.entities
    ensures x !in RespawnStage(w, i).entities
  {
    hide Homed, TickTrackers, DoneTrackers, RemoveAll, RespawnStage, Inherits, TrackersAt;
    var w1 := TickTrackers(w);
    var xs := DoneTrackers(w1, i.trackers);
    HomedBounded(w);
    RespawnIs(w, i);
    RespawnsForget(RemoveAll(w1, xs), TrackersAt(w1, xs), x);
  }

  lemma HomedBounded(w: World)
    requires Homed(w)
    ensures Tied(w) && forall e | e in w.entities :: e < w.net.nextEntity
  {
    hide Coherent, MasterOf, Tied;
    CoherentIsTied(w);
    HandlesBounded(w);
  }

  lemma RespawnsForget(w: World, rs: seq<ResourceRespawn>, x: Entity)
    requires Homed(w) && x < w.net.nextEntity && x !in w.entities
    ensures x !in RespawnAll(w, rs).entities
  {
    hide Homed, RespawnAll, Inherits, Marked;
    RespawnsExactly(w, rs);
  }

  lemma DueTrackerHas(w: World, i: Inputs, k: nat)
    requires k < |DoneTrackers(TickTrackers(w), i.trackers)|
    ensures var w1, xs := TickTrackers(w), DoneTrackers(TickTrackers(w), i.trackers);
            && xs[k] in w.entities && w.entities[xs[k]].clocks.respawn.Some?
            && TrackersAt(w1, xs)[k].at == w.entities[xs[k]].clocks.respawn.value.at
            && TrackersAt(w1, xs)[k].capacity == w.entities[xs[k]].clocks.respawn.value.capacity
  {
    var xs := DoneTrackers(TickTrackers(w), i.trackers);
    DoneTrackersAre(TickTrackers(w), i.trackers);
    assert xs[k] in xs;
    hide DoneTrackers;
  }

  /** The k-th timer that runs out is gone, and the k-th new entity is its target. */
  lemma DueTimerBack(w: World, i: Inputs, k: nat)
    requires Homed(w) && k < |DoneTimers(TickTimers(w), i.timers)|
    ensures var x, w' := DoneTimers(TickTimers(w), i.timers)[k], ReinitStage(w, i);
            && x in w.entities && w.entities[x].clocks.timer.Some? && x !in w'.entities
            && IsTarget(w', w.net.nextEntity + k, w.entities[x].clocks.timer.value.at)
  {
    hide Coherent, MasterOf, TimerDone;
    hide Tied, TickTimers, DoneTimers, RemoveAll, Marked, ReinitStage, IsTarget, Inherits, TimerPlaces;
    var w1 := TickTimers(w);
    var xs := DoneTimers(w1, i.timers);
    var w2, ps := RemoveAll(w1, xs), TimerPlaces(w1, xs);
    CoherentIsTied(w);
    HandlesBounded(w);
    DueTimerHas(w, i, k);
    ReinitIs(w, i);
    TargetsExactly(w2, ps);
    TargetAt(w2, ps, k);
    assert xs[k] in xs;
  }

  lemma DueTimerHas(w: World, i: Inputs, k: nat)
    requires k < |DoneTimers(TickTimers(w), i.timers)|
    ensures var w1, xs := TickTimers(w), DoneTimers(TickTimers(w), i.timers);
            && xs[k] in w.entities && w.entities[xs[k]].clocks.timer.Some?
            && TimerPlaces(w1, xs)[k] == w.entities[xs[k]].clocks.timer.value.at
  {
    var xs := DoneTimers(TickTimers(w), i.timers);
    DoneTimersAre(TickTimers(w), i.timers);
    assert xs[k] in xs;
    hide DoneTimers;
  }

  /** The new resources of a call match the trackers that run out in it, one to one: the k-th
      tracker is gone and the k-th new resource is its own, full and in place. */
  ghost predicate ResourcesMatch(w: World, i: Inputs) {
    var xs, w1, w' := DueTrackers(w, i), ThroughReinit(w, i), Simulate(w, i);
    && Distinct(xs) && w.net.nextEntity <= w1.net.nextEntity && w'.net.nextEntity == w1.net.nextEntity + |xs|
    && (forall k | 0 <= k < |xs| ::
          && xs[k] in w1.entities && w1.entities[xs[k]].clocks.respawn.Some? && xs[k] !in w'.entities
          && IsBack(w', w1.net.nextEntity + k, w1.entities[xs[k]].clocks.respawn.value))
    && (forall e | e in w'.entities && Marked(ResourceMark, w'.entities[e]) && w.net.nextEntity <= e ::
          w1.net.nextEntity <= e < w'.net.nextEntity)
  }

  /** The same for the new training targets and the timers. */
  ghost predicate TargetsMatch(w: World, i: Inputs) {
    var xs, w0, w' := DueTimers(w, i), BeforeReinit(w, i), Simulate(w, i);
    && Distinct(xs) && w.net.nextEntity <= w0.net.nextEntity
    && (forall k | 0 <= k < |xs| ::
          && xs[k] in w0.entities && w0.entities[xs[k]].clocks.timer.Some? && xs[k] !in w'.entities
          && IsTarget(w', w0.net.nextEntity + k, w0.entities[xs[k]].clocks.timer.value.at))
    && (forall e | e in w'.entities && Marked(TargetMark, w'.entities[e]) && w.net.nextEntity <= e ::
          w0.net.nextEntity <= e < w0.net.nextEntity + |xs|)
  }

  lemma FullIsDistinct(w: World, i: Inputs)
    requires FullQueries(w, i)
    ensures Distinct(i.trackers) && Distinct(i.timers)
  {
    hide Distinct, BeforeReinit;
  }

  /** No resource is new that does not come from a tracker. */
  lemma NoOtherResource(w: World, i: Inputs, e: Entity)
    requires Homed(w) && e in Simulate(w, i).entities && Marked(ResourceMark, Simulate(w, i).entities[e])
    requires w.net.nextEntity <= e
    ensures ThroughReinit(w, i).net.nextEntity <= e < Simulate(w, i).net.nextEntity
  {
    hide Homed, BeforeReinit, ThroughReinit, Simulate, ReinitStage, RespawnStage, TickTimers, TickTrackers, DoneTimers,
         DoneTrackers, Marked;
    var w0, w1 := BeforeReinit(w, i), ThroughReinit(w, i);
    BeforeReinitInherits(w, i, ResourceMark);
    ThroughReinitIs(w, i);
    ReinitExactly(w0, i);
    RespawnExactly(w1, i);
    InheritsTransitive(w, w0, w1, ResourceMark);
    HomedBounded(w);
    HomedBounded(Simulate(w, i));
  }

  /** Of a whole call: one new resource for each tracker that runs out, and no other. */
  lemma NewResources(w: World, i: Inputs)
    requires Homed(w) && FullQueries(w, i)
    ensures ResourcesMatch(w, i)
  {
    hide Homed, FullQueries, BeforeReinit, ThroughReinit, Simulate, ReinitStage, RespawnStage, TickTimers, TickTrackers,
         DoneTimers, DoneTrackers, Marked, IsBack, Inherits, Distinct;
    FullIsDistinct(w, i);
    var w0, w1 := BeforeReinit(w, i), ThroughReinit(w, i);
    HomedBounded(w);
    ThroughReinitAges(w, i);
    BeforeReinitInherits(w, i, ResourceMark);
    ThroughReinitIs(w, i);
    ReinitExactly(w0, i);
    RespawnExactly(w1, i);
    DoneTrackersDistinct(TickTrackers(w1), i.trackers);
    forall k | 0 <= k < |DueTrackers(w, i)|
      ensures var x, w' := DueTrackers(w, i)[k], Simulate(w, i);
              && x in w1.entities && w1.entities[x].clocks.respawn.Some? && x !in w'.entities
              && IsBack(w', w1.net.nextEntity + k, w1.entities[x].clocks.respawn.value)
    {
      DueTrackerBack(w1, i, k);
    }
    forall e | e in Simulate(w, i).entities && Marked(ResourceMark, Simulate(w, i).entities[e]) && w.net.nextEntity <= e
      ensures w1.net.nextEntity <= e < Simulate(w, i).net.nextEntity
    {
      NoOtherResource(w, i, e);
    }
  }

  lemma ThroughReinitIs(w: World, i: Inputs)
    ensures ThroughReinit(w, i) == ReinitStage(BeforeReinit(w, i), i)
    ensures Simulate(w, i) == RespawnStage(ThroughReinit(w, i), i)
  {
    hide ThroughCollection, BeamStage, ShootAll, RegenerateAll, ReinitStage, RespawnStage;
  }

  /** No training target is new that does not come from a timer. */
  lemma NoOtherTarget(w: World, i: Inputs, e: Entity)
    requires Homed(w) && e in Simulate(w, i).entities && Marked(TargetMark, Simulate(w, i).entities[e])
    requires w.net.nextEntity <= e
    ensures BeforeReinit(w, i).net.nextEntity <= e < BeforeReinit(w, i).net.nextEntity + |DueTimers(w, i)|
  {
    hide Homed, BeforeReinit, ThroughReinit, Simulate, ReinitStage, RespawnStage, TickTimers, TickTrackers, DoneTimers,
         DoneTrackers, Marked;
    var w0, w1 := BeforeReinit(w, i), ThroughReinit(w, i);
    BeforeReinitInherits(w, i, TargetMark);
    ThroughReinitIs(w, i);
    ReinitExactly(w0, i);
    RespawnExactly(w1, i);
    HomedBounded(w);
    HomedBounded(w1);
  }

  /** The k-th timer that runs out is gone after the call, and its target is there. */
  lemma DueTimerReturned(w: World, i: Inputs, k: nat)
    requires Homed(w) && k < |DueTimers(w, i)|
    ensures var x, w0, w' := DueTimers(w, i)[k], BeforeReinit(w, i), Simulate(w, i);
            && x in w0.entities && w0.entities[x].clocks.timer.Some? && x !in w'.entities
            && IsTarget(w', w0.net.nextEntity + k, w0.entities[x].clocks.timer.value.at)
  {
    hide Homed, BeforeReinit, ThroughReinit, Simulate, ReinitStage, RespawnStage, TickTimers, TickTrackers, DoneTimers,
         DoneTrackers, Marked, IsTarget, Inherits;
    var w0, w1 := BeforeReinit(w, i), ThroughReinit(w, i);
    BeforeReinitInherits(w, i, TargetMark);
    ThroughReinitIs(w, i);
    ReinitExactly(w0, i);
    HomedBounded(w0);
    HomedBounded(w1);
    DueTimerBack(w0, i, k);
    TargetPersists(w1, i, w0.net.nextEntity + k, w0.entities[DueTimers(w, i)[k]].clocks.timer.value.at);
    RespawnStageForgets(w1, i, DueTimers(w, i)[k]);
  }

  /** And one new training target for each timer that runs out, and no other. */
  lemma NewTargets(w: World, i: Inputs)
    requires Homed(w) && FullQueries(w, i)
    ensures TargetsMatch(w, i)
  {
    hide Homed, FullQueries, BeforeReinit, Simulate, TickTimers, DoneTimers, Marked, IsTarget, Distinct;
    FullIsDistinct(w, i);
    HomedBounded(w);
    BeforeReinitAges(w, i);
    DoneTimersDistinct(TickTimers(BeforeReinit(w, i)), i.timers);
    forall k | 0 <= k < |DueTimers(w, i)|
      ensures var x, w0, w' := DueTimers(w, i)[k], BeforeReinit(w, i), Simulate(w, i);
              && x in w0.entities && w0.entities[x].clocks.timer.Some? && x !in w'.entities
              && IsTarget(w', w0.net.nextEntity + k, w0.entities[x].clocks.timer.value.at)
    {
      DueTimerReturned(w, i, k);
    }
    forall e | e in Simulate(w, i).entities && Marked(TargetMark, Simulate(w, i).entities[e]) && w.net.nextEntity <= e
      ensures BeforeReinit(w, i).net.nextEntity <= e < BeforeReinit(w, i).net.nextEntity + |DueTimers(w, i)|
    {
      NoOtherTarget(w, i, e);
    }
  }

  lemma TargetPersists(w: World, i: Inputs, e: Entity, at: Position)
    requires Tied(w) && IsTarget(w, e, at)
    ensures IsTarget(RespawnStage(w, i), e, at)
  {
    hide Tied, RespawnStage;
    RespawnStageSpares(w, i, e);
  }

  // ---- One timer for each terminated target --------------------------------

  /** The timers of `w'` that are new since `w`. */
  ghost function NewTimers(w: World, w': World): set<Entity> {
    set e | e in w'.entities && w.net.nextEntity <= e && w'.entities[e].clocks.timer.Some?
  }

  /** The live, named training targets in a list. */
  ghost function TargetsIn(w: World, xs: seq<Entity>): set<Entity> {
    set x | x in xs && x in w.entities && x in w.net.byEntity && w.entities[x].clocks.training
  }

  lemma DropIs(w: World, c: Components)
    requires MasterOf(w).Some?
    ensures var w' := DropPayload(w, c);
            && w.net.nextEntity <= w'.net.nextEntity <= w.net.nextEntity + 1
            && (forall e :: e in w'.entities <==> e in w.entities || w.net.nextEntity <= e < w'.net.nextEntity)
            && (forall e | e in w.entities && e != w.net.nextEntity :: w'.entities[e] == w.entities[e])
            && (forall e | w.net.nextEntity <= e < w'.net.nextEntity :: w'.entities[e].clocks == NO_CLOCKS)
  {
    hide MasterOf, KindAt, SpawnKind;
    if c.cargo.store.Some? && c.cargo.store.value.payload > 0 {
      SpawnKindAdds(w, DATA_DROP, PositionOr0(c));
      DropClocks(PositionOr0(c), MasterOf(w).value, w.net.nextId);
    }
  }

  lemma DropClocks(at: Position, ws: NetworkId, n: NetworkId)
    ensures Named(KindAt(DATA_DROP, at, ws), n).clocks == NO_CLOCKS
  {}

  /** What one termination adds: a timer in a fresh handle for a training target, and none otherwise. */
  lemma TerminationTimer(w: World, w1: World, x: Entity)
    requires Homed(w1) && x in w1.net.byEntity && x in w1.entities && x < w.net.nextEntity <= w1.net.nextEntity
    ensures var h := DropPayload(w1, w1.entities[x]).net.nextEntity;
            && h !in NewTimers(w, w1)
            && NewTimers(w, Terminate(w1, x)) == NewTimers(w, w1) + (if w1.entities[x].clocks.training then {h} else {})
            && (w1.entities[x].clocks.training ==> Get(Terminate(w1, x).entities, h) == Some(REINIT))
  {
    hide Coherent, Tied, MasterOf, DropPayload, WithoutMember, WithoutClient;
    var c := w1.entities[x];
    CoherentIsTied(w1);
    HandlesBounded(w1);
    NameOf(w1, x);
    BeforeDespawnKeeps(w1, c);
    hide Keeps;
    var w2 := BeforeDespawn(w1, c);
    assert Get(w2.net.byEntity, x) == Get(w1.net.byEntity, x);
    BeforeDespawnTiedAt(w1, c);
    NameOf(w2, x);
    TerminateIs(w1, x);
    DropIs(w1, c);
    MournTimers(w, w1, c, x);
    RemovedTimers(w, w2, x);
  }

  lemma BeforeDespawnTiedAt(w: World, c: Components)
    requires Tied(w)
    ensures Tied(BeforeDespawn(w, c))
  {
    hide Tied, BeforeDespawn;
    BeforeDespawnKeeps(w, c);
  }

  lemma MournTimers(w: World, w1: World, c: Components, x: Entity)
    requires w.net.nextEntity <= w1.net.nextEntity && forall e | e in w1.entities :: e < w1.net.nextEntity
    requires var w' := DropPayload(w1, c);
             && w1.net.nextEntity <= w'.net.nextEntity
             && (forall e :: e in w'.entities <==> e in w1.entities || w1.net.nextEntity <= e < w'.net.nextEntity)
             && (forall e | e in w1.entities && e != w1.net.nextEntity :: w'.entities[e] == w1.entities[e])
             && (forall e | w1.net.nextEntity <= e < w'.net.nextEntity :: w'.entities[e].clocks == NO_CLOCKS)
    ensures var h := DropPayload(w1, c).net.nextEntity;
            && h !in NewTimers(w, w1)
            && NewTimers(w, BeforeDespawn(w1, c)) == NewTimers(w, w1) + (if c.clocks.training then {h} else {})
            && (c.clocks.training ==> Get(BeforeDespawn(w1, c).entities, h) == Some(REINIT))
  {
    hide DropPayload;
  }

  lemma RemovedTimers(w: World, w1: World, x: Entity)
    requires x < w.net.nextEntity && x in w1.net.byEntity && w1.net.byEntity[x] in w1.net.byId
    requires w1.net.byId[w1.net.byEntity[x]] == x
    ensures NewTimers(w, DespawnEntity(w1, x)) == NewTimers(w, w1)
    ensures forall e | e != x :: Get(DespawnEntity(w1, x).entities, e) == Get(w1.entities, e)
  {
    hide WithoutMember, WithoutClient;
  }

  lemma TargetsInStep(w: World, xs: seq<Entity>)
    requires xs != []
    ensures var x := xs[|xs| - 1];
            TargetsIn(w, xs) == TargetsIn(w, xs[..|xs| - 1])
              + if x in w.entities && x in w.net.byEntity && w.entities[x].clocks.training then {x} else {}
  {
    assert xs == xs[..|xs| - 1] + [xs[|xs| - 1]];
  }

  /** `m` pairs the targets with the timers, one to one, and each timer is new. */
  ghost predicate Pairs(m: map<Entity, Entity>, targets: set<Entity>, timers: set<Entity>, w: World) {
    && m.Keys == targets && m.Values == timers
    && (forall x, y | x in m && y in m && m[x] == m[y] :: x == y)
    && (forall x | x in m :: Get(w.entities, m[x]) == Some(REINIT))
  }

  lemma PairsOne(
    m: map<Entity, Entity>, targets: set<Entity>, timers: set<Entity>, w: World, w': World, x: Entity, h: Entity)
    requires Pairs(m, targets, timers, w) && x !in targets && h !in timers
    requires Get(w'.entities, h) == Some(REINIT) && forall e | e in timers :: Get(w'.entities, e) == Get(w.entities, e)
    ensures Pairs(m[x := h], targets + {x}, timers + {h}, w')
  {
    var m' := m[x := h];
    forall y | y in m ensures m[y] in timers { assert m[y] in m.Values; }
    forall t ensures t in m'.Values <==> t in timers + {h} {
      if t in timers {
        var y :| y in m && m[y] == t;
        assert m'[y] == t;
      }
      if t == h { assert m'[x] == t; }
    }
  }

  /** Terminating a list leaves exactly one timer for each training target in it, however often a
      target is listed. */
  lemma {:induction false} TimersExactly(w: World, xs: seq<Entity>) returns (m: map<Entity, Entity>)
    requires Homed(w) && NoWorkspace(w, xs) && forall k | 0 <= k < |xs| :: xs[k] < w.net.nextEntity
    ensures Pairs(m, TargetsIn(w, xs), NewTimers(w, TerminateAll(w, xs)), TerminateAll(w, xs))
    decreases |xs|
  {
    hide Coherent, Tied, MasterOf, Terminate, NewTimers, TargetsIn, Pairs;
    if xs == [] {
      NoNewTimers(w);
      m := map[];
      NothingPairs(w);
    } else {
      var xs1, x := xs[..|xs| - 1], xs[|xs| - 1];
      var w1 := TerminateAll(w, xs1);
      CoherentIsTied(w);
      m := TimersExactly(w, xs1);
      TerminateAllInherits(w, xs1, TargetMark);
      TerminateAllKeeps(w, xs1);
      hide Keeps, Inherits;
      TargetsInStep(w, xs);
      TerminatedBefore(w, xs1, x);
      if x in w1.net.byEntity && x in w1.entities {
        TerminationTimer(w, w1, x);
        TimersStay(w, w1, x);
        assert w1.entities[x] == w.entities[x] && x !in TargetsIn(w, xs1);
        assert TargetsIn(w, xs) == TargetsIn(w, xs1) + if w.entities[x].clocks.training then {x} else {};
        if w.entities[x].clocks.training {
          var h := DropPayload(w1, w1.entities[x]).net.nextEntity;
          PairsOne(m, TargetsIn(w, xs1), NewTimers(w, w1), w1, TerminateAll(w, xs), x, h);
          m := m[x := h];
        } else {
          assert NewTimers(w, TerminateAll(w, xs)) == NewTimers(w, w1) && TargetsIn(w, xs) == TargetsIn(w, xs1);
          SamePairs(m, TargetsIn(w, xs1), NewTimers(w, w1), w1, TerminateAll(w, xs));
        }
      } else {
        NotTerminated(w1, x);
        assert TargetsIn(w, xs) == TargetsIn(w, xs1);
      }
    }
  }

  lemma NothingPairs(w: World)
    ensures Pairs(map[], {}, {}, w)
  {}

  lemma SamePairs(m: map<Entity, Entity>, targets: set<Entity>, timers: set<Entity>, w: World, w': World)
    requires Pairs(m, targets, timers, w) && forall e | e in timers :: Get(w'.entities, e) == Get(w.entities, e)
    ensures Pairs(m, targets, timers, w')
  {
    forall x | x in m ensures Get(w'.entities, m[x]) == Some(REINIT) { assert m[x] in m.Values; }
  }

  /** What a termination leaves of the older entities is unchanged, and it leaves the local ones. */
  lemma TerminateSpares(w: World, x: Entity, e: Entity)
    requires Tied(w) && e < w.net.nextEntity
    ensures w.net.nextEntity <= Terminate(w, x).net.nextEntity
    ensures e in Terminate(w, x).entities ==> e in w.entities && Terminate(w, x).entities[e] == w.entities[e]
  {
    hide Tied, DropPayload, WithoutMember, WithoutClient;
    if x in w.net.byEntity && x in w.entities {
      BeforeDespawnKeeps(w, w.entities[x]);
      hide Keeps, BeforeDespawn, Mourn;
      TerminateIs(w, x);
    }
  }

  lemma TimersStay(w: World, w1: World, x: Entity)
    requires Homed(w1) && x in w1.net.byEntity && x in w1.entities
    ensures forall e | e in NewTimers(w, w1) :: Get(Terminate(w1, x).entities, e) == Get(w1.entities, e)
  {
    hide Coherent, Tied, MasterOf, Terminate;
    CoherentIsTied(w1);
    forall e | e in NewTimers(w, w1)
      ensures Get(Terminate(w1, x).entities, e) == Get(w1.entities, e)
    {
      PendingIs(w1, e);
      TerminateUntouched(w1, x, e);
    }
  }

  lemma NoNewTimers(w: World)
    requires Homed(w)
    ensures NewTimers(w, w) == {} && TargetsIn(w, []) == {}
  {
    hide Coherent, Tied, MasterOf;
    CoherentIsTied(w);
    HandlesBounded(w);
  }

  lemma NotTerminated(w: World, x: Entity)
    requires !(x in w.net.byEntity && x in w.entities)
    ensures Terminate(w, x) == w
  {}

  /** An entity of the list is live and named in turn exactly when it was at first and did not
      come earlier. */
  lemma TerminatedBefore(w: World, xs: seq<Entity>, x: Entity)
    requires Homed(w) && NoWorkspace(w, xs) && x < w.net.nextEntity
    requires forall k | 0 <= k < |xs| :: xs[k] < w.net.nextEntity
    ensures var w1 := TerminateAll(w, xs);
            && (x in w1.net.byEntity && x in w1.entities <==> x in w.net.byEntity && x in w.entities && x !in xs)
            && (x in w1.net.byEntity && x in w1.entities ==> w1.entities[x] == w.entities[x])
            && (x in TargetsIn(w, xs) <==>
                x in w.net.byEntity && x in w.entities && w.entities[x].clocks.training && x in xs)
  {
    hide Coherent, Tied, MasterOf, TerminateAll;
    CoherentIsTied(w);
    TerminateAllKeeps(w, xs);
    if x in w.entities { TerminateAllNames(w, xs, x); }
    hide Keeps;
  }

  /** The beam stage leaves exactly one new timer for each training target that it kills, also for
      one that several beams kill. */
  lemma BeamTimers(w: World, i: Inputs) returns (m: map<Entity, Entity>)
    requires Homed(w)
    ensures Pairs(m, TargetsIn(w, Killed(w, i.beams, i.targets)), NewTimers(w, BeamStage(w, i)), BeamStage(w, i))
  {
    hide Coherent, Tied, MasterOf, BeamAll, Killed, TerminateAll, NewTimers, TargetsIn, Pairs, BeamStage;
    var w1, killed := BeamAll(w, i.beams, i.targets), Killed(w, i.beams, i.targets);
    CoherentIsTied(w);
    BeamsRetouch(w, i.beams, i.targets);
    RetouchedKeeps(w, w1);
    KeepsHomed(w, w1);
    hide Keeps;
    KilledAreTargets(w, i);
    m := TimersExactly(w1, killed);
    SameTargets(w, i);
    SameBase(w, w1, TerminateAll(w1, killed));
    TimersSurviveBeams(w, i);
    SamePairs(m, TargetsIn(w, killed), NewTimers(w, BeamStage(w, i)), TerminateAll(w1, killed), BeamStage(w, i));
  }

  lemma SameBase(w: World, w1: World, w2: World)
    requires w1.net == w.net
    ensures NewTimers(w1, w2) == NewTimers(w, w2)
  {}

  lemma SameTargets(w: World, i: Inputs)
    requires Tied(w)
    ensures var w1, killed := BeamAll(w, i.beams, i.targets), Killed(w, i.beams, i.targets);
            TargetsIn(w1, killed) == TargetsIn(w, killed) && w1.net == w.net
  {
    hide Tied, BeamAll, Killed;
    var w1, killed := BeamAll(w, i.beams, i.targets), Killed(w, i.beams, i.targets);
    BeamsRetouch(w, i.beams, i.targets);
    BeamsKeepClocks(w, i.beams, i.targets);
    forall x ensures x in TargetsIn(w1, killed) <==> x in TargetsIn(w, killed) {
      assert x in w.entities.Keys <==> x in w1.entities.Keys;
    }
  }

  lemma TimersSurviveBeams(w: World, i: Inputs)
    requires Homed(w)
    ensures var w2 := TerminateAll(BeamAll(w, i.beams, i.targets), Killed(w, i.beams, i.targets));
            && NewTimers(w, BeamStage(w, i)) == NewTimers(w, w2)
            && (forall e | e in NewTimers(w, w2) :: Get(BeamStage(w, i).entities, e) == Get(w2.entities, e))
  {
    hide Coherent, Tied, MasterOf, BeamAll, Killed, Spent, TerminateAll, RemoveBeams;
    var w2 := TerminateAll(BeamAll(w, i.beams, i.targets), Killed(w, i.beams, i.targets));
    CoherentIsTied(w);
    HandlesBounded(w);
    RemovedBeams(w, i);
    AfterKills(w, i);
    SpentAre(w, i.beams, i.targets);
    forall e | e in NewTimers(w, w2)
      ensures e in NewTimers(w, BeamStage(w, i)) && Get(BeamStage(w, i).entities, e) == Get(w2.entities, e)
    {
      PendingIs(w2, e);
      RemoveBeamsUntouched(w2, Spent(w, i.beams, i.targets), e);
    }
  }

  lemma AfterKills(w: World, i: Inputs)
    requires Homed(w)
    ensures var w2 := TerminateAll(BeamAll(w, i.beams, i.targets), Killed(w, i.beams, i.targets));
            Coherent(w2) && Tied(w2)
  {
    hide Coherent, Tied, MasterOf, BeamAll, Killed, TerminateAll;
    CoherentIsTied(w);
    KilledStage(w, i);
    hide Succeeds;
  }

  // ---- Timers over a whole call --------------------------------------------

  /** The live training targets that some beam of the call kills. */
  ghost function KilledTargets(w: World, i: Inputs): set<Entity> {
    var w4 := ThroughCollection(w, i);
    TargetsIn(w4, Killed(w4, i.beams, i.targets))
  }

  lemma {:induction false} TerminateAllSpares(w: World, xs: seq<Entity>, e: Entity)
    requires Tied(w) && e < w.net.nextEntity
    ensures w.net.nextEntity <= TerminateAll(w, xs).net.nextEntity
    ensures e in TerminateAll(w, xs).entities ==> e in w.entities && TerminateAll(w, xs).entities[e] == w.entities[e]
    decreases |xs|
  {
    hide Tied, Terminate;
    if xs != [] {
      TerminateAllSpares(w, xs[..|xs| - 1], e);
      TerminateAllTied(w, xs[..|xs| - 1]);
      TerminateSpares(TerminateAll(w, xs[..|xs| - 1]), xs[|xs| - 1], e);
    }
  }

  /** A timer that the beam stage leaves in an old handle was there before. */
  lemma OldTimer(w: World, i: Inputs, e: Entity)
    requires Tied(w) && e < w.net.nextEntity && e in BeamStage(w, i).entities
    requires BeamStage(w, i).entities[e].clocks.timer.Some?
    ensures e in w.entities && w.entities[e].clocks.timer.Some?
  {
    hide Tied, BeamAll, Killed, Spent, TerminateAll, RemoveBeams;
    var w1 := BeamAll(w, i.beams, i.targets);
    BeamsRetouch(w, i.beams, i.targets);
    BeamsKeepClocks(w, i.beams, i.targets);
    RemovedBeams(w, i);
    RetouchedTied(w, w1);
    TerminateAllSpares(w1, Killed(w, i.beams, i.targets), e);
    assert e in w1.entities.Keys;
  }

  lemma RetouchedTied(w: World, w': World)
    requires Tied(w) && Retouched(w, w')
    ensures Tied(w')
  {
    hide Tied;
    RetouchedKeeps(w, w');
  }

  /** After the beams a call makes no timer. */
  lemma LaterInherits(w: World, i: Inputs)
    requires Homed(w)
    ensures Inherits(BeamStage(ThroughCollection(w, i), i), Simulate(w, i), TimerMark)
  {
    hide Homed, ThroughCollection, BeamStage, ShootAll, RegenerateAll, ReinitStage, RespawnStage, Inherits;
    hide TickTimers, DoneTimers, TickTrackers, DoneTrackers, Marked;
    var w4 := ThroughCollection(w, i);
    var w5 := BeamStage(w4, i);
    var w6 := ShootAll(w5, i.shots);
    var w7, w8 := RegenerateAll(w6), ThroughReinit(w, i);
    CollectionHomed(w, i);
    BeamStageHomed(w4, i);
    ShootAllInherits(w5, i.shots, TimerMark);
    RegenerateHomed(w6, TimerMark);
    ReinitExactly(w7, i);
    RespawnExactly(w8, i);
    InheritsTransitive(w5, w6, w7, TimerMark);
    InheritsTransitive(w5, w7, w8, TimerMark);
    InheritsTransitive(w5, w8, Simulate(w, i), TimerMark);
  }

  lemma CollectionHomed(w: World, i: Inputs)
    requires Homed(w)
    ensures Homed(ThroughCollection(w, i)) && w.net.nextEntity <= ThroughCollection(w, i).net.nextEntity
  {
    hide Coherent, Tied, MasterOf, ThroughCollection;
    CoherentIsTied(w);
    ThroughCollectionKeeps(w, i);
    KeepsHomed(w, ThroughCollection(w, i));
  }

  lemma CollectionInherits(w: World, i: Inputs, m: Mark)
    ensures Inherits(w, ThroughCollection(w, i), m)
  {
    hide InputStage, ExtractStage, ExhaustStage, CollectStage, Inherits;
    var w2 := ExtractStage(InputStage(w, i), i);
    var w3 := ExhaustStage(w2, i);
    ExtractInherits(w, i, m);
    ExhaustInherits(w2, i, m);
    CollectInherits(w3, i, m);
    InheritsTransitive(w, w2, w3, m);
    InheritsTransitive(w, w3, ThroughCollection(w, i), m);
  }

  /** A new timer after the call is one that its beam stage made. */
  lemma TimerFromBeams(w: World, i: Inputs, e: Entity)
    requires Homed(w) && e in NewTimers(w, Simulate(w, i))
    ensures e in NewTimers(ThroughCollection(w, i), BeamStage(ThroughCollection(w, i), i))
  {
    hide Homed, ThroughCollection, BeamStage, Simulate;
    var w4 := ThroughCollection(w, i);
    CollectionHomed(w, i);
    LaterInherits(w, i);
    CollectionInherits(w, i, TimerMark);
    HomedBounded(w);
    HomedBounded(w4);
    if e < w4.net.nextEntity { OldTimer(w4, i, e); }
  }

  /** The clocks of a timer after its first count. */
  const WAITING := Clocks(true, None, Some(RespawnTimer(599, Position(50.0, 50.0))))

  /** And every timer that the beam stage made is there after the call, at 599. */
  lemma TimerStays(w: World, i: Inputs, e: Entity)
    requires Homed(w) && FullQueries(w, i)
    requires Get(BeamStage(ThroughCollection(w, i), i).entities, e) == Some(REINIT)
    ensures e in Simulate(w, i).entities
    ensures Simulate(w, i).entities[e].clocks == WAITING
  {
    hide Coherent, Tied, MasterOf, InputStage, ExtractStage, ExhaustStage, ThroughCollection, BeamStage, Simulate;
    hide RegenerateAll, ShootAll;
    StagesCoherent(w, i);
    var w5 := BeamStage(ThroughCollection(w, i), i);
    CoherentIsTied(w5);
    AfterBeamsUntouched(w5, i, e);
    var _ := TimerEnds(w, i, e);
  }

  /** After a call there is exactly one new timer, at 599, for each training target that its beams
      kill, also for one that several of them kill: `m` pairs them one to one. */
  lemma OneTimerEach(w: World, i: Inputs) returns (m: map<Entity, Entity>)
    requires Homed(w) && FullQueries(w, i)
    ensures m.Keys == KilledTargets(w, i) && m.Values == NewTimers(w, Simulate(w, i))
    ensures forall x, y | x in m && y in m && m[x] == m[y] :: x == y
    ensures forall x | x in m ::
              && m[x] in Simulate(w, i).entities
              && Simulate(w, i).entities[m[x]].clocks == WAITING
  {
    hide Homed, FullQueries, ThroughCollection, BeamStage, Simulate, Killed, TargetsIn;
    var w4 := ThroughCollection(w, i);
    CollectionHomed(w, i);
    m := BeamTimers(w4, i);
    var timers := NewTimers(w4, BeamStage(w4, i));
    forall x | x in m
      ensures m[x] in Simulate(w, i).entities && m[x] in NewTimers(w, Simulate(w, i))
      ensures Simulate(w, i).entities[m[x]].clocks == WAITING
    {
      TimerStays(w, i, m[x]);
      assert m[x] in m.Values;
    }
    forall e | e in NewTimers(w, Simulate(w, i)) ensures e in timers { TimerFromBeams(w, i, e); }
    assert timers == NewTimers(w, Simulate(w, i)) by {
      forall e | e in timers ensures e in NewTimers(w, Simulate(w, i)) {
        var x :| x in m && m[x] == e;
      }
    }
  }
}
