/** The payload economy of one simulate call: what each stage does to the payload held by
    stores, resources and drops, and to the number of resource slots. */
module Ledger {
  import opened Ecs
  import opened Adapter
  import opened Coherence
  import opened Economy
  import opened Upkeep
  import opened Totals

  /** A total, plus the resource that comes with the master workspace while there is none yet. */
  ghost function Worth(w: World, m: Measure): int {
    Total(w, m) + if MasterOf(w).None? then Weigh(m, Archetype(RESOURCE, Position(30.0, 0.0))) else 0
  }

  // ---- Stages that leave cargo and clocks alone ----------------------------

  ghost predicate SameGoods(es: map<Entity, Components>, es': map<Entity, Components>) {
    && es'.Keys == es.Keys
    && forall e | e in es :: es'[e].cargo == es[e].cargo && es'[e].clocks.respawn == es[e].clocks.respawn
  }

  lemma SameGoodsSum(es: map<Entity, Components>, es': map<Entity, Components>, n: nat, m: Measure)
    requires SameGoods(es, es')
    ensures Sum(es', n, m) == Sum(es, n, m)
  {
    SumRewritten(es, es', n, m);
  }

  lemma RetouchedWorth(w: World, w': World, m: Measure)
    requires Retouched(w, w') && SameGoods(w.entities, w'.entities)
    ensures Worth(w', m) == Worth(w, m)
  {
    hide Weigh, MasterIn, ShapesOf;
    SameGoodsSum(w.entities, w'.entities, w.net.nextEntity, m);
  }

  lemma InputSameGoods(w: World, i: Inputs)
    ensures SameGoods(w.entities, InputStage(w, i).entities)
  {
    hide BoundsFor, WrapPosition, ToggleBeam;
    var w1 := MoveAll(w, i.moved);
    assert SameGoods(w.entities, w1.entities);
    assert SameGoods(w1.entities, EncloseAll(w1).entities);
    assert SameGoods(EncloseAll(w1).entities, InputStage(w, i).entities);
    hide MoveAll, EncloseAll, InputStage;
  }

  lemma InputStageWorth(w: World, i: Inputs, m: Measure)
    ensures Worth(InputStage(w, i), m) == Worth(w, m)
  {
    hide InputStage, Retouched, Worth;
    InputStageRetouches(w, i);
    InputSameGoods(w, i);
    RetouchedWorth(w, InputStage(w, i), m);
  }

  lemma RegenerateWorth(w: World, m: Measure)
    ensures Worth(RegenerateAll(w), m) == Worth(w, m)
  {
    RegenerateRetouches(w);
    assert SameGoods(w.entities, RegenerateAll(w).entities);
    RetouchedWorth(w, RegenerateAll(w), m);
  }

  lemma {:induction false} BeamsSameGoods(w: World, beams: seq<Entity>, targets: seq<Entity>)
    ensures SameGoods(w.entities, BeamAll(w, beams, targets).entities)
  {
    hide FirstTarget, IsSpent, HitPools;
    if beams != [] {
      BeamsSameGoods(w, beams[..|beams| - 1], targets);
      var w1 := BeamAll(w, beams[..|beams| - 1], targets);
      BeamSameGoods(w1, beams[|beams| - 1], targets);
    }
  }

  lemma BeamSameGoods(w: World, b: Entity, targets: seq<Entity>)
    ensures SameGoods(w.entities, BeamOne(w, b, targets).entities)
  {
    hide IsSpent, HitPools;
    assert BeamOne(w, b, targets).entities.Keys == w.entities.Keys;
  }

  // ---- Extraction ----------------------------------------------------------

  /** The store of `e`, if it has one, is within its capacity. */
  predicate Fits(w: World, e: Entity) {
    e in w.entities && w.entities[e].cargo.store.Some? ==>
      w.entities[e].cargo.store.value.payload <= w.entities[e].cargo.store.value.capacity
  }

  /** Neither subtraction of a transfer goes below zero, its addition stays within the
      capacity, and all it unwraps is there. */
  predicate SafeTransfer(w: World, t: Transfer) {
    && Holds(w, t)
    && var s, r := w.entities[t.agent].cargo.store.value, w.entities[t.resource].cargo.resource.value;
       && s.payload <= s.capacity
       && s.payload + Granted(t.amount, s, r) <= s.capacity
       && Granted(t.amount, s, r) <= r.remaining
  }

  lemma FittingIsSafe(w: World, t: Transfer)
    requires Holds(w, t) && Fits(w, t.agent)
    ensures SafeTransfer(w, t)
  {}

  lemma TransferOneConserves(w: World, t: Transfer)
    requires SafeTransfer(w, t) && t.agent < w.net.nextEntity && t.resource < w.net.nextEntity
    ensures Total(TransferOne(w, t), Payload) == Total(w, Payload)
  {
    var a := Granted(t.amount, w.entities[t.agent].cargo.store.value, w.entities[t.resource].cargo.resource.value);
    var w1 := Put(w, t.agent, Load(w.entities[t.agent], a));
    LoadWeighs(w.entities[t.agent], a);
    DepleteWeighs(w1.entities[t.resource], a);
    SumPut(w.entities, w.net.nextEntity, Payload, t.agent, Load(w.entities[t.agent], a));
    SumPut(w1.entities, w.net.nextEntity, Payload, t.resource, Deplete(w1.entities[t.resource], a));
    hide Weigh, Granted;
  }

  lemma LoadWeighs(c: Components, a: U16)
    requires c.cargo.store.Some? && c.cargo.store.value.payload + a < U16_LIMIT
    ensures Weigh(Payload, Load(c, a)) == Weigh(Payload, c) + a && Load(c, a).cargo.resource == c.cargo.resource
  {}

  lemma DepleteWeighs(c: Components, a: U16)
    requires c.cargo.resource.Some? && a <= c.cargo.resource.value.remaining
    ensures Weigh(Payload, Deplete(c, a)) == Weigh(Payload, c) - a
  {}

  lemma TransferOneFits(w: World, t: Transfer, e: Entity)
    requires SafeTransfer(w, t) && Fits(w, e)
    ensures Fits(TransferOne(w, t), e)
  {}

  /** Under any contention, transfers between present parties conserve payload and stay safe. */
  lemma {:induction false} TransfersSafe(w: World, ts: seq<Transfer>, e: Entity)
    requires forall k | 0 <= k < |ts| :: Holds(w, ts[k]) && Fits(w, ts[k].agent)
    requires forall k | 0 <= k < |ts| :: ts[k].agent < w.net.nextEntity && ts[k].resource < w.net.nextEntity
    ensures Total(TransferAll(w, ts), Payload) == Total(w, Payload)
    ensures Fits(w, e) ==> Fits(TransferAll(w, ts), e)
    ensures forall k | 0 <= k < |ts| :: SafeTransfer(TransferAll(w, ts[..k]), ts[k])
  {
    if ts != [] {
      var t, ts1 := ts[|ts| - 1], ts[..|ts| - 1];
      var w1 := TransferAll(w, ts1);
      TransfersSafe(w, ts1, e);
      TransfersSafe(w, ts1, t.agent);
      TransferRetouches(w, ts1);
      RetouchedAt(w, w1, t.agent);
      RetouchedAt(w, w1, t.resource);
      hide ShapesOf, Total, Granted, Weigh, Load, Deplete;
      FittingIsSafe(w1, t);
      TransferOneConserves(w1, t);
      if Fits(w, e) { TransferOneFits(w1, t, e); }
      forall k | 0 <= k < |ts| ensures SafeTransfer(TransferAll(w, ts[..k]), ts[k]) {
        if k < |ts1| {
          assert ts1[..k] == ts[..k];
          assert ts1[k] == ts[k];
        }
      }
    }
  }

  lemma DrawIs(w: World, e: Entity, sqrt: real -> real)
    requires Validate(w, e, sqrt).Draw?
    ensures var t := Validate(w, e, sqrt).transfer; Holds(w, t) && Fits(w, t.agent)
  {}

  lemma {:induction false} TransfersAre(w: World, order: seq<Entity>, sqrt: real -> real, k: nat)
    requires k < |Transfers(w, order, sqrt)|
    ensures Holds(w, Transfers(w, order, sqrt)[k]) && Fits(w, Transfers(w, order, sqrt)[k].agent)
  {
    hide Validate, Holds, Fits;
    if k < |Transfers(w, order[..|order| - 1], sqrt)| {
      TransfersAre(w, order[..|order| - 1], sqrt, k);
    } else {
      DrawIs(w, order[|order| - 1], sqrt);
    }
  }

  lemma DisableSameGoods(w: World, order: seq<Entity>, sqrt: real -> real)
    ensures SameGoods(w.entities, DisableAll(w, order, sqrt).entities)
  {
    hide Validate;
  }

  /** Extraction is safe for every agent under arbitrary contention: no transfer underflows,
      stores within capacity stay so, and payload only moves. */
  lemma ExtractionSafe(w: World, i: Inputs, e: Entity)
    requires Tied(w)
    ensures Total(ExtractStage(w, i), Payload) == Total(w, Payload)
    ensures Fits(w, e) ==> Fits(ExtractStage(w, i), e)
    ensures var w1, ts := DisableAll(w, i.extractors, i.sqrt), Transfers(w, i.extractors, i.sqrt);
      forall k | 0 <= k < |ts| :: SafeTransfer(TransferAll(w1, ts[..k]), ts[k])
  {
    var w1, ts := DisableAll(w, i.extractors, i.sqrt), Transfers(w, i.extractors, i.sqrt);
    hide Linked, Validate;
    HandlesBounded(w);
    DisableSameGoods(w, i.extractors, i.sqrt);
    SameGoodsSum(w.entities, w1.entities, w.net.nextEntity, Payload);
    hide DisableAll, Transfers, Weigh;
    assert w1.net == w.net by { DisableRetouches(w, i.extractors, i.sqrt); }
    forall k | 0 <= k < |ts| ensures Holds(w1, ts[k]) && Fits(w1, ts[k].agent) {
      TransfersAre(w, i.extractors, i.sqrt, k);
      assert ts[k].agent in w.entities.Keys && ts[k].resource in w.entities.Keys;
    }
    TransfersSafe(w1, ts, e);
  }

  lemma ExtractStageWorth(w: World, i: Inputs)
    requires Tied(w)
    ensures Worth(ExtractStage(w, i), Payload) == Worth(w, Payload)
  {
    ExtractionSafe(w, i, 0);
    ExtractStageRetouches(w, i);
    hide Weigh, MasterIn, ShapesOf, ExtractStage;
  }

  /** Slots depend on the shapes only. */
  lemma SlotsOfShape(c: Components, c': Components)
    requires ShapeOf(c) == ShapeOf(c')
    ensures Weigh(Slots, c) == Weigh(Slots, c')
  {}

  lemma RetouchedSlots(w: World, w': World)
    requires Retouched(w, w')
    ensures Worth(w', Slots) == Worth(w, Slots)
  {
    assert ShapesOf(w.entities).Keys == ShapesOf(w'.entities).Keys;
    forall e | 0 <= e < w.net.nextEntity ensures At(w.entities, e, Slots) == At(w'.entities, e, Slots) {
      RetouchedAt(w, w', e);
      if e in w.entities { SlotsOfShape(w.entities[e], w'.entities[e]); }
    }
    SumAgree(w.entities, w'.entities, w.net.nextEntity, Slots);
    hide Weigh, MasterIn, ShapesOf;
  }

  // ---- Spawning and despawning ---------------------------------------------

  lemma WeighNamed(m: Measure, kind: nat, at: Position, ws: NetworkId, n: NetworkId)
    ensures Weigh(m, Named(KindAt(kind, at, ws), n)) == Weigh(m, Archetype(kind, at))
    ensures Weigh(m, Named(MasterParts(ws), n)) == 0
  {}

  lemma PlaceTotal(w: World, n: NetworkId, kind: nat, at: Position, ws: NetworkId, m: Measure)
    ensures Total(Place(w, n, kind, at, ws), m) == Total(w, m) + Weigh(m, Archetype(kind, at))
  {
    WeighNamed(m, kind, at, ws, n);
    hide Weigh, Archetype, KindAt;
    SumSpawn(w.entities, w.net.nextEntity, m, Named(KindAt(kind, at, ws), n));
  }

  lemma ReadyTotal(w: World, m: Measure)
    ensures Total(Ready(w), m) == Worth(w, m)
  {
    hide Weigh, MasterOf, Archetype, KindAt;
    if MasterOf(w).None? {
      var w1 := Allocate(w);
      var w2 := SpawnMaster(w1);
      SumSpawn(w.entities, w.net.nextEntity, m, Named(MasterParts(w1.net.nextId), w1.net.nextId));
      WeighNamed(m, RESOURCE, Position(30.0, 0.0), w1.net.nextId, w1.net.nextId);
      SpawnMasterIsFound(w1);
      PlaceTotal(Allocate(w2), w2.net.nextId, RESOURCE, Position(30.0, 0.0), MasterOf(w2).value, m);
    }
  }

  lemma SpawnKindWorth(w: World, kind: nat, at: Position, m: Measure)
    requires Coherent(w)
    ensures Worth(SpawnKind(w, kind, at), m) == Worth(w, m) + Weigh(m, Archetype(kind, at))
  {
    hide Weigh, MasterOf, Archetype, Coherent, Total, SpawnKind, Ready;
    SpawnKindPlaces(w, kind, at);
    ReadyTotal(w, m);
    PlaceTotal(Ready(w), w.net.nextId, kind, at, HomeOf(w), m);
    CoherentIsTied(w);
    SpawnKindKeeps(w, kind, at);
  }

  lemma CoherentIsTied(w: World)
    requires Coherent(w)
    ensures Tied(w)
  {}

  lemma DespawnTotal(w: World, e: Entity, m: Measure)
    requires Tied(w) && e in w.net.byEntity
    ensures Total(DespawnEntity(w, e), m) == Total(w, m) - At(w.entities, e, m)
  {
    NameOf(w, e);
    HandlesBounded(w);
    SumRemove(w.entities, w.net.nextEntity, m, e);
  }

  lemma DespawnWorth(w: World, e: Entity, m: Measure)
    requires Coherent(w) && e in w.net.byEntity && e in w.entities && w.entities[e].locale.workspace.None?
    ensures Worth(DespawnEntity(w, e), m) == Worth(w, m) - Weigh(m, w.entities[e])
  {
    hide Weigh, MasterOf, Coherent, Total, Tied;
    CoherentIsTied(w);
    DespawnTotal(w, e, m);
    DespawnEntityKeeps(w, e);
  }

  // ---- Exhaustion ----------------------------------------------------------

  lemma DespawnEntitySparesName(w: World, x: Entity, e: Entity)
    requires Tied(w) && e in w.net.byEntity && e != x
    ensures e in DespawnEntity(w, x).net.byEntity
  {
    if x in w.net.byEntity { NameOf(w, x); }
    hide Tied;
  }

  lemma {:induction false} DespawnAllSparesNames(w: World, xs: seq<Entity>, e: Entity)
    requires e in w.net.byEntity && e !in xs && Tied(w)
    ensures e in DespawnAll(w, xs).net.byEntity
  {
    hide Tied, DespawnEntity;
    if xs != [] {
      assert xs == xs[..|xs| - 1] + [xs[|xs| - 1]];
      DespawnAllSparesNames(w, xs[..|xs| - 1], e);
      DespawnAllTied(w, xs[..|xs| - 1]);
      DespawnEntitySparesName(DespawnAll(w, xs[..|xs| - 1]), xs[|xs| - 1], e);
    }
  }

  lemma {:induction false} DespawnAllTied(w: World, xs: seq<Entity>)
    requires Tied(w)
    ensures Tied(DespawnAll(w, xs))
  {
    hide Tied;
    if xs != [] {
      DespawnAllTied(w, xs[..|xs| - 1]);
      DespawnEntityKeeps(DespawnAll(w, xs[..|xs| - 1]), xs[|xs| - 1]);
    }
  }

  /** Despawning entities of equal weight `k`, listed once each (or weightless). */
  lemma {:induction false} DespawnAllWorth(w: World, xs: seq<Entity>, m: Measure, k: int)
    requires Coherent(w) && (k == 0 || Distinct(xs))
    requires forall j | 0 <= j < |xs| ::
      xs[j] in w.entities && w.entities[xs[j]].locale.workspace.None? && Weigh(m, w.entities[xs[j]]) == k
    requires k == 0 || forall j | 0 <= j < |xs| :: xs[j] in w.net.byEntity
    ensures Worth(DespawnAll(w, xs), m) == Worth(w, m) - k * |xs|
  {
    hide Weigh, MasterOf, Coherent, Total, Tied, Worth;
    if xs != [] {
      var e, xs1 := xs[|xs| - 1], xs[..|xs| - 1];
      var w1 := DespawnAll(w, xs1);
      DespawnAllWorth(w, xs1, m, k);
      CoherentIsTied(w);
      DespawnAllKeeps(w, xs1);
      DespawnAllSpares(w, xs1);
      if e in w1.net.byEntity {
        NameOf(w1, e);
        DespawnWorth(w1, e, m);
      } else if k != 0 {
        assert e !in xs1;
        DespawnAllSparesNames(w, xs1, e);
      }
    }
  }

  lemma {:induction false} SpawnTrackersWorth(w: World, xs: seq<Entity>, m: Measure)
    requires Coherent(w) && forall j | 0 <= j < |xs| :: IsExhausted(w, xs[j])
    ensures Worth(SpawnTrackers(w, xs), m) == Worth(w, m) + if m == Slots then |xs| else 0
  {
    hide MasterOf, Coherent, Tied, IsExhausted;
    if xs != [] {
      var e, w1 := xs[|xs| - 1], SpawnTrackers(w, xs[..|xs| - 1]);
      SpawnTrackersWorth(w, xs[..|xs| - 1], m);
      CoherentIsTied(w);
      HandlesBounded(w);
      SpawnTrackersGrows(w, xs[..|xs| - 1]);
      SpawnTrackersKeeps(w, xs[..|xs| - 1]);
      assert IsExhausted(w, xs[|xs| - 1]);
      ExhaustedPersists(w, w1, e);
      TrackerWorth(w1, e, m);
    }
  }

  lemma ExhaustedPersists(w: World, w': World, e: Entity)
    requires IsExhausted(w, e) && Grows(w, w')
    ensures IsExhausted(w', e) && w'.entities[e] == w.entities[e]
  {
    assert Get(w'.net.byEntity, e) == Get(w.net.byEntity, e);
  }

  lemma TrackerWeighs(m: Measure, at: Position, capacity: U16)
    ensures Weigh(m, TrackerParts(at, capacity)) == if m == Slots then 1 else 0
  {}

  lemma TrackerWorth(w: World, e: Entity, m: Measure)
    requires Coherent(w) && IsExhausted(w, e)
    ensures var x := TrackerParts(w.entities[e].locale.position.value, w.entities[e].cargo.resource.value.total);
      Worth(SpawnLocal(w, x), m) == Worth(w, m) + if m == Slots then 1 else 0
  {
    hide MasterOf, Coherent, Tied, Weigh, ShapeOf;
    var x := TrackerParts(w.entities[e].locale.position.value, w.entities[e].cargo.resource.value.total);
    CoherentIsTied(w);
    TrackerIsKinded(w.entities[e].locale.position.value, w.entities[e].cargo.resource.value.total);
    SpawnLocalKeeps(w, x);
    TrackerWeighs(m, w.entities[e].locale.position.value, w.entities[e].cargo.resource.value.total);
    SumSpawn(w.entities, w.net.nextEntity, m, x);
  }

  lemma TrackerIsKinded(at: Position, capacity: U16)
    ensures Kinded(ShapeOf(TrackerParts(at, capacity)))
  {}

  lemma {:induction false} ExhaustedDistinct(w: World, order: seq<Entity>)
    requires Distinct(order)
    ensures Distinct(Exhausted(w, order))
  {
    hide IsExhausted;
    if order != [] {
      ExhaustedDistinct(w, order[..|order| - 1]);
      ExhaustedAre(w, order[..|order| - 1]);
    }
  }

  lemma ExhaustedWeighs(w: World, e: Entity, m: Measure)
    requires Coherent(w) && IsExhausted(w, e)
    ensures w.entities[e].locale.workspace.None? && Weigh(m, w.entities[e]) == if m == Slots then 1 else 0
  {
    KindedAt(w, e);
  }

  /** Removing exhausted resources takes no payload, and each slot passes to a tracker. */
  lemma ExhaustStageWorth(w: World, i: Inputs, m: Measure)
    requires Coherent(w) && Distinct(i.resources)
    ensures Worth(ExhaustStage(w, i), m) == Worth(w, m)
  {
    hide MasterOf, Coherent, Tied, IsExhausted, Weigh, Worth, Exhausted, SpawnTrackers, DespawnAll, Succeeds;
    var xs := Exhausted(w, i.resources);
    var w1 := SpawnTrackers(w, xs);
    ExhaustedAre(w, i.resources);
    ExhaustedDistinct(w, i.resources);
    CoherentIsTied(w);
    HandlesBounded(w);
    SpawnTrackersGrows(w, xs);
    SpawnTrackersKeeps(w, xs);
    forall j | 0 <= j < |xs|
      ensures IsExhausted(w, xs[j]) && IsExhausted(w1, xs[j])
    {
      assert xs[j] in xs;
      ExhaustedPersists(w, w1, xs[j]);
    }
    SpawnTrackersWorth(w, xs, m);
    forall j | 0 <= j < |xs|
      ensures xs[j] in w1.entities && xs[j] in w1.net.byEntity && w1.entities[xs[j]].locale.workspace.None?
      ensures Weigh(m, w1.entities[xs[j]]) == if m == Slots then 1 else 0
    {
      ExhaustedWeighs(w1, xs[j], m);
      ExhaustedIsNamed(w1, xs[j]);
    }
    DespawnAllWorth(w1, xs, m, if m == Slots then 1 else 0);
  }

  lemma ExhaustedIsNamed(w: World, e: Entity)
    requires IsExhausted(w, e)
    ensures e in w.entities && e in w.net.byEntity
  {}

  // ---- Collection ----------------------------------------------------------

  /** Whether the store of the claiming agent wraps around when the claim is applied. */
  function Overflow(w: World, cl: Claim): int {
    if cl.amount > 0 && cl.agent in w.entities && w.entities[cl.agent].cargo.store.Some?
       && w.entities[cl.agent].cargo.store.value.payload + cl.amount >= U16_LIMIT then 1 else 0
  }

  ghost function Overflows(w: World, cs: seq<Claim>): (n: int)
    ensures n >= 0
  {
    if cs == [] then 0
    else Overflows(w, cs[..|cs| - 1]) + Overflow(ApplyClaims(w, cs[..|cs| - 1]), cs[|cs| - 1])
  }

  /** A claim by another entity's store on what the drop does hold. */
  predicate Backed(w: World, cl: Claim) {
    && cl.agent != cl.drop
    && cl.agent in w.entities && w.entities[cl.agent].cargo.store.Some?
    && cl.drop in w.entities && w.entities[cl.drop].cargo.drop.Some?
    && cl.amount <= w.entities[cl.drop].cargo.drop.value
  }

  ghost predicate DistinctDrops(cs: seq<Claim>) {
    forall i, j | 0 <= i < j < |cs| :: cs[i].drop != cs[j].drop
  }

  lemma ApplyClaimTotal(w: World, cl: Claim)
    requires Backed(w, cl) && cl.agent < w.net.nextEntity && cl.drop < w.net.nextEntity
    ensures Total(ApplyClaim(w, cl), Payload) == Total(w, Payload) - U16_LIMIT * Overflow(w, cl)
  {
    if cl.amount > 0 {
      var c := Load(w.entities[cl.agent], cl.amount);
      var w1 := Put(w, cl.agent, c);
      var d := TakeFrom(w1.entities[cl.drop], cl.amount);
      SumPut(w.entities, w.net.nextEntity, Payload, cl.agent, c);
      SumPut(w1.entities, w.net.nextEntity, Payload, cl.drop, d);
      var p := w.entities[cl.agent].cargo.store.value.payload;
      assert Weigh(Payload, c) == Weigh(Payload, w.entities[cl.agent]) - p + Wrap(p + cl.amount);
      assert Weigh(Payload, d) == Weigh(Payload, w1.entities[cl.drop]) - cl.amount;
      assert Wrap(p + cl.amount) == p + cl.amount - U16_LIMIT * Overflow(w, cl);
    }
  }

  /** Claims on other drops leave a drop alone. */
  lemma {:induction false} ClaimsSpareDrop(w: World, cs: seq<Claim>, d: Entity)
    requires d in w.entities && forall k | 0 <= k < |cs| :: cs[k].drop != d
    ensures d in ApplyClaims(w, cs).entities && ApplyClaims(w, cs).entities[d].cargo.drop == w.entities[d].cargo.drop
  {
    if cs != [] {
      ClaimsSpareDrop(w, cs[..|cs| - 1], d);
    }
  }

  lemma BackedPersists(w: World, cs: seq<Claim>, cl: Claim)
    requires Backed(w, cl) && forall k | 0 <= k < |cs| :: cs[k].drop != cl.drop
    ensures Backed(ApplyClaims(w, cs), cl)
  {
    ClaimsSpareDrop(w, cs, cl.drop);
    ClaimsRetouch(w, cs);
    RetouchedAt(w, ApplyClaims(w, cs), cl.agent);
    hide ApplyClaims;
  }

  lemma {:induction false} ApplyClaimsTotal(w: World, cs: seq<Claim>)
    requires (forall k | 0 <= k < |cs| :: Backed(w, cs[k])) && DistinctDrops(cs)
    requires forall e | e in w.entities :: e < w.net.nextEntity
    ensures Total(ApplyClaims(w, cs), Payload) == Total(w, Payload) - U16_LIMIT * Overflows(w, cs)
  {
    if cs != [] {
      var cl, cs1 := cs[|cs| - 1], cs[..|cs| - 1];
      ApplyClaimsTotal(w, cs1);
      hide Total, ApplyClaim, Overflow;
      BackedPersists(w, cs1, cl);
      ClaimsRetouch(w, cs1);
      ApplyClaimTotal(ApplyClaims(w, cs1), cl);
    }
  }

  lemma {:induction false} CollectorCan(w: World, d: Entity, agents: seq<Entity>)
    requires Collector(w, d, agents).Some?
    ensures CanCollect(w, d, Collector(w, d, agents).value)
  {
    hide CanCollect;
    if Collector(w, d, agents[..|agents| - 1]).Some? {
      CollectorCan(w, d, agents[..|agents| - 1]);
    }
  }

  lemma {:induction false} ClaimsAre(w: World, drops: seq<Entity>, agents: seq<Entity>, k: nat)
    requires k < |Claims(w, drops, agents)|
    ensures var cl := Claims(w, drops, agents)[k];
      && Backed(w, cl) && cl.drop in drops
      && cl.amount <= Room(w.entities[cl.agent].cargo.store.value)
  {
    var drops1, d := drops[..|drops| - 1], drops[|drops| - 1];
    if k < |Claims(w, drops1, agents)| {
      ClaimsAre(w, drops1, agents, k);
      assert Claims(w, drops, agents)[k] == Claims(w, drops1, agents)[k];
    } else {
      CollectorCan(w, d, agents);
    }
  }

  lemma {:induction false} ClaimsDistinct(w: World, drops: seq<Entity>, agents: seq<Entity>)
    requires Distinct(drops)
    ensures DistinctDrops(Claims(w, drops, agents))
  {
    if drops != [] {
      var drops1 := drops[..|drops| - 1];
      ClaimsDistinct(w, drops1, agents);
      forall k | 0 <= k < |Claims(w, drops1, agents)|
        ensures Claims(w, drops1, agents)[k].drop != drops[|drops| - 1]
      {
        ClaimsAre(w, drops1, agents, k);
      }
      hide Collector, IsDrop;
    }
  }

  /** What the claims of one tick give to one agent. */
  ghost function ClaimedBy(cs: seq<Claim>, a: Entity): (n: nat) {
    if cs == [] then 0
    else ClaimedBy(cs[..|cs| - 1], a) + if cs[|cs| - 1].agent == a then cs[|cs| - 1].amount else 0
  }

  predicate HasStore(w: World, a: Entity) {
    a in w.entities && w.entities[a].cargo.store.Some?
  }

  ghost predicate NoStoreWraps(w: World, cs: seq<Claim>) {
    forall a | HasStore(w, a) :: w.entities[a].cargo.store.value.payload + ClaimedBy(cs, a) < U16_LIMIT
  }

  /** Each store holds what it held and claimed, wrapped around to 16 bits. */
  lemma {:induction false} ClaimedLoad(w: World, cs: seq<Claim>, a: Entity)
    requires HasStore(w, a)
    ensures HasStore(ApplyClaims(w, cs), a)
    ensures ApplyClaims(w, cs).entities[a].cargo.store.value.capacity == w.entities[a].cargo.store.value.capacity
    ensures ApplyClaims(w, cs).entities[a].cargo.store.value.payload
         == Wrap(w.entities[a].cargo.store.value.payload + ClaimedBy(cs, a))
  {
    hide Wrap;
    if cs == [] {
      WrapSmall(w.entities[a].cargo.store.value.payload);
    } else {
      ClaimedLoad(w, cs[..|cs| - 1], a);
      var before := w.entities[a].cargo.store.value.payload + ClaimedBy(cs[..|cs| - 1], a);
      if cs[|cs| - 1].agent == a { WrapTwice(before, cs[|cs| - 1].amount); }
    }
  }

  lemma WrapSmall(n: nat)
    requires n < U16_LIMIT
    ensures Wrap(n) == n
  {}

  /** As long as it does not wrap, it holds exactly that. */
  lemma ClaimedExactly(w: World, cs: seq<Claim>, a: Entity)
    requires HasStore(w, a) && w.entities[a].cargo.store.value.payload + ClaimedBy(cs, a) < U16_LIMIT
    ensures HasStore(ApplyClaims(w, cs), a)
    ensures ApplyClaims(w, cs).entities[a].cargo.store.value.payload
         == w.entities[a].cargo.store.value.payload + ClaimedBy(cs, a)
  {
    hide ApplyClaims, ClaimedBy;
    ClaimedLoad(w, cs, a);
  }

  lemma WrapTwice(n: nat, k: nat)
    ensures Wrap(Wrap(n) + k) == Wrap(n + k)
  {}

  /** Nothing overflows exactly when no store claims more than a u16 holds. */
  lemma {:induction false} OverflowsZero(w: World, cs: seq<Claim>)
    requires forall k | 0 <= k < |cs| :: HasStore(w, cs[k].agent)
    ensures Overflows(w, cs) == 0 <==> NoStoreWraps(w, cs)
  {
    if cs != [] {
      var cl, cs1 := cs[|cs| - 1], cs[..|cs| - 1];
      OverflowsZero(w, cs1);
      assert HasStore(w, cl.agent);
      hide ApplyClaims;
      if w.entities[cl.agent].cargo.store.value.payload + ClaimedBy(cs1, cl.agent) < U16_LIMIT {
        ClaimedExactly(w, cs1, cl.agent);
      }
      if NoStoreWraps(w, cs) {
        forall a | HasStore(w, a) ensures w.entities[a].cargo.store.value.payload + ClaimedBy(cs1, a) < U16_LIMIT {
          assert ClaimedBy(cs1, a) <= ClaimedBy(cs, a);
        }
      }
    }
  }

  lemma {:induction false} EmptiedHoldNothing(w: World, cs: seq<Claim>, x: Entity)
    requires x in Emptied(w, cs)
    ensures x in ApplyClaims(w, cs).entities && ApplyClaims(w, cs).entities[x].cargo.drop == Some(0)
  {
    if x in Emptied(w, cs[..|cs| - 1]) {
      EmptiedHoldNothing(w, cs[..|cs| - 1], x);
    }
  }

  lemma EmptiedWeighs(w: World, e: Entity, m: Measure)
    requires Coherent(w) && e in w.entities && w.entities[e].cargo.drop == Some(0)
    ensures w.entities[e].locale.workspace.None? && Weigh(m, w.entities[e]) == 0
  {
    KindedAt(w, e);
  }

  lemma EmptiedWorth(w: World, cs: seq<Claim>, m: Measure)
    requires Coherent(ApplyClaims(w, cs))
    ensures Worth(DespawnAll(ApplyClaims(w, cs), Emptied(w, cs)), m) == Worth(ApplyClaims(w, cs), m)
  {
    hide MasterOf, Coherent, Tied, Weigh, Worth, ApplyClaims, Emptied;
    var w1, xs := ApplyClaims(w, cs), Emptied(w, cs);
    forall j | 0 <= j < |xs|
      ensures xs[j] in w1.entities && w1.entities[xs[j]].locale.workspace.None? && Weigh(m, w1.entities[xs[j]]) == 0
    {
      EmptiedHoldNothing(w, cs, xs[j]);
      EmptiedWeighs(w1, xs[j], m);
    }
    DespawnAllWorth(w1, xs, m, 0);
  }

  /** Collection loses a whole u16 range per store that wraps, and nothing else. */
  lemma CollectStageWorth(w: World, i: Inputs)
    requires Coherent(w) && Distinct(i.drops)
    ensures Worth(CollectStage(w, i), Payload)
         == Worth(w, Payload) - U16_LIMIT * Overflows(w, Claims(w, i.drops, i.agents))
    ensures Worth(CollectStage(w, i), Slots) == Worth(w, Slots)
  {
    hide Coherent, Tied, Weigh, ApplyClaims, Emptied, Claims, MasterIn;
    var cs := Claims(w, i.drops, i.agents);
    var w1 := ApplyClaims(w, cs);
    CoherentIsTied(w);
    HandlesBounded(w);
    forall k | 0 <= k < |cs| ensures Backed(w, cs[k]) {
      ClaimsAre(w, i.drops, i.agents, k);
    }
    ClaimsDistinct(w, i.drops, i.agents);
    ApplyClaimsTotal(w, cs);
    ClaimsRetouch(w, cs);
    RetouchedKeeps(w, w1);
    RetouchedSlots(w, w1);
    EmptiedWorth(w, cs, Payload);
    EmptiedWorth(w, cs, Slots);
    hide ShapesOf;
  }

  /** Collection conserves payload exactly when no store claims more than a u16 holds. */
  lemma CollectionConservesIff(w: World, i: Inputs)
    requires Coherent(w) && Distinct(i.drops)
    ensures Total(CollectStage(w, i), Payload) == Total(w, Payload)
      <==> NoStoreWraps(w, Claims(w, i.drops, i.agents))
  {
    hide Coherent, Tied, CollectStage, Claims, Total, MasterOf;
    var cs := Claims(w, i.drops, i.agents);
    CollectStageWorth(w, i);
    CoherentIsTied(w);
    CollectStageKeepsMaster(w, i);
    forall k | 0 <= k < |cs| ensures HasStore(w, cs[k].agent) {
      ClaimsAre(w, i.drops, i.agents, k);
    }
    OverflowsZero(w, cs);
  }

  lemma CollectStageKeepsMaster(w: World, i: Inputs)
    requires Coherent(w)
    ensures MasterOf(CollectStage(w, i)) == MasterOf(w)
  {
    var cs := Claims(w, i.drops, i.agents);
    var w1 := ApplyClaims(w, cs);
    ClaimsRetouch(w, cs);
    RetouchedKeeps(w, w1);
    hide Coherent, Tied, ApplyClaims, Emptied, Claims, MasterOf;
    forall x | x in Emptied(w, cs) && x in w1.entities ensures w1.entities[x].locale.workspace.None? {
      EmptiedHoldNothing(w, cs, x);
      EmptiedWeighs(w1, x, Payload);
    }
    DespawnAllMaster(w1, Emptied(w, cs));
  }

  lemma {:induction false} DespawnAllMaster(w: World, xs: seq<Entity>)
    requires Coherent(w) && NoWorkspace(w, xs)
    ensures MasterOf(DespawnAll(w, xs)) == MasterOf(w)
  {
    hide Coherent, Tied, MasterOf;
    if xs != [] {
      var xs1 := xs[..|xs| - 1];
      DespawnAllMaster(w, xs1);
      CoherentIsTied(w);
      DespawnAllKeeps(w, xs1);
      DespawnAllSpares(w, xs1);
      DespawnEntityKeeps(DespawnAll(w, xs1), xs[|xs| - 1]);
    }
  }

  /** A store ends within its capacity exactly when all it held and claimed, wrapped around to 16
      bits, is within it. */
  lemma CollectionFitsIff(w: World, cs: seq<Claim>, a: Entity)
    requires HasStore(w, a)
    ensures HasStore(ApplyClaims(w, cs), a)
    ensures Fits(ApplyClaims(w, cs), a)
      <==> Wrap(w.entities[a].cargo.store.value.payload + ClaimedBy(cs, a)) <= w.entities[a].cargo.store.value.capacity
  {
    ClaimedLoad(w, cs, a);
    hide ApplyClaims;
  }

  /** At most one of the claims is this agent's. */
  ghost predicate ClaimedOnce(cs: seq<Claim>, a: Entity) {
    forall i, j | 0 <= i < j < |cs| :: cs[i].agent != a || cs[j].agent != a
  }

  lemma {:induction false} NotClaimed(cs: seq<Claim>, a: Entity)
    requires forall k | 0 <= k < |cs| :: cs[k].agent != a
    ensures ClaimedBy(cs, a) == 0
    decreases |cs|
  {
    if cs != [] { NotClaimed(cs[..|cs| - 1], a); }
  }

  lemma {:induction false} ClaimedOnceAmount(cs: seq<Claim>, a: Entity)
    requires ClaimedOnce(cs, a)
    ensures ClaimedBy(cs, a) == 0 || exists k | 0 <= k < |cs| :: cs[k].agent == a && ClaimedBy(cs, a) == cs[k].amount
    decreases |cs|
  {
    if cs != [] {
      var cs1, cl := cs[..|cs| - 1], cs[|cs| - 1];
      if cl.agent == a {
        NotClaimed(cs1, a);
        assert cs[|cs| - 1].agent == a;
      } else {
        ClaimedOnceAmount(cs1, a);
        if ClaimedBy(cs1, a) != 0 {
          var k :| 0 <= k < |cs1| && cs1[k].agent == a && ClaimedBy(cs1, a) == cs1[k].amount;
          assert cs[k].agent == a && ClaimedBy(cs, a) == cs[k].amount;
        }
      }
    }
  }

  /** An agent that at most one drop of the tick goes to stays within its capacity, and gains
      exactly what it claimed. */
  lemma ClaimedOnceFits(w: World, drops: seq<Entity>, agents: seq<Entity>, a: Entity)
    requires HasStore(w, a) && Fits(w, a) && ClaimedOnce(Claims(w, drops, agents), a)
    ensures var cs := Claims(w, drops, agents);
            && HasStore(ApplyClaims(w, cs), a) && Fits(ApplyClaims(w, cs), a)
            && ApplyClaims(w, cs).entities[a].cargo.store.value.payload
               == w.entities[a].cargo.store.value.payload + ClaimedBy(cs, a)
  {
    var cs := Claims(w, drops, agents);
    ClaimedLoad(w, cs, a);
    ClaimedOnceAmount(cs, a);
    hide ApplyClaims;
    if ClaimedBy(cs, a) != 0 {
      var k :| 0 <= k < |cs| && cs[k].agent == a && ClaimedBy(cs, a) == cs[k].amount;
      ClaimsAre(w, drops, agents, k);
    }
  }

  // ---- Terminations --------------------------------------------------------

  lemma DropWeighs(m: Measure, c: Components, amount: U16)
    requires c.cargo.drop.Some?
    ensures Weigh(m, c.(cargo := c.cargo.(drop := Some(amount))))
         == Weigh(m, c) + if m == Payload then amount - c.cargo.drop.value else 0
  {}

  lemma DataDropParts(at: Position, ws: NetworkId, n: NetworkId, m: Measure)
    ensures Named(KindAt(DATA_DROP, at, ws), n).cargo.drop == Some(0) && Weigh(m, Archetype(DATA_DROP, at)) == 0
  {}

  function Carried(m: Measure, c: Components): int {
    if m == Payload && c.cargo.store.Some? then c.cargo.store.value.payload else 0
  }

  lemma DropPayloadWorth(w: World, c: Components, m: Measure)
    requires Coherent(w)
    ensures Worth(DropPayload(w, c), m) == Worth(w, m) + Carried(m, c)
  {
    if c.cargo.store.Some? && c.cargo.store.value.payload > 0 {
      hide Coherent, Tied, MasterIn, SpawnKind, Weigh, Archetype, KindAt, ShapesOf, ShapeOf;
      CoherentIsTied(w);
      var amount, at, e := c.cargo.store.value.payload, PositionOr0(c), NewEntity(w);
      var w1 := SpawnKind(w, DATA_DROP, at);
      SpawnKindWorth(w, DATA_DROP, at, m);
      SpawnKindNew(w, DATA_DROP, at);
      DataDropParts(at, HomeOf(w), w.net.nextId, m);
      var parts := w1.entities[e];
      var parts' := parts.(cargo := parts.cargo.(drop := Some(amount)));
      DropWeighs(m, parts, amount);
      DropShape(parts, amount);
      PutWorth(w1, e, parts', m);
      hide Worth, Grows, NewEntity, HomeOf;
    }
  }

  lemma PutWorth(w: World, e: Entity, c: Components, m: Measure)
    requires e in w.entities && e < w.net.nextEntity && ShapeOf(c) == ShapeOf(w.entities[e])
    ensures Worth(Put(w, e, c), m) == Worth(w, m) + Weigh(m, c) - Weigh(m, w.entities[e])
  {
    hide Weigh, MasterIn, ShapesOf, ShapeOf;
    SumPut(w.entities, w.net.nextEntity, m, e, c);
    PutRetouches(w, w, e, c);
  }

  lemma ReinitWeighs(m: Measure)
    ensures Weigh(m, REINIT) == 0 && Kinded(ShapeOf(REINIT))
  {}

  lemma MournWorth(w: World, c: Components, m: Measure)
    requires Coherent(w)
    ensures Worth(Mourn(w, c), m) == Worth(w, m)
  {
    ReinitWeighs(m);
    hide Coherent, Tied, MasterOf, Weigh, ShapeOf;
    CoherentIsTied(w);
    SumSpawn(w.entities, w.net.nextEntity, m, REINIT);
    SpawnLocalKeeps(w, REINIT);
  }

  /** What a termination destroys: the payload, or the slot, of a resource. */
  function DestroyedWith(m: Measure, c: Components): int {
    if c.cargo.resource.Some? then Weigh(m, c) else 0
  }

  lemma PooledWeighs(w: World, e: Entity, m: Measure)
    requires Coherent(w) && e in w.entities && ShapeOf(w.entities[e]).pooled
    ensures Weigh(m, w.entities[e]) == Carried(m, w.entities[e]) + DestroyedWith(m, w.entities[e])
    ensures w.entities[e].locale.workspace.None?
  {
    KindedAt(w, e);
  }

  lemma TerminateWorth(w: World, e: Entity, m: Measure)
    requires Coherent(w) && e in w.net.byEntity && e in w.entities && ShapeOf(w.entities[e]).pooled
    ensures Worth(Terminate(w, e), m) == Worth(w, m) - DestroyedWith(m, w.entities[e])
  {
    PooledWeighs(w, e, m);
    hide Coherent, Tied, MasterOf, Weigh, ShapeOf, Worth, DropPayload, Mourn;
    var c := w.entities[e];
    var w1 := DropPayload(w, c);
    var w2 := Mourn(w1, c);
    CoherentIsTied(w);
    DropPayloadWorth(w, c, m);
    DropPayloadKeeps(w, c);
    MournWorth(w1, c, m);
    BeforeDespawnKeeps(w, c);
    assert Get(w2.net.byEntity, e) == Get(w.net.byEntity, e);
    DespawnWorth(w2, e, m);
    assert Terminate(w, e) == DespawnEntity(w2, e);
  }

  /** Terminating takes the entity's name away, and only its own. */
  lemma TerminateNames(w: World, x: Entity, e: Entity)
    requires Tied(w) && e in w.entities
    ensures e in Terminate(w, x).net.byEntity <==> e in w.net.byEntity && e != x
    ensures e in Terminate(w, x).net.byEntity ==>
            e in Terminate(w, x).entities && Terminate(w, x).entities[e] == w.entities[e]
  {
    hide Tied, Mourn, DropPayload, WithoutMember, WithoutClient;
    if x in w.net.byEntity {
      NameOf(w, x);
      var w2 := BeforeDespawn(w, w.entities[x]);
      BeforeDespawnKeeps(w, w.entities[x]);
      assert Get(w2.net.byEntity, x) == Get(w.net.byEntity, x);
      assert Get(w2.net.byEntity, e) == Get(w.net.byEntity, e);
      hide Keeps, BeforeDespawn;
      TerminateIs(w, x);
      NameOf(w2, x);
    }
  }

  lemma TerminateIs(w: World, x: Entity)
    requires x in w.net.byEntity && x in w.entities
    requires Get(BeforeDespawn(w, w.entities[x]).net.byEntity, x) == Get(w.net.byEntity, x)
    ensures Terminate(w, x) == DespawnEntity(BeforeDespawn(w, w.entities[x]), x)
  {}

  lemma {:induction false} TerminateAllNames(w: World, xs: seq<Entity>, e: Entity)
    requires Tied(w) && e in w.entities && forall k | 0 <= k < |xs| :: xs[k] < w.net.nextEntity
    ensures e in TerminateAll(w, xs).net.byEntity <==> e in w.net.byEntity && e !in xs
    ensures e in TerminateAll(w, xs).net.byEntity ==>
      e in TerminateAll(w, xs).entities && TerminateAll(w, xs).entities[e] == w.entities[e]
  {
    hide Tied, Terminate;
    if xs != [] {
      var x, xs1 := xs[|xs| - 1], xs[..|xs| - 1];
      var w1 := TerminateAll(w, xs1);
      assert xs == xs1 + [x];
      TerminateAllNames(w, xs1, e);
      TerminateAllTied(w, xs1);
      HandlesBounded(w);
      if e in w1.net.byEntity { TerminateNames(w1, x, e); } else { TerminateUnnamed(w1, x, e); }
    }
  }

  lemma {:induction false} TerminateAllTied(w: World, xs: seq<Entity>)
    requires Tied(w)
    ensures Tied(TerminateAll(w, xs)) && w.net.nextEntity <= TerminateAll(w, xs).net.nextEntity
  {
    hide Tied, Terminate;
    if xs != [] {
      TerminateAllTied(w, xs[..|xs| - 1]);
      TerminateKeeps(TerminateAll(w, xs[..|xs| - 1]), xs[|xs| - 1]);
    }
  }

  lemma TerminateUnnamed(w: World, x: Entity, e: Entity)
    requires Tied(w) && e !in w.net.byEntity && e < w.net.nextEntity
    ensures e !in Terminate(w, x).net.byEntity
  {
    hide Tied, Succeeds, Terminate, Spares;
    TerminateKeeps(w, x);
    UnnamedLater(w, Terminate(w, x), e);
  }

  /** A local entity is never named later. */
  lemma UnnamedLater(w: World, w': World, e: Entity)
    requires Tied(w) && Tied(w') && Succeeds(w, w') && e !in w.net.byEntity && e < w.net.nextEntity
    ensures e !in w'.net.byEntity
  {
    hide ShapesOf, OwnersCached, TrackersLocal;
    assert e in w'.net.byEntity ==> e in ShapesOf(w'.entities) && e in ShapesOf(w.entities);
  }

  /** The resources that a list of terminations destroys. */
  ghost function Doomed(w: World, xs: seq<Entity>): map<Entity, Components> {
    map e | e in w.entities && e in xs && e in w.net.byEntity && w.entities[e].cargo.resource.Some? :: w.entities[e]
  }

  lemma {:induction false} NothingSums(es: map<Entity, Components>, n: nat, m: Measure)
    requires es == map[]
    ensures Sum(es, n, m) == 0
  {
    if n > 0 { NothingSums(es, n - 1, m); }
  }

  lemma DoomedGrows(w: World, xs: seq<Entity>, x: Entity, m: Measure)
    requires x in w.entities && x in w.net.byEntity && x !in xs && x < w.net.nextEntity
    ensures Sum(Doomed(w, xs + [x]), w.net.nextEntity, m)
         == Sum(Doomed(w, xs), w.net.nextEntity, m) + DestroyedWith(m, w.entities[x])
  {
    hide Weigh;
    if w.entities[x].cargo.resource.Some? {
      assert Doomed(w, xs + [x]) == Doomed(w, xs)[x := w.entities[x]];
      SumPut(Doomed(w, xs), w.net.nextEntity, m, x, w.entities[x]);
    } else {
      assert Doomed(w, xs + [x]) == Doomed(w, xs);
    }
  }

  /** However often a target is listed, it drops its payload once and is destroyed once. */
  lemma {:induction false} TerminateAllWorth(w: World, xs: seq<Entity>, m: Measure)
    requires Coherent(w)
    requires forall k | 0 <= k < |xs| :: xs[k] in w.entities && ShapeOf(w.entities[xs[k]]).pooled
    ensures Worth(TerminateAll(w, xs), m) == Worth(w, m) - Sum(Doomed(w, xs), w.net.nextEntity, m)
  {
    hide Coherent, Tied, MasterOf, Weigh, ShapeOf, Worth, Terminate, Doomed;
    CoherentIsTied(w);
    HandlesBounded(w);
    if xs == [] {
      assert Doomed(w, xs) == map[] by { NoneDoomed(w); }
      NothingSums(Doomed(w, xs), w.net.nextEntity, m);
    } else {
      var x, xs1 := xs[|xs| - 1], xs[..|xs| - 1];
      var w1 := TerminateAll(w, xs1);
      assert xs == xs1 + [x];
      TerminateAllWorth(w, xs1, m);
      TerminateAllNames(w, xs1, x);
      if x in w1.net.byEntity {
        assert NoWorkspace(w, xs1) by { PooledAreNoWorkspaces(w, xs1); }
        TerminateAllKeeps(w, xs1);
        TerminateWorth(w1, x, m);
        DoomedGrows(w, xs1, x, m);
      } else {
        DoomedSame(w, xs1, x);
        TerminateSkips(w1, x);
      }
    }
  }

  lemma NoneDoomed(w: World)
    ensures Doomed(w, []) == map[]
  {}

  lemma DoomedSame(w: World, xs: seq<Entity>, x: Entity)
    requires x in xs || x !in w.net.byEntity
    ensures Doomed(w, xs + [x]) == Doomed(w, xs)
  {}

  lemma TerminateSkips(w: World, x: Entity)
    requires x !in w.net.byEntity
    ensures Terminate(w, x) == w
  {}

  lemma PooledAreNoWorkspaces(w: World, xs: seq<Entity>)
    requires Coherent(w) && forall k | 0 <= k < |xs| :: xs[k] in w.entities && ShapeOf(w.entities[xs[k]]).pooled
    ensures NoWorkspace(w, xs)
  {
    forall x | x in xs && x in w.entities ensures w.entities[x].locale.workspace.None? {
      KindedAt(w, x);
    }
  }

  lemma BeamWeighs(w: World, e: Entity, m: Measure)
    requires Coherent(w) && e in w.entities && w.entities[e].gear.beam.Some?
    ensures Weigh(m, w.entities[e]) == 0 && w.entities[e].locale.workspace.None?
  {
    KindedAt(w, e);
  }

  lemma RemoveBeamWorth(w: World, e: Entity, m: Measure)
    requires Coherent(w) && (e in w.entities ==> w.entities[e].gear.beam.Some?)
    ensures Worth(RemoveBeam(w, e), m) == Worth(w, m)
  {
    hide Coherent, Tied, MasterOf, Weigh, Worth, Despawn;
    if e in w.entities { BeamWeighs(w, e, m); }
    CoherentIsTied(w);
    if e in w.net.byEntity {
      NameOf(w, e);
      DespawnWorth(w, e, m);
    } else {
      RemovePendingWorth(w, e, m);
    }
  }

  lemma {:induction false} RemoveBeamsWorth(w: World, xs: seq<Entity>, m: Measure)
    requires Coherent(w) && forall x | x in xs && x in w.entities :: w.entities[x].gear.beam.Some?
    ensures Worth(RemoveBeams(w, xs), m) == Worth(w, m)
  {
    hide Coherent, Tied, MasterOf, Worth, RemoveBeam;
    if xs != [] {
      RemoveBeamsWorth(w, xs[..|xs| - 1], m);
      CoherentIsTied(w);
      RemoveBeamsKeeps(w, xs[..|xs| - 1]);
      RemoveBeamWorth(RemoveBeams(w, xs[..|xs| - 1]), xs[|xs| - 1], m);
    }
  }

  lemma DoomedGoods(w: World, w': World, xs: seq<Entity>, m: Measure)
    requires w'.net == w.net && SameGoods(w.entities, w'.entities)
    ensures Sum(Doomed(w', xs), w.net.nextEntity, m) == Sum(Doomed(w, xs), w.net.nextEntity, m)
  {
    forall e | 0 <= e < w.net.nextEntity ensures At(Doomed(w, xs), e, m) == At(Doomed(w', xs), e, m) {
      assert e in w.entities.Keys <==> e in w'.entities.Keys;
    }
    SumAgree(Doomed(w, xs), Doomed(w', xs), w.net.nextEntity, m);
  }

  /** Beams destroy the payload and the slots of the resources they terminate, once each. */
  lemma BeamStageWorth(w: World, i: Inputs, m: Measure)
    requires Coherent(w)
    ensures Worth(BeamStage(w, i), m)
         == Worth(w, m) - Sum(Doomed(w, Killed(w, i.beams, i.targets)), w.net.nextEntity, m)
  {
    hide Coherent, Tied, MasterOf, Worth, Weigh, ShapeOf, BeamAll, Killed, Spent, TerminateAll, Doomed;
    var w1, dead := BeamAll(w, i.beams, i.targets), Killed(w, i.beams, i.targets);
    var w2, spent := TerminateAll(w1, dead), Spent(w, i.beams, i.targets);
    CoherentIsTied(w);
    KilledStage(w, i);
    BeamsRetouch(w, i.beams, i.targets);
    BeamsSameGoods(w, i.beams, i.targets);
    RetouchedWorth(w, w1, m);
    DoomedGoods(w, w1, dead, m);
    KilledAre(w, i.beams, i.targets);
    forall k | 0 <= k < |dead| ensures dead[k] in w1.entities && ShapeOf(w1.entities[dead[k]]).pooled {
      assert dead[k] in dead;
      RetouchedAt(w, w1, dead[k]);
    }
    TerminateAllWorth(w1, dead, m);
    SpentAreBeams(w, i);
    RemoveBeamsWorth(w2, spent, m);
  }

  lemma SpentAreBeams(w: World, i: Inputs)
    requires Tied(w)
    ensures var w2 := TerminateAll(BeamAll(w, i.beams, i.targets), Killed(w, i.beams, i.targets));
      forall x | x in Spent(w, i.beams, i.targets) && x in w2.entities :: w2.entities[x].gear.beam.Some?
  {
    var w1 := BeamAll(w, i.beams, i.targets);
    var w2 := TerminateAll(w1, Killed(w, i.beams, i.targets));
    BeamsRetouch(w, i.beams, i.targets);
    SpentAre(w, i.beams, i.targets);
    HandlesBounded(w);
    hide Tied, BeamAll, Killed, Spent;
    KilledStage(w, i);
    forall x | x in Spent(w, i.beams, i.targets) && x in w2.entities ensures w2.entities[x].gear.beam.Some? {
      RetouchedAt(w, w1, x);
    }
  }

  // ---- Spawns that carry nothing -------------------------------------------

  lemma ShotParts(at: Position, ws: NetworkId, n: NetworkId, m: Measure)
    ensures Named(KindAt(BEAM, at, ws), n).gear.beam.Some?
    ensures Weigh(m, Archetype(BEAM, at)) == 0 && Weigh(m, Archetype(TRAINING_TARGET, at)) == 0
  {}

  lemma ShootWorth(w: World, s: Shot, m: Measure)
    requires Coherent(w)
    ensures Worth(Shoot(w, s), m) == Worth(w, m)
  {
    hide Coherent, Tied, MasterOf, SpawnKind, Weigh, Archetype, KindAt, Worth;
    CoherentIsTied(w);
    var w1, e := SpawnKind(w, BEAM, s.at), NewEntity(w);
    SpawnKindWorth(w, BEAM, s.at, m);
    SpawnKindNew(w, BEAM, s.at);
    ShotParts(s.at, HomeOf(w), w.net.nextId, m);
    var c := w1.entities[e];
    var c' := c.(gear := c.gear.(beam := Some(c.gear.beam.value.(owner := s.owner))));
    assert Shoot(w, s).entities.Keys == w1.entities.Keys;
    assert SameGoods(w1.entities, Shoot(w, s).entities);
    PutRetouches(w1, w1, e, c');
    RetouchedWorth(w1, Shoot(w, s), m);
  }

  lemma {:induction false} ShootAllWorth(w: World, shots: seq<Shot>, m: Measure)
    requires Coherent(w)
    ensures Worth(ShootAll(w, shots), m) == Worth(w, m)
  {
    hide Coherent, Tied, MasterOf, Worth, Shoot;
    if shots != [] {
      ShootAllWorth(w, shots[..|shots| - 1], m);
      CoherentIsTied(w);
      ShootAllKeeps(w, shots[..|shots| - 1]);
      ShootWorth(ShootAll(w, shots[..|shots| - 1]), shots[|shots| - 1], m);
    }
  }

  lemma {:induction false} SpawnTargetsWorth(w: World, ps: seq<Position>, m: Measure)
    requires Coherent(w)
    ensures Worth(SpawnTargets(w, ps), m) == Worth(w, m)
  {
    hide Coherent, Tied, MasterOf, Worth, SpawnKind, Weigh, Archetype;
    if ps != [] {
      SpawnTargetsWorth(w, ps[..|ps| - 1], m);
      CoherentIsTied(w);
      SpawnTargetsKeeps(w, ps[..|ps| - 1]);
      ShotParts(ps[|ps| - 1], 0, 0, m);
      SpawnKindWorth(SpawnTargets(w, ps[..|ps| - 1]), TRAINING_TARGET, ps[|ps| - 1], m);
    }
  }

  // ---- Pending respawns ----------------------------------------------------

  /** Removing pending respawns of equal weight `k`, listed once each (or weightless). */
  lemma {:induction false} RemoveAllWorth(w: World, xs: seq<Entity>, m: Measure, k: int)
    requires Coherent(w) && ArePending(w, xs) && (k == 0 || Distinct(xs))
    requires forall j | 0 <= j < |xs| :: xs[j] in w.entities && Weigh(m, w.entities[xs[j]]) == k
    ensures Worth(RemoveAll(w, xs), m) == Worth(w, m) - k * |xs|
  {
    hide Coherent, Tied, MasterOf, Weigh, Worth;
    if xs != [] {
      var xs1 := xs[..|xs| - 1];
      RemoveAllWorth(w, xs1, m, k);
      RemoveOneWorth(w, xs, m, k);
      hide RemoveAll, ArePending;
      assert k * |xs| == k * |xs1| + k;
    }
  }

  lemma RemoveOneWorth(w: World, xs: seq<Entity>, m: Measure, k: int)
    requires Coherent(w) && xs != [] && ArePending(w, xs) && (k == 0 || Distinct(xs))
    requires forall j | 0 <= j < |xs| :: xs[j] in w.entities && Weigh(m, w.entities[xs[j]]) == k
    ensures Worth(RemoveAll(w, xs), m) == Worth(RemoveAll(w, xs[..|xs| - 1]), m) - k
  {
    hide Coherent, Tied, MasterOf, Weigh, Worth, Keeps;
    var e, xs1 := xs[|xs| - 1], xs[..|xs| - 1];
    var w1 := RemoveAll(w, xs1);
    CoherentIsTied(w);
    RemoveAllCoherent(w, xs1);
    RemoveAllKeeps(w, xs1);
    PendingIsLocal(w1, e);
    RemovePendingWorth(w1, e, m);
    assert k != 0 ==> e !in xs1;
    hide RemoveLocal, ArePending;
  }

  lemma RemoveAllCoherent(w: World, xs: seq<Entity>)
    requires Coherent(w) && ArePending(w, xs)
    ensures Coherent(RemoveAll(w, xs)) && Tied(RemoveAll(w, xs))
  {
    hide Coherent, Tied, RemoveAll, ArePending;
    CoherentIsTied(w);
    RemoveAllKeeps(w, xs);
  }

  lemma RemovePendingWorth(w: World, e: Entity, m: Measure)
    requires Coherent(w) && e !in w.net.byEntity
    ensures Worth(RemoveLocal(w, e), m) == Worth(w, m) - At(w.entities, e, m)
  {
    if e in w.entities { LocalAnonymous(w, e); }
    hide Coherent, Tied, MasterOf, Weigh;
    CoherentIsTied(w);
    HandlesBounded(w);
    RemoveLocalKeeps(w, e);
    if e in w.entities {
      SumRemove(w.entities, w.net.nextEntity, m, e);
    } else {
      assert w.entities - {e} == w.entities;
    }
  }

  lemma TimerWeighs(w: World, e: Entity, m: Measure)
    requires Coherent(w) && TimerDone(w, e)
    ensures Weigh(m, w.entities[e]) == 0
  {
    KindedAt(w, e);
  }

  lemma TickTimersSameGoods(w: World)
    ensures SameGoods(w.entities, TickTimers(w).entities)
  {}

  lemma ReinitStageWorth(w: World, i: Inputs, m: Measure)
    requires Coherent(w)
    ensures Worth(ReinitStage(w, i), m) == Worth(w, m)
  {
    hide Coherent, Tied, MasterOf, Weigh, Worth, TickTimers, DoneTimers;
    var w1 := TickTimers(w);
    var xs := DoneTimers(w1, i.timers);
    TickTimersRetouches(w);
    TickTimersSameGoods(w);
    RetouchedWorth(w, w1, m);
    CoherentIsTied(w);
    RetouchedKeeps(w, w1);
    DoneTimersAre(w1, i.timers);
    forall j | 0 <= j < |xs| ensures xs[j] in w1.entities && Weigh(m, w1.entities[xs[j]]) == 0 {
      assert xs[j] in xs;
      TimerWeighs(w1, xs[j], m);
    }
    RemoveAllKeeps(w1, xs);
    RemoveAllWorth(w1, xs, m, 0);
    SpawnTargetsWorth(RemoveAll(w1, xs), TimerPlaces(w1, xs), m);
  }

  ghost function CapacityOf(rs: seq<ResourceRespawn>): int {
    if rs == [] then 0 else CapacityOf(rs[..|rs| - 1]) + rs[|rs| - 1].capacity
  }

  lemma ResourceParts(at: Position, ws: NetworkId, n: NetworkId, capacity: U16, m: Measure)
    ensures var c := Named(KindAt(RESOURCE, at, ws), n);
      var c' := c.(cargo := c.cargo.(resource := Some(Resource(capacity, capacity))));
      && c.cargo.resource.Some? && ShapeOf(c') == ShapeOf(c) && Weigh(m, c) == Weigh(m, Archetype(RESOURCE, at))
      && Weigh(m, c') == match m case Payload => capacity case Slots => 1 case DueCapacity => 0
  {}

  lemma RespawnWorth(w: World, r: ResourceRespawn, m: Measure)
    requires Coherent(w) && m != DueCapacity
    ensures Worth(Respawn(w, r), m) == Worth(w, m) + if m == Payload then r.capacity else 1
  {
    hide Coherent, Tied, MasterIn, SpawnKind, Weigh, Archetype, KindAt, ShapesOf, ShapeOf;
    CoherentIsTied(w);
    var w1, e := SpawnKind(w, RESOURCE, r.at), NewEntity(w);
    SpawnKindWorth(w, RESOURCE, r.at, m);
    SpawnKindNew(w, RESOURCE, r.at);
    ResourceParts(r.at, HomeOf(w), w.net.nextId, r.capacity, m);
    var c := w1.entities[e];
    var c' := c.(cargo := c.cargo.(resource := Some(Resource(r.capacity, r.capacity))));
    SumPut(w1.entities, w1.net.nextEntity, m, e, c');
    PutRetouches(w1, w1, e, c');
  }

  lemma {:induction false} RespawnAllWorth(w: World, rs: seq<ResourceRespawn>, m: Measure)
    requires Coherent(w) && m != DueCapacity
    ensures Worth(RespawnAll(w, rs), m) == Worth(w, m) + if m == Payload then CapacityOf(rs) else |rs|
  {
    hide Coherent, Tied, MasterOf, Worth, Respawn;
    if rs != [] {
      RespawnAllWorth(w, rs[..|rs| - 1], m);
      CoherentIsTied(w);
      RespawnAllKeeps(w, rs[..|rs| - 1]);
      RespawnWorth(RespawnAll(w, rs[..|rs| - 1]), rs[|rs| - 1], m);
    }
  }

  lemma {:induction false} DoneTrackersDistinct(w: World, order: seq<Entity>)
    requires Distinct(order)
    ensures Distinct(DoneTrackers(w, order))
  {
    if order != [] {
      DoneTrackersDistinct(w, order[..|order| - 1]);
      DoneTrackersAre(w, order[..|order| - 1]);
    }
  }

  lemma {:induction false} DoneTrackersAll(w: World, order: seq<Entity>, e: Entity)
    requires e in order && TrackerDone(w, e)
    ensures e in DoneTrackers(w, order)
  {
    if e != order[|order| - 1] {
      DoneTrackersAll(w, order[..|order| - 1], e);
    }
  }

  /** A total spread over few entities is the sum along a list of them. */
  lemma {:induction false} SumAlong(es: map<Entity, Components>, n: nat, xs: seq<Entity>, rs: seq<ResourceRespawn>)
    requires |rs| == |xs| && Distinct(xs) && forall e | e in es :: e < n
    requires forall k | 0 <= k < |xs| :: xs[k] in es && Weigh(DueCapacity, es[xs[k]]) == rs[k].capacity
    requires forall e | e in es && e !in xs :: Weigh(DueCapacity, es[e]) == 0
    ensures Sum(es, n, DueCapacity) == CapacityOf(rs)
  {
    hide Weigh;
    if xs == [] {
      NothingSums(map[], n, DueCapacity);
      SumAgree(es, map[], n, DueCapacity);
    } else {
      var x, xs1 := xs[|xs| - 1], xs[..|xs| - 1];
      assert xs == xs1 + [x];
      SumRemove(es, n, DueCapacity, x);
      SumAlong(es - {x}, n, xs1, rs[..|rs| - 1]);
    }
  }

  /** The query over trackers misses none. */
  ghost predicate CoversTrackers(w: World, order: seq<Entity>) {
    forall e | e in w.entities && w.entities[e].clocks.respawn.Some? :: e in order
  }

  lemma DueIsDone(w: World, order: seq<Entity>)
    requires CoversTrackers(w, order) && Distinct(order) && forall e | e in w.entities :: e < w.net.nextEntity
    ensures var w1 := TickTrackers(w);
      CapacityOf(TrackersAt(w1, DoneTrackers(w1, order))) == Total(w, DueCapacity)
  {
    var w1 := TickTrackers(w);
    var xs := DoneTrackers(w1, order);
    DoneTrackersAre(w1, order);
    DoneTrackersDistinct(w1, order);
    forall k | 0 <= k < |xs|
      ensures xs[k] in w.entities && Weigh(DueCapacity, w.entities[xs[k]]) == TrackersAt(w1, xs)[k].capacity
    {
      assert xs[k] in xs;
    }
    forall e | e in w.entities && e !in xs ensures Weigh(DueCapacity, w.entities[e]) == 0 {
      if Weigh(DueCapacity, w.entities[e]) != 0 {
        DoneTrackersAll(w1, order, e);
      }
    }
    hide Weigh, TickTrackers, DoneTrackers;
    SumAlong(w.entities, w.net.nextEntity, xs, TrackersAt(w1, xs));
  }

  lemma TickTrackersWorth(w: World, m: Measure)
    requires m != DueCapacity
    ensures Worth(TickTrackers(w), m) == Worth(w, m)
  {
    assert TickTrackers(w).entities.Keys == w.entities.Keys;
    SumRewritten(w.entities, TickTrackers(w).entities, w.net.nextEntity, m);
    TickTrackersRetouches(w);
    hide ShapesOf, MasterIn, Weigh, TickTrackers;
  }

  lemma TrackerDoneWeighs(w: World, e: Entity, m: Measure)
    requires Coherent(w) && TrackerDone(w, e) && m != DueCapacity
    ensures Weigh(m, w.entities[e]) == if m == Slots then 1 else 0
  {
    KindedAt(w, e);
  }

  /** What runs out comes back with the capacity it had, slot for slot. */
  lemma RespawnStageWorth(w: World, i: Inputs, m: Measure)
    requires Coherent(w) && Distinct(i.trackers) && CoversTrackers(w, i.trackers) && m != DueCapacity
    ensures Worth(RespawnStage(w, i), m) == Worth(w, m) + if m == Payload then Total(w, DueCapacity) else 0
  {
    hide Coherent, Tied, MasterOf, Weigh, Worth, TickTrackers, DoneTrackers, Total;
    var w1 := TickTrackers(w);
    var xs := DoneTrackers(w1, i.trackers);
    CoherentIsTied(w);
    HandlesBounded(w);
    TickTrackersRetouches(w);
    TickTrackersWorth(w, m);
    RetouchedKeeps(w, w1);
    DoneTrackersAre(w1, i.trackers);
    DoneTrackersDistinct(w1, i.trackers);
    DueIsDone(w, i.trackers);
    forall j | 0 <= j < |xs|
      ensures xs[j] in w1.entities && Weigh(m, w1.entities[xs[j]]) == if m == Slots then 1 else 0
    {
      assert xs[j] in xs;
      TrackerDoneWeighs(w1, xs[j], m);
    }
    RemoveAllKeeps(w1, xs);
    RemoveAllWorth(w1, xs, m, if m == Slots then 1 else 0);
    RespawnAllWorth(RemoveAll(w1, xs), TrackersAt(w1, xs), m);
  }

  // ---- The whole call ------------------------------------------------------

  ghost predicate SameClocks(es: map<Entity, Components>, es': map<Entity, Components>) {
    es'.Keys == es.Keys && forall e | e in es :: es'[e].clocks == es[e].clocks
  }

  lemma SameClocksSum(es: map<Entity, Components>, es': map<Entity, Components>, n: nat)
    requires SameClocks(es, es')
    ensures Sum(es', n, DueCapacity) == Sum(es, n, DueCapacity)
  {
    SumRewritten(es, es', n, DueCapacity);
  }

  lemma {:induction false} TransfersKeepClocks(w: World, ts: seq<Transfer>)
    ensures SameClocks(w.entities, TransferAll(w, ts).entities)
  {
    if ts != [] {
      TransfersKeepClocks(w, ts[..|ts| - 1]);
      var w1 := TransferAll(w, ts[..|ts| - 1]);
      assert TransferOne(w1, ts[|ts| - 1]).entities.Keys == w1.entities.Keys;
    }
  }

  lemma {:induction false} ClaimsKeepClocks(w: World, cs: seq<Claim>)
    ensures SameClocks(w.entities, ApplyClaims(w, cs).entities)
  {
    if cs != [] {
      ClaimsKeepClocks(w, cs[..|cs| - 1]);
      var w1 := ApplyClaims(w, cs[..|cs| - 1]);
      assert ApplyClaim(w1, cs[|cs| - 1]).entities.Keys == w1.entities.Keys;
    }
  }

  lemma WorthIsDue(w: World)
    ensures Worth(w, DueCapacity) == Total(w, DueCapacity)
  {
    hide MasterOf, Total;
  }

  lemma ExtractStageDue(w: World, i: Inputs)
    ensures Total(ExtractStage(w, i), DueCapacity) == Total(w, DueCapacity)
  {
    var w1 := DisableAll(w, i.extractors, i.sqrt);
    DisableSameGoods(w, i.extractors, i.sqrt);
    DisableRetouches(w, i.extractors, i.sqrt);
    SameGoodsSum(w.entities, w1.entities, w.net.nextEntity, DueCapacity);
    hide DisableAll, Transfers, Weigh;
    TransfersKeepClocks(w1, Transfers(w, i.extractors, i.sqrt));
    TransferRetouches(w1, Transfers(w, i.extractors, i.sqrt));
    SameClocksSum(w1.entities, ExtractStage(w, i).entities, w.net.nextEntity);
  }

  lemma CollectStageDue(w: World, i: Inputs)
    requires Coherent(w)
    ensures Total(CollectStage(w, i), DueCapacity) == Total(w, DueCapacity)
  {
    hide Coherent, Tied, Weigh, ApplyClaims, Emptied, Claims, MasterOf, Worth;
    var cs := Claims(w, i.drops, i.agents);
    var w1 := ApplyClaims(w, cs);
    CoherentIsTied(w);
    ClaimsRetouch(w, cs);
    ClaimsKeepClocks(w, cs);
    SameClocksSum(w.entities, w1.entities, w.net.nextEntity);
    RetouchedKeeps(w, w1);
    EmptiedWorth(w, cs, DueCapacity);
    WorthIsDue(w1);
    WorthIsDue(CollectStage(w, i));
  }

  lemma DoomedIsNotDue(w: World, xs: seq<Entity>, e: Entity)
    requires Coherent(w)
    ensures At(Doomed(w, xs), e, DueCapacity) == 0 == At(map[], e, DueCapacity)
  {
    hide Coherent;
    if e in Doomed(w, xs) {
      KindedAt(w, e);
      ResourceIsNotDue(w.entities[e]);
    }
  }

  lemma ResourceIsNotDue(c: Components)
    requires c.cargo.resource.Some? && Kinded(ShapeOf(c))
    ensures Weigh(DueCapacity, c) == 0
  {}

  lemma DoomedAreNotDue(w: World, xs: seq<Entity>)
    requires Coherent(w)
    ensures Sum(Doomed(w, xs), w.net.nextEntity, DueCapacity) == 0
  {
    hide Coherent, At, Doomed;
    forall e | 0 <= e < w.net.nextEntity ensures At(Doomed(w, xs), e, DueCapacity) == At(map[], e, DueCapacity) {
      DoomedIsNotDue(w, xs, e);
    }
    NothingSums(map[], w.net.nextEntity, DueCapacity);
    SumAgree(Doomed(w, xs), map[], w.net.nextEntity, DueCapacity);
  }

  /** No stage before the respawns makes more or less capacity due in this tick. */
  lemma DueUntouched(w: World, i: Inputs)
    requires Coherent(w) && Distinct(i.resources)
    ensures Total(ThroughReinit(w, i), DueCapacity) == Total(w, DueCapacity)
  {
    hide Coherent, Tied, MasterOf, Worth, Total, InputStage, ExtractStage, ExhaustStage, CollectStage, BeamStage;
    hide RegenerateAll, ReinitStage, Succeeds;
    var w1 := InputStage(w, i);
    var w2 := ExtractStage(w1, i);
    var w3 := ExhaustStage(w2, i);
    var w4 := ThroughCollection(w, i);
    StagesCoherent(w, i);
    InputStageWorth(w, i, DueCapacity);
    ExtractStageDue(w1, i);
    ExhaustStageWorth(w2, i, DueCapacity);
    CollectStageDue(w3, i);
    BeamStageWorth(w4, i, DueCapacity);
    DoomedAreNotDue(w4, Killed(w4, i.beams, i.targets));
    var w5 := BeamStage(w4, i);
    var w6 := ShootAll(w5, i.shots);
    ShootAllWorth(w5, i.shots, DueCapacity);
    RegenerateWorth(w6, DueCapacity);
    ReinitStageWorth(RegenerateAll(w6), i, DueCapacity);
    WorthIsDue(w);
    WorthIsDue(w1);
    WorthIsDue(w2);
    WorthIsDue(w3);
    WorthIsDue(w4);
    WorthIsDue(ThroughReinit(w, i));
  }

  lemma StagesCoherent(w: World, i: Inputs)
    requires Coherent(w)
    ensures var w1 := InputStage(w, i); var w2 := ExtractStage(w1, i); var w4 := ThroughCollection(w, i);
      var w6 := ShootAll(BeamStage(w4, i), i.shots);
      && Coherent(w1) && Coherent(w2) && Coherent(ExhaustStage(w2, i)) && Coherent(w4)
      && Coherent(BeamStage(w4, i)) && Coherent(RegenerateAll(w6)) && Coherent(ThroughReinit(w, i))
  {
    hide Coherent, Tied, MasterOf, Succeeds, InputStage, ExtractStage, ExhaustStage, CollectStage, BeamStage;
    hide RegenerateAll, ReinitStage;
    CoherentIsTied(w);
    var w1 := InputStage(w, i);
    var w2 := ExtractStage(w1, i);
    InputStageRetouches(w, i);
    RetouchedKeeps(w, w1);
    ExtractStageRetouches(w1, i);
    RetouchedKeeps(w1, w2);
    ExhaustStageKeeps(w2, i);
    ThroughCollectionKeeps(w, i);
    BeamStageKeeps(ThroughCollection(w, i), i);
    ShootAllKeeps(BeamStage(ThroughCollection(w, i), i), i.shots);
    var w6 := ShootAll(BeamStage(ThroughCollection(w, i), i), i.shots);
    RegenerateRetouches(w6);
    RetouchedKeeps(w6, RegenerateAll(w6));
    ThroughReinitKeeps(w, i);
  }

  /** What the queries of one call must be: no entity twice, and no tracker missed. */
  ghost predicate ProperQueries(w: World, i: Inputs) {
    && Distinct(i.resources) && Distinct(i.drops) && Distinct(i.trackers)
    && CoversTrackers(ThroughReinit(w, i), i.trackers)
  }

  /** The state that collection reads, and the one that the beams meet. */
  ghost function AtCollection(w: World, i: Inputs): World {
    ExhaustStage(ExtractStage(InputStage(w, i), i), i)
  }

  ghost function DestroyedByBeams(w: World, i: Inputs, m: Measure): int {
    var w4 := ThroughCollection(w, i);
    Sum(Doomed(w4, Killed(w4, i.beams, i.targets)), w4.net.nextEntity, m)
  }

  ghost function StoresWrapped(w: World, i: Inputs): int {
    Overflows(AtCollection(w, i), Claims(AtCollection(w, i), i.drops, i.agents))
  }

  /** The payload ledger of one simulate call: the payload held anywhere changes by the capacity
      that was due to respawn, less the payload of the resources that beams destroyed, less a u16
      range for every store that wrapped while collecting. */
  lemma PayloadLedger(w: World, i: Inputs)
    requires Coherent(w) && ProperQueries(w, i)
    ensures Worth(Simulate(w, i), Payload)
         == Worth(w, Payload) + Total(w, DueCapacity) - DestroyedByBeams(w, i, Payload)
            - U16_LIMIT * StoresWrapped(w, i)
  {
    hide Coherent, Tied, MasterOf, Worth, Total, InputStage, ExtractStage, ExhaustStage, CollectStage, BeamStage;
    hide RegenerateAll, ReinitStage, RespawnStage;
    var w1 := InputStage(w, i);
    var w2 := ExtractStage(w1, i);
    var w3 := AtCollection(w, i);
    var w4 := ThroughCollection(w, i);
    var w5 := BeamStage(w4, i);
    var w6 := ShootAll(w5, i.shots);
    StagesCoherent(w, i);
    CoherentIsTied(w1);
    InputStageWorth(w, i, Payload);
    ExtractStageWorth(w1, i);
    ExhaustStageWorth(w2, i, Payload);
    CollectStageWorth(w3, i);
    BeamStageWorth(w4, i, Payload);
    ShootAllWorth(w5, i.shots, Payload);
    RegenerateWorth(w6, Payload);
    ReinitStageWorth(RegenerateAll(w6), i, Payload);
    RespawnStageWorth(ThroughReinit(w, i), i, Payload);
    DueUntouched(w, i);
  }

  /** Live resources and pending respawns together change only by what beams destroy. */
  lemma SlotLedger(w: World, i: Inputs)
    requires Coherent(w) && ProperQueries(w, i)
    ensures Worth(Simulate(w, i), Slots) == Worth(w, Slots) - DestroyedByBeams(w, i, Slots)
  {
    hide Coherent, Tied, MasterOf, Worth, Total, InputStage, ExtractStage, ExhaustStage, CollectStage, BeamStage;
    hide RegenerateAll, ReinitStage, RespawnStage;
    var w1 := InputStage(w, i);
    var w2 := ExtractStage(w1, i);
    var w3 := AtCollection(w, i);
    var w4 := ThroughCollection(w, i);
    var w5 := BeamStage(w4, i);
    var w6 := ShootAll(w5, i.shots);
    StagesCoherent(w, i);
    InputStageWorth(w, i, Slots);
    ExtractStageRetouches(w1, i);
    RetouchedSlots(w1, w2);
    ExhaustStageWorth(w2, i, Slots);
    CollectStageWorth(w3, i);
    BeamStageWorth(w4, i, Slots);
    ShootAllWorth(w5, i.shots, Slots);
    RegenerateWorth(w6, Slots);
    ReinitStageWorth(RegenerateAll(w6), i, Slots);
    RespawnStageWorth(ThroughReinit(w, i), i, Slots);
  }
}
