/** What collection does drop by drop and agent by agent, which resources run out, where a call leaves
    an entity, and which beams the shots become. */
module Gathering {
  import opened Ecs
  import opened Adapter
  import opened Coherence
  import opened Economy
  import opened Upkeep
  import opened Ledger
  import opened Lineage
  import opened Interaction
  import opened Frames
  import Steering

  // ---- Who takes from which drop -------------------------------------------

  /** Within ten metres of the drop, with room for more. */
  predicate Reaches(w: World, d: Entity, a: Entity) {
    && a != d && a in w.entities && d in w.entities
    && w.entities[a].locale.position.Some? && w.entities[d].locale.position.Some?
    && DistanceSquared(w.entities[d].locale.position.value, w.entities[a].locale.position.value) < 100.0
    && w.entities[a].cargo.store.Some?
    && w.entities[a].cargo.store.value.payload < w.entities[a].cargo.store.value.capacity
  }

  /** The drop goes to the first agent of the query that reaches it. */
  predicate Takes(w: World, d: Entity, agents: seq<Entity>, a: Entity) {
    && d in w.entities && w.entities[d].cargo.drop.Some?
    && exists k | 0 <= k < |agents| ::
         agents[k] == a && Reaches(w, d, a) && forall j | 0 <= j < k :: !Reaches(w, d, agents[j])
  }

  /** What an agent that takes from the drop gets of it. */
  function Share(w: World, d: Entity, a: Entity): nat {
    if d in w.entities && w.entities[d].cargo.drop.Some? && a in w.entities && w.entities[a].cargo.store.Some? then
      var s := w.entities[a].cargo.store.value;
      Min(w.entities[d].cargo.drop.value, Max(0, s.capacity - s.payload))
    else 0
  }

  /** What an agent gets of all the drops together. */
  ghost function Shares(w: World, drops: seq<Entity>, agents: seq<Entity>, a: Entity): nat {
    if drops == [] then 0
    else
      var d := drops[|drops| - 1];
      Shares(w, drops[..|drops| - 1], agents, a) + if Takes(w, d, agents, a) then Share(w, d, a) else 0
  }

  lemma ReachesIs(w: World, d: Entity, a: Entity)
    ensures CanCollect(w, d, a) <==> Reaches(w, d, a)
  {
    hide DistanceSquared;
  }

  lemma TakesIs(w: World, d: Entity, agents: seq<Entity>, a: Entity)
    ensures IsDrop(w, d) && Collector(w, d, agents) == Some(a) <==> Takes(w, d, agents, a)
  {
    hide Collector, CanCollect, Reaches;
    forall x ensures CanCollect(w, d, x) <==> Reaches(w, d, x) { ReachesIs(w, d, x); }
    CollectorIsFirst(w, d, agents);
    if Takes(w, d, agents, a) {
      var k :| 0 <= k < |agents| && agents[k] == a && Reaches(w, d, a)
               && forall j | 0 <= j < k :: !Reaches(w, d, agents[j]);
      assert a in agents && Collector(w, d, agents).Some?;
      var a' := Collector(w, d, agents).value;
      var k' :| 0 <= k' < |agents| && agents[k'] == a' && CanCollect(w, d, a')
                && forall j | 0 <= j < k' :: !CanCollect(w, d, agents[j]);
      assert !(k < k') && !(k' < k);
      ReachedHasPlace(w, d, a);
    }
  }

  lemma ReachedHasPlace(w: World, d: Entity, a: Entity)
    requires Reaches(w, d, a)
    ensures d in w.entities && w.entities[d].locale.position.Some?
    ensures a in w.entities && w.entities[a].cargo.store.Some?
  {}

  lemma TakersCanCarry(w: World, d: Entity, agents: seq<Entity>, a: Entity)
    requires Takes(w, d, agents, a)
    ensures a in w.entities && w.entities[a].cargo.store.Some?
  {
    hide Reaches;
    ReachedHasPlace(w, d, a);
  }

  lemma {:induction false} SharesAre(w: World, drops: seq<Entity>, agents: seq<Entity>, a: Entity)
    ensures ClaimedBy(Claims(w, drops, agents), a) == Shares(w, drops, agents, a)
    decreases |drops|
  {
    hide Takes, Collector, IsDrop;
    if drops != [] {
      var d := drops[|drops| - 1];
      SharesAre(w, drops[..|drops| - 1], agents, a);
      TakesIs(w, d, agents, a);
      if Takes(w, d, agents, a) { TakersCanCarry(w, d, agents, a); }
      OneShare(w, drops, agents, a);
    }
  }

  lemma OneShare(w: World, drops: seq<Entity>, agents: seq<Entity>, a: Entity)
    requires drops != []
    ensures var d, rest := drops[|drops| - 1], drops[..|drops| - 1];
            ClaimedBy(Claims(w, drops, agents), a)
            == ClaimedBy(Claims(w, rest, agents), a)
               + if IsDrop(w, d) && Collector(w, d, agents) == Some(a) then Share(w, d, a) else 0
  {
    hide Collector;
    var d, rest := drops[|drops| - 1], drops[..|drops| - 1];
    var cs, cs1 := Claims(w, drops, agents), Claims(w, rest, agents);
    if cs != cs1 { assert cs[..|cs| - 1] == cs1; }
  }

  /** After collection an agent holds what it held and its share of every drop that it is the first to
      reach, wrapped around to 16 bits. */
  lemma GatherGains(w: World, i: Inputs, a: Entity)
    requires HasStore(w, a) && a in CollectStage(w, i).entities
    ensures HasStore(CollectStage(w, i), a)
    ensures var s, s' := w.entities[a].cargo.store.value, CollectStage(w, i).entities[a].cargo.store.value;
            s' == DataStore((s.payload + Shares(w, i.drops, i.agents, a)) % 65536, s.capacity)
  {
    hide ApplyClaims, Emptied, Claims, Shares, DespawnAll;
    var cs := Claims(w, i.drops, i.agents);
    ClaimedLoad(w, cs, a);
    SharesAre(w, i.drops, i.agents, a);
    OnlyRemoved(ApplyClaims(w, cs), Emptied(w, cs));
  }

  lemma {:induction false} OnlyRemoved(w: World, xs: seq<Entity>)
    ensures forall e | e in DespawnAll(w, xs).entities ::
            e in w.entities && DespawnAll(w, xs).entities[e] == w.entities[e]
    decreases |xs|
  {
    hide WithoutMember, WithoutClient;
    if xs != [] { OnlyRemoved(w, xs[..|xs| - 1]); }
  }


  // ---- What becomes of a drop ----------------------------------------------

  lemma {:induction false} ClaimOn(w: World, drops: seq<Entity>, agents: seq<Entity>, d: Entity, a: Entity)
    returns (k: nat)
    requires d in drops && Takes(w, d, agents, a)
    ensures k < |Claims(w, drops, agents)| && Claims(w, drops, agents)[k] == Claim(a, d, Share(w, d, a))
    decreases |drops|
  {
    hide Takes, Collector;
    var rest, x := drops[..|drops| - 1], drops[|drops| - 1];
    assert drops == rest + [x];
    TakesIs(w, d, agents, a);
    TakersCanCarry(w, d, agents, a);
    if x == d {
      k := |Claims(w, rest, agents)|;
    } else {
      k := ClaimOn(w, rest, agents, d, a);
    }
  }

  lemma {:induction false} NoClaimOn(w: World, drops: seq<Entity>, agents: seq<Entity>, d: Entity)
    requires d in drops ==> forall a :: !Takes(w, d, agents, a)
    ensures forall k | 0 <= k < |Claims(w, drops, agents)| :: Claims(w, drops, agents)[k].drop != d
    decreases |drops|
  {
    hide Takes, Collector;
    if drops != [] {
      var rest, x := drops[..|drops| - 1], drops[|drops| - 1];
      assert drops == rest + [x];
      NoClaimOn(w, rest, agents, d);
      if x == d && IsDrop(w, d) && Collector(w, d, agents).Some? {
        TakesIs(w, d, agents, Collector(w, d, agents).value);
      }
    }
  }

  /** What the claims do to the drop of one of them. */
  lemma {:induction false} OneClaim(w: World, cs: seq<Claim>, k: nat)
    requires k < |cs| && DistinctDrops(cs) && cs[k].drop in w.entities && w.entities[cs[k].drop].cargo.drop.Some?
    ensures var d, n := cs[k].drop, w.entities[cs[k].drop].cargo.drop.value;
            && d in ApplyClaims(w, cs).entities
            && ApplyClaims(w, cs).entities[d].cargo.drop == Some(Max(0, n - cs[k].amount))
            && (d in Emptied(w, cs) <==> cs[k].amount > 0 && cs[k].amount >= n)
    decreases |cs|
  {
    hide Load;
    var rest, cl, d := cs[..|cs| - 1], cs[|cs| - 1], cs[k].drop;
    assert forall j | 0 <= j < |rest| :: rest[j] == cs[j];
    if k == |rest| {
      ClaimsSpareDrop(w, rest, d);
      NotEmptied(w, rest, d);
      LastClaim(ApplyClaims(w, rest), cl);
    } else {
      OneClaim(w, rest, k);
      OtherClaim(ApplyClaims(w, rest), cl, d);
    }
  }

  lemma LastClaim(w: World, cl: Claim)
    requires cl.drop in w.entities && w.entities[cl.drop].cargo.drop.Some?
    ensures var w' := ApplyClaim(w, cl);
            && cl.drop in w'.entities
            && w'.entities[cl.drop].cargo.drop == Some(Max(0, w.entities[cl.drop].cargo.drop.value - cl.amount))
  {}

  lemma OtherClaim(w: World, cl: Claim, d: Entity)
    requires cl.drop != d && d in w.entities
    ensures d in ApplyClaim(w, cl).entities && ApplyClaim(w, cl).entities[d].cargo.drop == w.entities[d].cargo.drop
  {}

  lemma {:induction false} NotEmptied(w: World, cs: seq<Claim>, d: Entity)
    requires forall j | 0 <= j < |cs| :: cs[j].drop != d
    ensures d !in Emptied(w, cs)
    decreases |cs|
  {
    hide ApplyClaims;
    if cs != [] { NotEmptied(w, cs[..|cs| - 1], d); }
  }

  lemma {:induction false} SparedStays(w: World, xs: seq<Entity>, e: Entity)
    requires Tied(w) && e in w.entities && e !in xs
    ensures e in DespawnAll(w, xs).entities && DespawnAll(w, xs).entities[e] == w.entities[e]
    decreases |xs|
  {
    hide Tied, WithoutMember, WithoutClient;
    if xs != [] {
      var rest, y := xs[..|xs| - 1], xs[|xs| - 1];
      assert xs == rest + [y];
      SparedStays(w, rest, e);
      DespawnAllTied(w, rest);
      hide DespawnAll;
      if y in DespawnAll(w, rest).net.byEntity { NameOf(DespawnAll(w, rest), y); }
    }
  }

  lemma {:induction false} TakenGoes(w: World, xs: seq<Entity>, e: Entity)
    requires Tied(w) && e in w.net.byEntity && e in xs
    ensures e !in DespawnAll(w, xs).entities
    decreases |xs|
  {
    hide Tied, WithoutMember, WithoutClient;
    var rest, y := xs[..|xs| - 1], xs[|xs| - 1];
    assert xs == rest + [y];
    if e in rest {
      TakenGoes(w, rest, e);
    } else {
      DespawnAllSparesNames(w, rest, e);
      DespawnAllTied(w, rest);
      hide DespawnAll;
      NameOf(DespawnAll(w, rest), e);
    }
  }

  /** A named drop loses the share of the agent that takes from it, and is gone exactly when that is all
      it held. */
  lemma DropTaken(w: World, i: Inputs, d: Entity, a: Entity)
    requires Tied(w) && Distinct(i.drops) && d in i.drops && Takes(w, d, i.agents, a) && d in w.net.byEntity
    ensures var n, s := w.entities[d].cargo.drop.value, Share(w, d, a);
            && (d in CollectStage(w, i).entities <==> n == 0 || s < n)
            && (d in CollectStage(w, i).entities ==> CollectStage(w, i).entities[d].cargo.drop == Some(n - s))
  {
    hide Tied, Takes, Claims, ApplyClaims, Emptied, DespawnAll;
    var cs := Claims(w, i.drops, i.agents);
    var k := ClaimOn(w, i.drops, i.agents, d, a);
    ClaimsDistinct(w, i.drops, i.agents);
    TakenHasDrop(w, d, i.agents, a);
    OneClaim(w, cs, k);
    ClaimsTied(w, cs);
    if d in Emptied(w, cs) { TakenGoes(ApplyClaims(w, cs), Emptied(w, cs), d); }
    else { SparedStays(ApplyClaims(w, cs), Emptied(w, cs), d); }
  }

  lemma TakenHasDrop(w: World, d: Entity, agents: seq<Entity>, a: Entity)
    requires Takes(w, d, agents, a)
    ensures d in w.entities && w.entities[d].cargo.drop.Some?
  {}

  lemma ClaimsTied(w: World, cs: seq<Claim>)
    requires Tied(w)
    ensures Tied(ApplyClaims(w, cs)) && ApplyClaims(w, cs).net == w.net
  {
    hide Tied, ApplyClaims;
    ClaimsRetouch(w, cs);
    RetouchedTied(w, ApplyClaims(w, cs));
  }

  /** Whatever nobody takes from is still there, with as much in it as before. */
  lemma DropStays(w: World, i: Inputs, e: Entity)
    requires Tied(w) && e in w.entities && (e in i.drops ==> forall a :: !Takes(w, e, i.agents, a))
    ensures e in CollectStage(w, i).entities
    ensures CollectStage(w, i).entities[e].cargo.drop == w.entities[e].cargo.drop
  {
    hide Tied, Takes, Claims, ApplyClaims, Emptied, DespawnAll;
    var cs := Claims(w, i.drops, i.agents);
    NoClaimOn(w, i.drops, i.agents, e);
    ClaimsSpareDrop(w, cs, e);
    NotEmptied(w, cs, e);
    ClaimsTied(w, cs);
    SparedStays(ApplyClaims(w, cs), Emptied(w, cs), e);
  }

  // ---- Which resources run out ---------------------------------------------

  /** Of the named resources that the query visits, exactly the empty ones are gone; all else stays. */
  lemma RunsOutIff(w: World, i: Inputs, e: Entity)
    requires Coherent(w) && Distinct(i.resources) && e in w.entities
    ensures e !in ExhaustStage(w, i).entities <==>
              && e in i.resources && e in w.net.byEntity && w.entities[e].locale.position.Some?
              && w.entities[e].cargo.resource.Some? && w.entities[e].cargo.resource.value.remaining == 0
  {
    hide Coherent, Exhausted, ExhaustStage, IsTrackerOf;
    ExhaustExactly(w, i);
    CoherentIsTied(w);
    HandlesBounded(w);
  }

  // ---- What an agent carries after a call ----------------------------------

  lemma LaterStore(w: World, i: Inputs, e: Entity)
    ensures KeepsPart(StorePart, ThroughCollection(w, i), Simulate(w, i), e)
  {
    hide ThroughCollection, BeamStage, ShootAll, RegenerateAll, ReinitStage, RespawnStage, SamePart, Wears;
    var w4 := ThroughCollection(w, i);
    var w5 := BeamStage(w4, i);
    var w6 := RegenerateAll(ShootAll(w5, i.shots));
    BeamStageFrame(StorePart, w4, i, e);
    ShotsFrame(StorePart, w5, i.shots, e);
    RegenerateFrame(StorePart, ShootAll(w5, i.shots), e);
    ReinitFrame(StorePart, w6, i, e);
    RespawnFrame(StorePart, ReinitStage(w6, i), i, e);
    Chain(StorePart, w4, w5, ShootAll(w5, i.shots), e);
    Chain(StorePart, w4, ShootAll(w5, i.shots), w6, e);
    Chain(StorePart, w4, w6, ReinitStage(w6, i), e);
    Chain(StorePart, w4, ReinitStage(w6, i), Simulate(w, i), e);
  }

  /** The world after extraction. */
  ghost function Drawn(w: World, i: Inputs): World {
    ExtractStage(InputStage(w, i), i)
  }

  lemma DrawnSize(w: World, i: Inputs)
    ensures w.net.nextEntity <= Drawn(w, i).net.nextEntity
  {
    hide InputStage, DisableAll, Transfers, TransferAll, SamePart, Wears;
    Steering.SameWorldSize(w, i);
    TransfersFrame(PlacePart, DisableAll(InputStage(w, i), i.extractors, i.sqrt),
                   Transfers(InputStage(w, i), i.extractors, i.sqrt), 0);
  }

  /** An agent that lives through a whole call carries what extraction left it with and its share of
      every drop it is the first to reach then. */
  lemma CallStore(w: World, i: Inputs, e: Entity)
    requires e < w.net.nextEntity && e in Simulate(w, i).entities && HasStore(Drawn(w, i), e)
    ensures HasStore(Simulate(w, i), e)
    ensures var s, s' := Drawn(w, i).entities[e].cargo.store.value, Simulate(w, i).entities[e].cargo.store.value;
            var gained := Shares(ExhaustStage(Drawn(w, i), i), i.drops, i.agents, e);
            s' == DataStore((s.payload + gained) % 65536, s.capacity)
  {
    hide Simulate, ExtractStage, InputStage, ExhaustStage, CollectStage, Shares, Wears;
    var w3 := Drawn(w, i);
    DrawnSize(w, i);
    ExhaustFrame(StorePart, w3, i, e);
    CollectFrame(PlacePart, ExhaustStage(w3, i), i, e);
    LaterStore(w, i, e);
    GatherGains(ExhaustStage(w3, i), i, e);
  }

  // ---- Where a call leaves an entity ---------------------------------------

  /** Where physics put the entity. */
  function PutAt(w: World, i: Inputs, e: Entity): Option<Position> {
    if e !in w.entities || w.entities[e].locale.position.None? then None
    else if e in i.moved then Some(i.moved[e])
    else w.entities[e].locale.position
  }

  lemma MovedTo(w: World, i: Inputs, e: Entity)
    requires e in w.entities
    ensures e in MoveAll(w, i.moved).entities && MoveAll(w, i.moved).entities[e].locale.position == PutAt(w, i, e)
    ensures MoveAll(w, i.moved).entities[e].locale.membership == w.entities[e].locale.membership
  {}

  lemma EnclosedOnly(w: World, e: Entity)
    requires e in w.entities && w.entities[e].locale.membership.None?
    ensures EncloseAll(w).entities[e] == w.entities[e]
  {}

  lemma InputPlaces(w: World, i: Inputs, e: Entity)
    requires e in w.entities
    ensures var w1, w2 := EncloseAll(MoveAll(w, i.moved)), DisableAll(InputStage(w, i), i.extractors, i.sqrt);
            && w2.net == w.net && e in w1.entities && e in w2.entities && w2.entities[e].locale == w1.entities[e].locale
  {
    hide Enclose, ToggleBeam, Validate;
  }

  /** An entity that lives through a whole call is where physics put it, if it belongs to no workspace;
      otherwise it lies inside the bounds of the workspace, whole widths and heights from there, and
      exactly there if that is inside. */
  lemma CallPlace(w: World, i: Inputs, e: Entity)
    requires Coherent(w) && e in w.entities && e in Simulate(w, i).entities
    ensures var b := Bounds(Position(-250.0, -250.0), Position(250.0, 250.0));
            var p, q := PutAt(w, i, e), Simulate(w, i).entities[e].locale.position;
            && p.Some? == q.Some?
            && (w.entities[e].locale.membership.None? ==> q == p)
            && (w.entities[e].locale.membership.Some? && p.Some? ==>
                  Inside(q.value, b) && Congruent(p.value, q.value, b) && (Inside(p.value, b) ==> q == p))
  {
    hide Coherent, Simulate, MoveAll, EncloseAll, InputStage, DisableAll, Inside, Congruent;
    CoherentIsTied(w);
    HandlesBounded(w);
    MovedTo(w, i, e);
    InputPlaces(w, i, e);
    RestFrame(PlacePart, w, i, e);
    if w.entities[e].locale.membership.None? {
      EnclosedOnly(MoveAll(w, i.moved), e);
    } else if w.entities[e].locale.position.Some? {
      MembersInside(w, i.moved, e);
    } else {
      NowhereStays(MoveAll(w, i.moved), e);
    }
  }

  lemma NowhereStays(w: World, e: Entity)
    requires e in w.entities && w.entities[e].locale.position.None?
    ensures EncloseAll(w).entities[e] == w.entities[e]
  {}

  // ---- Which beams the shots become ----------------------------------------

  /** A fresh beam of this shot. */
  predicate IsShot(w: World, e: Entity, s: Shot) {
    && e in w.entities && w.entities[e].locale.position == Some(s.at)
    && w.entities[e].gear.beam == Some(BeamMarker(s.at, 200.0, s.owner, 300))
  }

  lemma ShotGrows(w: World, s: Shot)
    requires Tied(w)
    ensures var w', e := Shoot(w, s), NewEntity(w);
            Tied(w') && Grows(w, w') && w.net.nextEntity <= e < w'.net.nextEntity && IsShot(w', e, s)
  {
    hide Tied, SpawnKind, KindAt, NewEntity, HomeOf;
    SpawnKindNew(w, BEAM, s.at);
    HandlesBounded(w);
    ShotLeft(w, s);
    ShootKeeps(w, s);
  }

  /** Every shot becomes a beam of its own, and nothing that was there changes. */
  lemma {:induction false} ShotsFly(w: World, shots: seq<Shot>) returns (es: seq<Entity>)
    requires Tied(w)
    ensures Tied(ShootAll(w, shots)) && Grows(w, ShootAll(w, shots)) && |es| == |shots| && Distinct(es)
    ensures forall k | 0 <= k < |es| ::
              && w.net.nextEntity <= es[k] < ShootAll(w, shots).net.nextEntity
              && IsShot(ShootAll(w, shots), es[k], shots[k])
    decreases |shots|
  {
    hide Tied, Shoot, NewEntity, Grows, IsShot;
    if shots == [] {
      es := [];
      GrowsItself(w);
    } else {
      var rest, s := shots[..|shots| - 1], shots[|shots| - 1];
      var w1 := ShootAll(w, rest);
      var es1 := ShotsFly(w, rest);
      es := es1 + [NewEntity(w1)];
      ShotGrows(w1, s);
      HandlesBounded(w);
      GrowsTransitive(w, w1, ShootAll(w, shots));
      forall k | 0 <= k < |es1| ensures IsShot(ShootAll(w, shots), es[k], shots[k]) {
        ShotStays(w1, ShootAll(w, shots), es1[k], rest[k]);
      }
      GrowsLonger(w1, ShootAll(w, shots));
      GrowsLonger(w, w1);
    }
  }

  lemma GrowsItself(w: World)
    ensures Grows(w, w)
  {}

  lemma GrowsLonger(w: World, w': World)
    requires Grows(w, w')
    ensures w.net.nextEntity <= w'.net.nextEntity
  {}

  lemma ShotStays(w: World, w': World, e: Entity, s: Shot)
    requires Grows(w, w') && IsShot(w, e, s)
    ensures IsShot(w', e, s)
  {}
}
