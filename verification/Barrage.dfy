/** What the beams of a call do, by counting hits: which beam strikes whom, what that costs the target,
    when it dies of it, and which beams are left. */
module Barrage {
  import opened Ecs
  import opened Adapter
  import opened Coherence
  import opened Economy
  import opened Upkeep
  import opened Ledger
  import opened Respawns
  import opened Lineage
  import opened Interaction
  import opened Frames
  import RespawnRuns

  // ---- Who strikes whom ----------------------------------------------------

  /** A beam with life left, within its range of where it was fired. */
  predicate Flying(w: World, b: Entity) {
    && b in w.entities && w.entities[b].gear.beam.Some? && w.entities[b].locale.position.Some?
    && var m := w.entities[b].gear.beam.value;
       m.lifetime > 0 && DistanceSquared(w.entities[b].locale.position.value, m.origin) <= m.maxRange * m.maxRange
  }

  /** Something with a pool, not fired by it, within four metres. */
  predicate Near(w: World, b: Entity, t: Entity)
    requires Flying(w, b)
  {
    && t != b && t in w.entities && w.entities[t].locale.position.Some?
    && (var p := w.entities[t].pools; p.priority.Some? || p.integrity.Some? || p.shell.Some?)
    && Get(w.net.byEntity, t) != Some(w.entities[b].gear.beam.value.owner)
    && DistanceSquared(w.entities[t].locale.position.value, w.entities[b].locale.position.value) < 16.0
  }

  /** The beam flies, and `t` is the first of the query that is near it. */
  predicate Strikes(w: World, b: Entity, targets: seq<Entity>, t: Entity) {
    && Flying(w, b)
    && exists k | 0 <= k < |targets| ::
         targets[k] == t && Near(w, b, t) && forall j | 0 <= j < k :: !Near(w, b, targets[j])
  }

  /** The number of beams that strike `t`. */
  ghost function Hits(w: World, beams: seq<Entity>, targets: seq<Entity>, t: Entity): nat {
    if beams == [] then 0
    else Hits(w, beams[..|beams| - 1], targets, t) + if Strikes(w, beams[|beams| - 1], targets, t) then 1 else 0
  }

  lemma NearIs(w: World, b: Entity, t: Entity)
    requires Flying(w, b)
    ensures IsBeam(w, b) && !IsSpent(w, b) && (CanHit(w, b, t) <==> Near(w, b, t))
  {
    hide DistanceSquared;
  }

  lemma NotFlying(w: World, b: Entity)
    requires !Flying(w, b)
    ensures !IsBeam(w, b) || IsSpent(w, b)
  {
    hide DistanceSquared;
  }

  lemma StrikesIs(w: World, b: Entity, targets: seq<Entity>, t: Entity)
    ensures BeamTarget(w, b, targets) == Some(t) <==> Strikes(w, b, targets, t)
  {
    hide IsBeam, IsSpent, CanHit, Near, FirstTarget, DistanceSquared;
    if Flying(w, b) {
      NearIs(w, b, t);
      forall x ensures IsBeam(w, b) && !IsSpent(w, b) && (CanHit(w, b, x) <==> Near(w, b, x)) { NearIs(w, b, x); }
      hide Flying;
      TargetIsFirst(w, b, targets);
      if Strikes(w, b, targets, t) {
        var k :| 0 <= k < |targets| && targets[k] == t && Near(w, b, t)
                 && forall j | 0 <= j < k :: !Near(w, b, targets[j]);
        assert t in targets && FirstTarget(w, b, targets).Some?;
        var t' := FirstTarget(w, b, targets).value;
        var k' :| 0 <= k' < |targets| && targets[k'] == t' && CanHit(w, b, t')
                  && forall j | 0 <= j < k' :: !CanHit(w, b, targets[j]);
        assert !(k < k') && !(k' < k);
      }
    } else {
      NotFlying(w, b);
    }
  }

  // ---- Beams do not disturb each other -------------------------------------

  /** For the choice of `b`, the two worlds are the same. */
  ghost predicate SameChoice(w: World, w': World, b: Entity) {
    && w'.net == w.net && w'.entities.Keys == w.entities.Keys
    && (b in w.entities ==> w'.entities[b].gear.beam == w.entities[b].gear.beam)
    && (forall e | e in w.entities ::
          w'.entities[e].locale == w.entities[e].locale && HasPool(w'.entities[e]) == HasPool(w.entities[e]))
  }

  lemma {:induction false} FirstTargetSame(w: World, w': World, b: Entity, targets: seq<Entity>)
    requires SameChoice(w, w', b) && IsBeam(w, b) && IsBeam(w', b)
    ensures FirstTarget(w', b, targets) == FirstTarget(w, b, targets)
    decreases |targets|
  {
    hide DistanceSquared, HasPool;
    if targets != [] { FirstTargetSame(w, w', b, targets[..|targets| - 1]); }
  }

  lemma ChoiceSame(w: World, w': World, b: Entity, targets: seq<Entity>)
    requires SameChoice(w, w', b)
    ensures BeamTarget(w', b, targets) == BeamTarget(w, b, targets)
    ensures IsBeam(w', b) == IsBeam(w, b) && (IsBeam(w, b) ==> IsSpent(w', b) == IsSpent(w, b))
  {
    hide DistanceSquared, HasPool, FirstTarget;
    assert b in w.entities.Keys <==> b in w'.entities.Keys;
    if IsBeam(w, b) { FirstTargetSame(w, w', b, targets); }
  }

  lemma {:induction false} LaterSame(w: World, beams: seq<Entity>, targets: seq<Entity>, b: Entity)
    requires b !in beams
    ensures SameChoice(w, BeamAll(w, beams, targets), b)
    decreases |beams|
  {
    hide HasPool;
    if beams != [] {
      var rest, x := beams[..|beams| - 1], beams[|beams| - 1];
      assert beams == rest + [x];
      LaterSame(w, rest, targets, b);
      OneSame(BeamAll(w, rest, targets), x, targets, b);
    }
  }

  lemma OneSame(w: World, x: Entity, targets: seq<Entity>, b: Entity)
    requires x != b
    ensures SameChoice(w, BeamOne(w, x, targets), b)
  {
    hide IsSpent, DistanceSquared;
    assert BeamOne(w, x, targets).entities.Keys == w.entities.Keys;
  }

  // ---- What the hits cost --------------------------------------------------

  function Drained(p: Option<Pool>, amount: nat): Option<Pool> {
    if p.None? then None else Some(p.value.(current := Max(0, p.value.current - amount)))
  }

  /** What of `amount` gets past the priority pool. */
  function Past(p: Pools, amount: nat): nat {
    Max(0, amount - CurrentOf(p.priority))
  }

  /** The pools after `n` hits of 25: first the priority pool, then the one behind it. */
  function Struck(p: Pools, n: nat): Pools {
    var past := Past(p, 25 * n);
    Pools(Drained(p.priority, 25 * n),
          Drained(p.integrity, past),
          if p.integrity.Some? then p.shell else Drained(p.shell, past),
          p.regen)
  }

  lemma {:induction false} HitTimesIs(p: Pools, n: nat)
    ensures HitTimes(p, n) == Struck(p, n)
    decreases n
  {
    if n > 0 {
      HitTimesIs(p, n - 1);
      OneMoreHit(p, n);
    }
  }

  lemma OneMoreHit(p: Pools, n: nat)
    requires n > 0
    ensures HitPools(Struck(p, n - 1)) == Struck(p, n)
  {}

  lemma {:induction false} PoolsAre(w: World, beams: seq<Entity>, targets: seq<Entity>, t: Entity)
    requires Distinct(beams) && t in w.entities
    ensures var w' := BeamAll(w, beams, targets);
            t in w'.entities && w'.entities[t].pools == HitTimes(w.entities[t].pools, Hits(w, beams, targets, t))
    decreases |beams|
  {
    hide HitPools, Strikes;
    if beams != [] {
      var rest, x := beams[..|beams| - 1], beams[|beams| - 1];
      var w1 := BeamAll(w, rest, targets);
      PoolsAre(w, rest, targets, t);
      assert x !in rest;
      LaterSame(w, rest, targets, x);
      ChoiceSame(w, w1, x, targets);
      StrikesIs(w, x, targets, t);
      OnePools(w1, x, targets, t);
    }
  }

  lemma OnePools(w: World, x: Entity, targets: seq<Entity>, t: Entity)
    requires t in w.entities
    ensures var w' := BeamOne(w, x, targets);
            t in w'.entities && w'.entities[t].pools
            == if BeamTarget(w, x, targets) == Some(t) then HitPools(w.entities[t].pools) else w.entities[t].pools
  {
    hide HitPools, IsSpent;
  }

  /** After the beams of a call, a target that n of them strike has lost 25 n: from its priority pool
      first, and what is past that from the pool behind it. */
  lemma BeamsCost(w: World, beams: seq<Entity>, targets: seq<Entity>, t: Entity)
    requires Distinct(beams) && t in w.entities
    ensures var w' := BeamAll(w, beams, targets);
            t in w'.entities && w'.entities[t].pools == Struck(w.entities[t].pools, Hits(w, beams, targets, t))
    ensures var p, p' := w.entities[t].pools, BeamAll(w, beams, targets).entities[t].pools;
            Inner(p).Some? ==> Strength(p') == Max(0, Strength(p) - 25 * Hits(w, beams, targets, t))
  {
    hide BeamAll, HitTimes, Hits;
    PoolsAre(w, beams, targets, t);
    HitTimesIs(w.entities[t].pools, Hits(w, beams, targets, t));
  }

  // ---- Who dies of it ------------------------------------------------------

  /** The hits cover all that the target has: nothing is left behind its priority pool, and they go
      past that. */
  predicate Lethal(p: Pools, n: nat) {
    Inner(p).Some? && 25 * n >= CurrentOf(p.priority) + Max(1, CurrentOf(Inner(p)))
  }

  lemma FatalIs(p: Pools, n: nat)
    ensures Fatal(Struck(p, n)) || Lethal(p, n) <==> Lethal(p, n + 1)
    ensures Fatal(Struck(p, n)) ==> Lethal(p, n + 1)
  {}

  lemma {:induction false} KilledIff(w: World, beams: seq<Entity>, targets: seq<Entity>, t: Entity)
    requires Distinct(beams) && t in w.entities
    ensures t in Killed(w, beams, targets) <==> Lethal(w.entities[t].pools, Hits(w, beams, targets, t))
    decreases |beams|
  {
    hide BeamAll, BeamTarget, Fatal, Lethal, Struck, Strikes, BeamOne;
    if beams == [] {
      NoHitIsNotLethal(w.entities[t].pools);
    } else {
      var rest, x := beams[..|beams| - 1], beams[|beams| - 1];
      var w1 := BeamAll(w, rest, targets);
      KilledIff(w, rest, targets, t);
      BeamsCost(w, rest, targets, t);
      assert x !in rest;
      LaterSame(w, rest, targets, x);
      ChoiceSame(w, w1, x, targets);
      StrikesIs(w, x, targets, t);
      FatalIs(w.entities[t].pools, Hits(w, rest, targets, t));
    }
  }

  lemma NoHitIsNotLethal(p: Pools)
    ensures !Lethal(p, 0)
  {}

  /** In the beam stage a named target that is no beam dies exactly when the hits on it cover all it
      has; if it lives, it has lost what they took. */
  lemma DiesIff(w: World, i: Inputs, t: Entity)
    requires Homed(w) && Distinct(i.beams)
    requires t in w.entities && t in w.net.byEntity && w.entities[t].gear.beam.None?
    ensures var p, n := w.entities[t].pools, Hits(w, i.beams, i.targets, t);
            && (t !in BeamStage(w, i).entities <==> Lethal(p, n))
            && (t in BeamStage(w, i).entities ==> BeamStage(w, i).entities[t].pools == Struck(p, n))
  {
    hide Homed, BeamAll, Killed, Spent, TerminateAll, RemoveBeams, Hits, Lethal, Struck, Tied;
    var w1, killed := BeamAll(w, i.beams, i.targets), Killed(w, i.beams, i.targets);
    HomedBounded(w);
    KilledIff(w, i.beams, i.targets, t);
    BeamsCost(w, i.beams, i.targets, t);
    BeamsRetouch(w, i.beams, i.targets);
    RetouchedTied(w, w1);
    RemovedBeams(w, i);
    HomedKills(w, i);
    if t in killed {
      RespawnRuns.TerminatedIsGone(w1, killed, t);
    } else {
      TerminateAllNames(w1, killed, t);
      SpentAre(w, i.beams, i.targets);
      TerminateAllTied(w1, killed);
      NamedSurvives(TerminateAll(w1, killed), Spent(w, i.beams, i.targets), t);
    }
  }

  lemma HomedKills(w: World, i: Inputs)
    requires Homed(w)
    ensures var w1, killed := BeamAll(w, i.beams, i.targets), Killed(w, i.beams, i.targets);
            forall k | 0 <= k < |killed| :: killed[k] < w1.net.nextEntity
  {
    hide Coherent, BeamAll, Killed;
    KilledAreTargets(w, i);
  }

  lemma {:induction false} NamedSurvives(w: World, xs: seq<Entity>, t: Entity)
    requires Tied(w) && t in w.entities && t in w.net.byEntity && t !in xs
    ensures var w' := RemoveBeams(w, xs);
            && Tied(w') && t in w'.net.byEntity && t in w'.entities && w'.entities[t] == w.entities[t]
    decreases |xs|
  {
    hide Tied;
    if xs != [] {
      var rest, x := xs[..|xs| - 1], xs[|xs| - 1];
      assert xs == rest + [x];
      NamedSurvives(w, rest, t);
      OneRemoved(RemoveBeams(w, rest), x, t);
    }
  }

  lemma OneRemoved(w: World, x: Entity, t: Entity)
    requires Tied(w) && t in w.entities && t in w.net.byEntity && t != x
    ensures var w' := RemoveBeam(w, x);
            Tied(w') && t in w'.net.byEntity && t in w'.entities && w'.entities[t] == w.entities[t]
  {
    hide WithoutMember, WithoutClient, Coherent, MasterOf, Succeeds;
    RemoveBeamKeeps(w, x);
    if x in w.net.byEntity { NameOf(w, x); }
    hide Tied;
  }

  // ---- Over several calls --------------------------------------------------

  /** The hits on `t` in a sequence of beam stages. */
  ghost function AllHits(ws: seq<World>, calls: seq<Inputs>, t: Entity): nat
    requires |ws| == |calls|
  {
    if ws == [] then 0
    else
      var k := |ws| - 1;
      AllHits(ws[..k], calls[..k], t) + Hits(ws[k], calls[k].beams, calls[k].targets, t)
  }

  /** `t` is a named target in each of the worlds, and between the beam stages nothing changes its
      pools. */
  ghost predicate Fights(ws: seq<World>, calls: seq<Inputs>, t: Entity) {
    && |ws| == |calls|
    && (forall k | 0 <= k < |ws| ::
          && Homed(ws[k]) && Distinct(calls[k].beams)
          && t in ws[k].entities && t in ws[k].net.byEntity && ws[k].entities[t].gear.beam.None?)
    && (forall j, k | 0 <= j < |ws| && 0 <= k < |ws| && k == j + 1 :: Carries(ws[j], calls[j], ws[k], t))
  }

  /** `t` lives through the beam stage and enters `w'` with the pools it is left with. */
  ghost predicate Carries(w: World, i: Inputs, w': World, t: Entity) {
    && t in BeamStage(w, i).entities && t in w'.entities
    && w'.entities[t].pools == BeamStage(w, i).entities[t].pools
  }

  lemma FightsRest(ws: seq<World>, calls: seq<Inputs>, t: Entity)
    requires Fights(ws, calls, t) && ws != []
    ensures Fights(ws[..|ws| - 1], calls[..|ws| - 1], t)
  {
    hide Homed, BeamStage;
    var vs, cs := ws[..|ws| - 1], calls[..|ws| - 1];
    assert forall k | 0 <= k < |vs| :: vs[k] == ws[k] && cs[k] == calls[k];
  }

  /** Left without regeneration, a target dies in exactly the call whose hits, with those of the calls
      before, cover all it had at the start; until then it has lost what they took. */
  lemma {:induction false} DiesInCall(ws: seq<World>, calls: seq<Inputs>, t: Entity)
    requires Fights(ws, calls, t) && ws != []
    ensures var p, n, last := ws[0].entities[t].pools, AllHits(ws, calls, t), BeamStage(ws[|ws| - 1], calls[|ws| - 1]);
            && (t !in last.entities <==> Lethal(p, n))
            && (t in last.entities ==> last.entities[t].pools == Struck(p, n))
            && (CurrentOf(Inner(p)) > 0 ==> (Lethal(p, n) <==> Strength(p) <= 25 * n))
    decreases |ws|
  {
    hide Homed, BeamStage, Hits, Struck, Lethal;
    var k := |ws| - 1;
    var p := ws[0].entities[t].pools;
    var n := Hits(ws[k], calls[k].beams, calls[k].targets, t);
    DiesIff(ws[k], calls[k], t);
    StrengthIsCovered(p, AllHits(ws, calls, t));
    if k > 0 {
      FightsRest(ws, calls, t);
      DiesInCall(ws[..k], calls[..k], t);
      assert ws[..k][k - 1] == ws[k - 1] && calls[..k][k - 1] == calls[k - 1];
      assert Carries(ws[k - 1], calls[k - 1], ws[k], t);
      Together(p, AllHits(ws[..k], calls[..k], t), n);
    } else {
      assert ws[..0] == [] && AllHits(ws[..0], calls[..0], t) == 0;
      NoHitIsNotLethal(p);
    }
  }

  lemma StrengthIsCovered(p: Pools, n: nat)
    ensures CurrentOf(Inner(p)) > 0 ==> (Lethal(p, n) <==> Strength(p) <= 25 * n)
  {}

  /** Hits add up. */
  lemma Together(p: Pools, m: nat, n: nat)
    requires !Lethal(p, m)
    ensures Struck(Struck(p, m), n) == Struck(p, m + n)
    ensures Lethal(Struck(p, m), n) <==> Lethal(p, m + n)
  {}

  // ---- What becomes of the beams -------------------------------------------

  /** A beam is removed exactly when it is out of life or range or strikes something. */
  lemma {:induction false} SpentIff(w: World, beams: seq<Entity>, targets: seq<Entity>, b: Entity)
    requires Distinct(beams) && IsBeam(w, b)
    ensures b in Spent(w, beams, targets)
       <==> b in beams && (!Flying(w, b) || exists t :: Strikes(w, b, targets, t))
    decreases |beams|
  {
    hide BeamAll, BeamTarget, BeamOne, Flying, Strikes, IsSpent;
    if beams != [] {
      var rest, x := beams[..|beams| - 1], beams[|beams| - 1];
      assert beams == rest + [x] && x !in rest;
      SpentIff(w, rest, targets, b);
      LaterSame(w, rest, targets, x);
      ChoiceSame(w, BeamAll(w, rest, targets), x, targets);
      if x == b {
        SpentOrFlying(w, b);
        if BeamTarget(w, b, targets).Some? { StrikesIs(w, b, targets, BeamTarget(w, b, targets).value); }
        if t :| Strikes(w, b, targets, t) { StrikesIs(w, b, targets, t); }
      }
    }
  }

  lemma SpentOrFlying(w: World, b: Entity)
    requires IsBeam(w, b)
    ensures IsSpent(w, b) <==> !Flying(w, b)
  {
    hide DistanceSquared;
  }

  lemma {:induction false} RemovedIsGone(w: World, xs: seq<Entity>, x: Entity)
    requires Tied(w) && x in xs
    ensures Tied(RemoveBeams(w, xs)) && x !in RemoveBeams(w, xs).entities
    decreases |xs|
  {
    hide Tied;
    var rest, y := xs[..|xs| - 1], xs[|xs| - 1];
    assert xs == rest + [y];
    RemoveBeamsTied(w, rest);
    OneGone(RemoveBeams(w, rest), y);
    if x != y { RemovedIsGone(w, rest, x); }
  }

  lemma {:induction false} RemoveBeamsTied(w: World, xs: seq<Entity>)
    requires Tied(w)
    ensures Tied(RemoveBeams(w, xs))
    decreases |xs|
  {
    hide Tied, RemoveBeam;
    if xs != [] {
      RemoveBeamsTied(w, xs[..|xs| - 1]);
      RemoveBeamKeeps(RemoveBeams(w, xs[..|xs| - 1]), xs[|xs| - 1]);
    }
  }

  lemma OneGone(w: World, x: Entity)
    requires Tied(w)
    ensures Tied(RemoveBeam(w, x)) && x !in RemoveBeam(w, x).entities
    ensures RemoveBeam(w, x).entities.Keys <= w.entities.Keys
  {
    hide WithoutMember, WithoutClient;
    if x in w.net.byEntity { NameOf(w, x); }
    hide Tied;
    RemoveBeamKeeps(w, x);
  }

  lemma {:induction false} SpentAges(w: World, beams: seq<Entity>, targets: seq<Entity>, b: Entity)
    requires Distinct(beams) && IsBeam(w, b) && b in beams && Flying(w, b)
    ensures var w' := BeamAll(w, beams, targets);
            b in w'.entities && w'.entities[b].gear.beam == Some(OneTickOlder(w.entities[b].gear.beam.value))
    decreases |beams|
  {
    hide HitPools, CanHit, IsSpent, Flying;
    var rest, x := beams[..|beams| - 1], beams[|beams| - 1];
    assert beams == rest + [x];
    var w1 := BeamAll(w, rest, targets);
    if x == b {
      LaterSame(w, rest, targets, b);
      ChoiceSame(w, w1, b, targets);
      SpentOrFlying(w, b);
      BeamKept(w, rest, targets, b);
      OwnAge(w1, b, targets);
    } else {
      SpentAges(w, rest, targets, b);
      OtherBeam(w1, b, x, targets);
    }
  }

  function OneTickOlder(m: BeamMarker): BeamMarker
    requires m.lifetime > 0
  {
    m.(lifetime := m.lifetime - 1)
  }

  lemma OwnAge(w: World, b: Entity, targets: seq<Entity>)
    requires IsBeam(w, b) && !IsSpent(w, b)
    ensures var w' := BeamOne(w, b, targets);
            && w.entities[b].gear.beam.value.lifetime > 0
            && b in w'.entities && w'.entities[b].gear.beam == Some(OneTickOlder(w.entities[b].gear.beam.value))
  {
    hide HitPools, DistanceSquared;
  }

  /** A named beam outlives the beam stage exactly when it has life and range left, strikes nothing and
      is not itself shot to pieces; it is then one tick older. */
  lemma BeamFate(w: World, i: Inputs, b: Entity)
    requires Homed(w) && Distinct(i.beams) && b in i.beams && IsBeam(w, b) && b in w.net.byEntity
    ensures b in BeamStage(w, i).entities <==>
              && Flying(w, b) && (forall t :: !Strikes(w, b, i.targets, t))
              && !Lethal(w.entities[b].pools, Hits(w, i.beams, i.targets, b))
    ensures b in BeamStage(w, i).entities ==>
              Flying(w, b) && BeamStage(w, i).entities[b].gear.beam == Some(OneTickOlder(w.entities[b].gear.beam.value))
  {
    hide Homed, BeamAll, Killed, Spent, TerminateAll, RemoveBeams, Hits, Lethal, Strikes, Flying, Tied;
    var w1, killed := BeamAll(w, i.beams, i.targets), Killed(w, i.beams, i.targets);
    HomedBounded(w);
    KilledIff(w, i.beams, i.targets, b);
    SpentIff(w, i.beams, i.targets, b);
    BeamsRetouch(w, i.beams, i.targets);
    RetouchedTied(w, w1);
    RemovedBeams(w, i);
    HomedKills(w, i);
    BeamsStay(w, i.beams, i.targets);
    TerminateAllTied(w1, killed);
    if b in killed {
      RespawnRuns.TerminatedIsGone(w1, killed, b);
    } else {
      TerminateAllNames(w1, killed, b);
      if b in Spent(w, i.beams, i.targets) {
        RemovedIsGone(TerminateAll(w1, killed), Spent(w, i.beams, i.targets), b);
      } else {
        SpentAges(w, i.beams, i.targets, b);
        NamedSurvives(TerminateAll(w1, killed), Spent(w, i.beams, i.targets), b);
      }
    }
  }

  // ---- Over a whole call ---------------------------------------------------

  lemma MovePools(w: World, moved: map<Entity, Position>, e: Entity)
    ensures KeepsPart(PoolPart, w, MoveAll(w, moved), e)
  {}

  lemma EnclosePools(w: World, e: Entity)
    ensures KeepsPart(PoolPart, w, EncloseAll(w), e)
  {
    hide BoundsFor, WrapPosition;
  }

  lemma TogglePools(w: World, e: Entity)
    ensures KeepsPart(PoolPart, w, ToggleAll(w), e)
  {
    hide ToggleBeam;
  }

  lemma DisablePools(w: World, i: Inputs, e: Entity)
    ensures KeepsPart(PoolPart, w, DisableAll(w, i.extractors, i.sqrt), e)
  {
    hide Validate;
  }

  lemma OpeningPools(w: World, i: Inputs, e: Entity)
    ensures KeepsPart(PoolPart, w, DisableAll(InputStage(w, i), i.extractors, i.sqrt), e)
  {
    hide MoveAll, EncloseAll, ToggleAll, DisableAll, SamePart, Wears;
    var w1 := MoveAll(w, i.moved);
    var w2 := EncloseAll(w1);
    var w3 := InputStage(w, i);
    MovePools(w, i.moved, e);
    EnclosePools(w1, e);
    TogglePools(w2, e);
    DisablePools(w3, i, e);
    Chain(PoolPart, w, w1, w2, e);
    Chain(PoolPart, w, w2, w3, e);
    Chain(PoolPart, w, w3, DisableAll(w3, i.extractors, i.sqrt), e);
  }

  /** Up to the beams nothing touches the pools. */
  lemma CollectionPools(w: World, i: Inputs, e: Entity)
    ensures KeepsPart(PoolPart, w, ThroughCollection(w, i), e)
  {
    hide InputStage, DisableAll, Transfers, TransferAll, ExhaustStage, CollectStage, SamePart, Wears;
    var w1 := InputStage(w, i);
    var w2 := DisableAll(w1, i.extractors, i.sqrt);
    var w3 := ExtractStage(w1, i);
    OpeningPools(w, i, e);
    TransfersFrame(PoolPart, w2, Transfers(w1, i.extractors, i.sqrt), e);
    ExhaustFrame(PoolPart, w3, i, e);
    CollectFrame(PoolPart, ExhaustStage(w3, i), i, e);
    Chain(PoolPart, w, w2, w3, e);
    Chain(PoolPart, w, w3, ExhaustStage(w3, i), e);
    Chain(PoolPart, w, ExhaustStage(w3, i), ThroughCollection(w, i), e);
  }

  /** One tick of regeneration: the wait first, then one point up to the maximum. */
  function Mended(p: Pools): Pools {
    if p.priority.None? || p.regen.None? then p
    else if p.regen.value > 0 then p.(regen := Some(p.regen.value - 1))
    else p.(priority := Some(p.priority.value.(
              current := if p.priority.value.current < p.priority.value.max then p.priority.value.current + 1
                         else p.priority.value.current)))
  }

  lemma RegeneratePools(w: World, e: Entity)
    requires e in w.entities
    ensures e in RegenerateAll(w).entities && RegenerateAll(w).entities[e].pools == Mended(w.entities[e].pools)
  {}

  lemma LaterPools(w: World, i: Inputs, e: Entity)
    ensures KeepsPart(PoolPart, BeforeReinit(w, i), Simulate(w, i), e)
  {
    hide ThroughCollection, BeamStage, ShootAll, RegenerateAll, ReinitStage, RespawnStage, SamePart, Wears;
    ReinitFrame(PoolPart, BeforeReinit(w, i), i, e);
    RespawnFrame(PoolPart, ReinitStage(BeforeReinit(w, i), i), i, e);
    Chain(PoolPart, BeforeReinit(w, i), ReinitStage(BeforeReinit(w, i), i), Simulate(w, i), e);
  }

  lemma ShotPools(w: World, i: Inputs, e: Entity)
    requires e < w.net.nextEntity && e in RegenerateAll(ShootAll(w, i.shots)).entities
    ensures e in w.entities && RegenerateAll(ShootAll(w, i.shots)).entities[e].pools == Mended(w.entities[e].pools)
  {
    hide ShootAll, Mended;
    ShotsFrame(PoolPart, w, i.shots, e);
    assert e in ShootAll(w, i.shots).entities;
    RegeneratePools(ShootAll(w, i.shots), e);
  }

  /** A named entity that lives through a whole call has lost 25 for each beam that struck it, and then
      regenerated by one tick. */
  lemma CallPools(w: World, i: Inputs, e: Entity)
    requires Homed(w) && Distinct(i.beams) && e in w.entities && e in Simulate(w, i).entities
    requires var w4 := ThroughCollection(w, i);
             e in w4.net.byEntity && e in w4.entities && w4.entities[e].gear.beam.None?
    ensures var n := Hits(ThroughCollection(w, i), i.beams, i.targets, e);
            Simulate(w, i).entities[e].pools == Mended(Struck(w.entities[e].pools, n))
  {
    hide Homed, ThroughCollection, BeamStage, Simulate, Hits, Lethal, Struck, Mended, ShootAll, RegenerateAll, Tied;
    var w4 := ThroughCollection(w, i);
    HomedBounded(w);
    CollectionHomed(w, i);
    CollectionPools(w, i, e);
    LaterPools(w, i, e);
    StagesGrow(w, i);
    DiesIff(w4, i, e);
    ShotPools(BeamStage(w4, i), i, e);
  }

  lemma StagesGrow(w: World, i: Inputs)
    requires Homed(w)
    ensures var w5 := BeamStage(ThroughCollection(w, i), i);
            w.net.nextEntity <= w5.net.nextEntity <= BeforeReinit(w, i).net.nextEntity
  {
    hide Homed, ThroughCollection, BeamStage, ShootAll, SamePart, Wears;
    HomedBounded(w);
    RespawnRuns.BeamStageAges(w, i);
    ShotsFrame(PlacePart, BeamStage(ThroughCollection(w, i), i), i.shots, 0);
  }
}
