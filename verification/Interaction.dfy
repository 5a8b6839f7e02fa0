/** What beams do to pools, who is hit and who collects, and what terminations and shots leave
    behind. */
module Interaction {
  import opened Ecs
  import opened Adapter
  import opened Coherence
  import opened Economy
  import opened Upkeep
  import opened Reals
  import Motion

  // ---- Pools ---------------------------------------------------------------

  function CurrentOf(p: Option<Pool>): nat {
    if p.Some? then p.value.current else 0
  }

  /** The pool behind the priority pool: integrity, or else the shell of a resource. */
  function Inner(p: Pools): Option<Pool> {
    if p.integrity.Some? then p.integrity else p.shell
  }

  function Strength(p: Pools): nat {
    CurrentOf(p.priority) + CurrentOf(Inner(p))
  }

  /** A hit takes 25 from the priority pool first and the rest from the one behind it, never below
      zero, and touches nothing else. */
  lemma HitSpends(p: Pools)
    ensures var q := HitPools(p);
            && CurrentOf(q.priority) == Max(0, CurrentOf(p.priority) - HIT)
            && Strength(q) == (if Inner(p).Some? || CurrentOf(p.priority) >= HIT
                               then Max(0, Strength(p) - HIT) else CurrentOf(Inner(p)))
            && q.priority.Some? == p.priority.Some? && Inner(q).Some? == Inner(p).Some?
            && (p.integrity.Some? ==> q.shell == p.shell) && q.regen == p.regen
  {}

  /** A target with something left behind its priority pool is killed by a hit exactly when all it
      has together is at most that hit. */
  lemma FatalIff(p: Pools)
    requires CurrentOf(Inner(p)) > 0
    ensures Fatal(p) <==> Strength(p) <= HIT
    ensures !Fatal(p) ==> Strength(HitPools(p)) == Strength(p) - HIT && CurrentOf(Inner(HitPools(p))) > 0
  {}

  function HitTimes(p: Pools, n: nat): Pools {
    if n == 0 then p else HitPools(HitTimes(p, n - 1))
  }

  /** So the hit that kills is the one that covers its strength: none of the n before it do. */
  lemma {:induction false} KillingHit(p: Pools, n: nat)
    requires CurrentOf(Inner(p)) > 0 && n * HIT < Strength(p)
    ensures Strength(HitTimes(p, n)) == Strength(p) - n * HIT && CurrentOf(Inner(HitTimes(p, n))) > 0
    ensures Fatal(HitTimes(p, n)) <==> Strength(p) <= (n + 1) * HIT
    decreases n
  {
    if n > 0 {
      KillingHit(p, n - 1);
      FatalIff(HitTimes(p, n - 1));
    }
    FatalIff(HitTimes(p, n));
  }

  function RegenerateTimes(c: Components, n: nat): Components {
    if n == 0 then c else Regenerate(RegenerateTimes(c, n - 1))
  }

  /** A pool waits out its timer and then grows by one a tick up to its maximum. */
  lemma {:induction false} RegenerationIs(c: Components, n: nat)
    requires c.pools.priority.Some? && c.pools.regen.Some?
    requires c.pools.priority.value.current <= c.pools.priority.value.max
    ensures var p, wait, q := c.pools.priority.value, c.pools.regen.value, RegenerateTimes(c, n).pools;
            && q.priority == Some(p.(current := Min(p.max, p.current + Max(0, n - wait))))
            && q.regen == Some(Max(0, wait - n))
    decreases n
  {
    if n > 0 { RegenerationIs(c, n - 1); }
  }

  // ---- Who is chosen -------------------------------------------------------

  /** A beam hits the first target in the query that it can hit. */
  lemma {:induction false} TargetIsFirst(w: World, b: Entity, targets: seq<Entity>)
    requires IsBeam(w, b)
    ensures match FirstTarget(w, b, targets)
      case None => forall t | t in targets :: !CanHit(w, b, t)
      case Some(t) => exists k | 0 <= k < |targets| ::
        targets[k] == t && CanHit(w, b, t) && forall j | 0 <= j < k :: !CanHit(w, b, targets[j])
    decreases |targets|
  {
    hide CanHit;
    if targets != [] {
      var rest, t := targets[..|targets| - 1], targets[|targets| - 1];
      TargetIsFirst(w, b, rest);
      assert targets == rest + [t];
      if FirstTarget(w, b, rest).Some? {
        var t' := FirstTarget(w, b, rest).value;
        var k :| && 0 <= k < |rest| && rest[k] == t' && CanHit(w, b, t')
                 && forall j | 0 <= j < k :: !CanHit(w, b, rest[j]);
        assert targets[k] == t' && forall j | 0 <= j < k :: !CanHit(w, b, targets[j]);
      } else if CanHit(w, b, t) {
        assert forall j | 0 <= j < |rest| :: rest[j] in rest;
        assert targets[|rest|] == t && forall j | 0 <= j < |rest| :: !CanHit(w, b, targets[j]);
      }
    }
  }

  /** A drop goes to the first agent in the query within ten metres that has room. */
  lemma {:induction false} CollectorIsFirst(w: World, d: Entity, agents: seq<Entity>)
    ensures match Collector(w, d, agents)
      case None => forall a | a in agents :: !CanCollect(w, d, a)
      case Some(a) => exists k | 0 <= k < |agents| ::
        agents[k] == a && CanCollect(w, d, a) && forall j | 0 <= j < k :: !CanCollect(w, d, agents[j])
    decreases |agents|
  {
    hide CanCollect;
    if agents != [] {
      var rest, a := agents[..|agents| - 1], agents[|agents| - 1];
      CollectorIsFirst(w, d, rest);
      assert agents == rest + [a];
      if Collector(w, d, rest).Some? {
        var a' := Collector(w, d, rest).value;
        var k :| && 0 <= k < |rest| && rest[k] == a' && CanCollect(w, d, a')
                 && forall j | 0 <= j < k :: !CanCollect(w, d, rest[j]);
        assert agents[k] == a' && forall j | 0 <= j < k :: !CanCollect(w, d, agents[j]);
      } else if CanCollect(w, d, a) {
        assert forall j | 0 <= j < |rest| :: rest[j] in rest;
        assert agents[|rest|] == a && forall j | 0 <= j < |rest| :: !CanCollect(w, d, agents[j]);
      }
    }
  }

  // ---- Where members are ---------------------------------------------------

  predicate Inside(p: Position, b: Bounds) {
    b.min.x <= p.x < b.max.x && b.min.y <= p.y < b.max.y
  }

  /** The whole widths between a coordinate and where it wraps to. */
  function Widths(x: real, lo: real, hi: real): real
    requires lo < hi
  {
    ((x - lo) / (hi - lo)).Floor as real * (hi - lo)
  }

  /** `p` and `q` differ by whole widths and heights. */
  predicate Congruent(p: Position, q: Position, b: Bounds)
    requires b.min.x < b.max.x && b.min.y < b.max.y
  {
    p.x - q.x == Widths(p.x, b.min.x, b.max.x) && p.y - q.y == Widths(p.y, b.min.y, b.max.y)
  }

  lemma AxisInside(x: real, lo: real, hi: real)
    requires lo < hi
    ensures lo <= Motion.WrapAxis(x, lo, hi) < hi && x - Motion.WrapAxis(x, lo, hi) == Widths(x, lo, hi)
    ensures lo <= x < hi ==> Motion.WrapAxis(x, lo, hi) == x
  {
    hide Motion.WrapAxis;
    Motion.WrapInBounds(x, lo, hi);
  }

  lemma WrappedInside(p: Position, b: Bounds)
    requires b.min.x < b.max.x && b.min.y < b.max.y
    ensures Inside(WrapPosition(p, b), b) && Congruent(p, WrapPosition(p, b), b)
    ensures Inside(p, b) ==> WrapPosition(p, b) == p
  {
    hide Motion.WrapAxis, Widths;
    AxisInside(p.x, b.min.x, b.max.x);
    AxisInside(p.y, b.min.y, b.max.y);
  }

  lemma MemberHasBounds(w: World, e: Entity)
    requires Coherent(w) && e in w.entities && w.entities[e].locale.membership.Some?
    ensures BoundsFor(w, w.entities[e].locale.membership.value) == Some(MASTER_BOUNDS)
  {
    var s := ShapesOf(w.entities);
    IndexedClients(s, w.net);
    assert s[e].membership == MasterIn(s, w.net);
    var m := MasterBelowWitness(s, w.net.byEntity, w.net.nextEntity);
    assert Kinded(s[m]) && s[m] == ShapeOf(w.entities[m]);
  }

  /** Wherever physics put it, after the bounds stage every member of a workspace lies inside the
      bounds of that workspace, whole widths and heights away, and not moved if it was inside. */
  lemma MembersInside(w: World, moved: map<Entity, Position>, e: Entity)
    requires Coherent(w) && e in w.entities
    requires w.entities[e].locale.membership.Some? && w.entities[e].locale.position.Some?
    ensures var w1 := MoveAll(w, moved);
            var p, q := w1.entities[e].locale.position, EncloseAll(w1).entities[e].locale.position;
            && p.Some? && q.Some? && Inside(q.value, MASTER_BOUNDS) && Congruent(p.value, q.value, MASTER_BOUNDS)
            && (Inside(p.value, MASTER_BOUNDS) ==> q == p)
  {
    var w1 := MoveAll(w, moved);
    MoveRetouches(w, moved);
    MemberStays(w, moved, e);
    hide Coherent, WrapPosition, Inside, Congruent, MoveAll;
    MemberHasBounds(w1, e);
    WrappedInside(w1.entities[e].locale.position.value, MASTER_BOUNDS);
  }

  lemma MemberStays(w: World, moved: map<Entity, Position>, e: Entity)
    requires Coherent(w) && e in w.entities
    ensures var w1 := MoveAll(w, moved);
            && Coherent(w1) && e in w1.entities && w1.entities[e].locale.membership == w.entities[e].locale.membership
            && w1.entities[e].locale.position.Some? == w.entities[e].locale.position.Some?
  {
    MoveRetouches(w, moved);
    hide Linked, Indexed, AllKinded;
    RetouchedKeeps(w, MoveAll(w, moved));
  }

  // ---- How much is drawn ---------------------------------------------------

  lemma EfficiencyFalls(d: real, d': real, range: real)
    requires range > 0.0 && 0.0 <= d <= d'
    ensures 0.1 <= Efficiency(d', range) <= Efficiency(d, range) <= 1.0
  {
    assert d / range <= d' / range;
    assert 0.0 <= d / range;
  }

  lemma RoundMonotone(x: real, x': real, most: U16)
    requires x' <= x <= most as real
    ensures RoundToU16(x') <= RoundToU16(x) <= most
  {}

  lemma ScaleMonotone(rate: U16, e: real, e': real)
    requires e' <= e <= 1.0
    ensures Scaled(rate, e') <= Scaled(rate, e) <= rate as real
  {
    var r := rate as real;
    Product(r, e - e');
    Product(r, 1.0 - e);
    assert r * e - r * e' == r * (e - e');
    assert r - r * e == r * (1.0 - e);
  }

  /** A beam draws at least one and at most its rate, and no more from farther away. */
  lemma AmountFalls(rate: U16, d: real, d': real, range: real)
    requires range > 0.0 && 0.0 <= d <= d'
    ensures 1 <= BaseAmount(rate, d', range) <= BaseAmount(rate, d, range) <= Max(1, rate)
  {
    EfficiencyFalls(d, d', range);
    hide Efficiency, Scaled, RoundToU16;
    ScaleMonotone(rate, Efficiency(d, range), Efficiency(d', range));
    RoundMonotone(Scaled(rate, Efficiency(d, range)), Scaled(rate, Efficiency(d', range)), rate);
  }

  // ---- What is left behind -------------------------------------------------

  lemma DropParts(at: Position, ws: NetworkId, n: NetworkId)
    ensures var c := Named(KindAt(DATA_DROP, at, ws), n); c.cargo.drop == Some(0) && c.locale.position == Some(at)
  {}

  lemma ShotParts(at: Position, ws: NetworkId, n: NetworkId)
    ensures var c := Named(KindAt(BEAM, at, ws), n);
            c.locale.position == Some(at) && c.gear.beam == Some(BeamMarker(at, 200.0, 0, 300))
  {}

  /** A terminated carrier leaves its payload in a drop where it was. */
  lemma DropLeft(w: World, c: Components)
    requires Tied(w) && c.cargo.store.Some? && c.cargo.store.value.payload > 0
    ensures var w', e := DropPayload(w, c), NewEntity(w);
            && e in w'.entities && w'.entities[e].cargo.drop == Some(c.cargo.store.value.payload)
            && w'.entities[e].locale.position == Some(PositionOr0(c))
  {
    SpawnKindNew(w, DATA_DROP, PositionOr0(c));
    DropParts(PositionOr0(c), HomeOf(w), w.net.nextId);
    hide Tied, SpawnKind, KindAt, NewEntity, HomeOf, Grows;
  }

  /** A shot becomes a beam at its place with its shooter's id and a full life. */
  lemma ShotLeft(w: World, s: Shot)
    requires Tied(w)
    ensures var w', e := Shoot(w, s), NewEntity(w);
            && e in w'.entities && w'.entities[e].gear.beam == Some(BeamMarker(s.at, 200.0, s.owner, 300))
            && w'.entities[e].locale.position == Some(s.at)
  {
    SpawnKindNew(w, BEAM, s.at);
    ShotParts(s.at, HomeOf(w), w.net.nextId);
    hide Tied, SpawnKind, KindAt, NewEntity, HomeOf, Grows;
  }

  // ---- How long a beam lives -----------------------------------------------

  predicate Flies(w: World, b: Entity, lifetime: nat) {
    b in w.entities && w.entities[b].gear.beam.Some? && w.entities[b].gear.beam.value.lifetime == lifetime
  }

  lemma OtherBeam(w: World, b: Entity, x: Entity, targets: seq<Entity>)
    requires b != x && b in w.entities
    ensures var w' := BeamOne(w, x, targets);
            && b in w'.entities
            && w'.entities[b].gear == w.entities[b].gear && w'.entities[b].locale == w.entities[b].locale
  {
    hide CanHit, IsSpent;
  }

  lemma OwnTurn(w: World, b: Entity, targets: seq<Entity>)
    requires IsBeam(w, b)
    ensures Flies(BeamOne(w, b, targets), b,
                  if IsSpent(w, b) then w.entities[b].gear.beam.value.lifetime
                  else w.entities[b].gear.beam.value.lifetime - 1)
  {
    hide HitPools;
  }

  /** In one call a beam either is removed or has one tick less to live, whatever the others do. */
  lemma {:induction false} BeamAges(w: World, beams: seq<Entity>, targets: seq<Entity>, b: Entity)
    requires IsBeam(w, b) && b in beams && forall i, j | 0 <= i < j < |beams| :: beams[i] != beams[j]
    ensures b in Spent(w, beams, targets)
         || (w.entities[b].gear.beam.value.lifetime > 0
             && Flies(BeamAll(w, beams, targets), b, w.entities[b].gear.beam.value.lifetime - 1))
    decreases |beams|
  {
    hide HitPools, CanHit;
    var rest, x := beams[..|beams| - 1], beams[|beams| - 1];
    var w1 := BeamAll(w, rest, targets);
    assert beams == rest + [x];
    if x == b {
      BeamKept(w, rest, targets, b);
      OwnTurn(w1, b, targets);
    } else {
      BeamAges(w, rest, targets, b);
      BeamsStay(w, rest, targets);
      OtherBeam(w1, b, x, targets);
    }
  }

  lemma {:induction false} BeamsStay(w: World, beams: seq<Entity>, targets: seq<Entity>)
    ensures BeamAll(w, beams, targets).entities.Keys == w.entities.Keys
    decreases |beams|
  {
    if beams != [] {
      BeamsStay(w, beams[..|beams| - 1], targets);
      hide HitPools, IsSpent;
      assert BeamAll(w, beams, targets).entities.Keys == BeamAll(w, beams[..|beams| - 1], targets).entities.Keys;
    }
  }

  lemma {:induction false} BeamKept(w: World, beams: seq<Entity>, targets: seq<Entity>, b: Entity)
    requires b in w.entities && b !in beams
    ensures var w' := BeamAll(w, beams, targets);
            && b in w'.entities
            && w'.entities[b].gear == w.entities[b].gear && w'.entities[b].locale == w.entities[b].locale
    decreases |beams|
  {
    if beams != [] {
      var rest, x := beams[..|beams| - 1], beams[|beams| - 1];
      assert beams == rest + [x];
      BeamKept(w, rest, targets, b);
      OtherBeam(BeamAll(w, rest, targets), b, x, targets);
    }
  }
}
