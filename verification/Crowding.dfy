/** Collection among a crowd of drops: a family of coherent worlds in which the capacity bound and
    the conservation of payload fail. */
module Crowding {
  import opened Ecs
  import opened Adapter
  import opened Coherence
  import opened Economy
  import opened Upkeep
  import opened Totals
  import opened Ledger
  import opened Lineage
  import Interaction
  import Custody

  /** What is left of a carrier with a full store, terminated at the origin. */
  const CARRIER :=
    BARE.(locale := NOWHERE.(position := Some(ORIGIN)), cargo := NO_CARGO.(store := Some(DataStore(500, 500))))

  /** A fresh agent at the origin, where `n` full carriers were terminated. */
  ghost function Heap(n: nat): World {
    if n == 0 then SpawnKind(EMPTY, AGENT, ORIGIN) else DropPayload(Heap(n - 1), CARRIER)
  }

  const COLLECTOR: Entity := 2

  ghost function Drops(n: nat): seq<Entity> {
    seq(n, k requires 0 <= k < n => 3 + k)
  }

  ghost function HeapClaims(n: nat): seq<Claim> {
    seq(n, k requires 0 <= k < n => Claim(COLLECTOR, 3 + k, 500))
  }

  lemma FirstSpawn()
    ensures Homed(Heap(0)) && Heap(0).net.nextEntity == 3 && COLLECTOR in Heap(0).entities
    ensures var c := Heap(0).entities[COLLECTOR];
            c.cargo.store == Some(DataStore(0, 500)) && c.locale.position == Some(ORIGIN)
  {
    EmptyCoherent();
    CoherentIsTied(EMPTY);
    NoMasterYet();
    hide Coherent, Tied, MasterOf, SpawnKind;
    SpawnKindKeeps(EMPTY, AGENT, ORIGIN);
    SpawnKindNew(EMPTY, AGENT, ORIGIN);
    FirstHandle();
    AgentAt(HomeOf(EMPTY), EMPTY.net.nextId);
  }

  lemma EmptyCoherent()
    ensures Coherent(EMPTY)
  {
    hide Coherent, MasterOf, Custody.Sound, Custody.Exclusive, Custody.SparesMaster;
    Custody.Beginnings();
  }

  lemma NoMasterYet()
    ensures MasterOf(EMPTY).None?
  {}

  /** The master workspace and its resource come first. */
  lemma FirstHandle()
    ensures NewEntity(EMPTY) == 2
  {
    NoMasterYet();
    hide MasterOf, KindAt;
    SpawnMasterIsFound(Allocate(EMPTY));
  }

  lemma AgentAt(ws: NetworkId, n: NetworkId)
    ensures var c := Named(KindAt(AGENT, ORIGIN, ws), n);
            c.cargo.store == Some(DataStore(0, 500)) && c.locale.position == Some(ORIGIN)
  {}

  /** The heap is coherent: the agent has an empty store, and each drop holds 500 in reach of it. */
  lemma {:induction false} HeapIs(n: nat)
    ensures var w := Heap(n);
            && Homed(w) && w.net.nextEntity == 3 + n && COLLECTOR in w.entities
            && w.entities[COLLECTOR].cargo.store == Some(DataStore(0, 500))
            && w.entities[COLLECTOR].locale.position == Some(ORIGIN)
            && (forall d | 3 <= d < 3 + n :: d in w.entities && IsHeapDrop(w.entities[d]))
    decreases n
  {
    hide Coherent, Tied, MasterOf, DropPayload, SpawnKind;
    if n == 0 {
      FirstSpawn();
    } else {
      var w := Heap(n - 1);
      HeapIs(n - 1);
      CoherentIsTied(w);
      HandlesBounded(w);
      DropPayloadKeeps(w, CARRIER);
      KeepsHomed(w, Heap(n));
      DropIs(w, CARRIER);
      Interaction.DropLeft(w, CARRIER);
      HomeNext(w);
      hide Keeps, NewEntity;
    }
  }

  predicate IsHeapDrop(c: Components) {
    c.cargo.drop == Some(500) && c.locale.position == Some(ORIGIN)
  }

  lemma HeapReach(w: World, d: Entity)
    requires d != COLLECTOR && d in w.entities && IsHeapDrop(w.entities[d]) && COLLECTOR in w.entities
    requires w.entities[COLLECTOR].cargo.store == Some(DataStore(0, 500))
    requires w.entities[COLLECTOR].locale.position == Some(ORIGIN)
    ensures IsDrop(w, d) && Collector(w, d, [COLLECTOR]) == Some(COLLECTOR)
  {
    assert DistanceSquared(ORIGIN, ORIGIN) == 0.0;
    assert CanCollect(w, d, COLLECTOR);
    hide CanCollect, DistanceSquared;
    assert [COLLECTOR][..0] == [];
  }

  /** Every drop of the heap claims the whole room of the one agent. */
  lemma {:induction false} HeapClaimsAre(n: nat, m: nat)
    requires m <= n
    ensures Claims(Heap(n), Drops(m), [COLLECTOR]) == HeapClaims(m)
    decreases m
  {
    hide Heap, Homed, Collector, IsDrop;
    if m > 0 {
      HeapIs(n);
      HeapClaimsAre(n, m - 1);
      var w, ds := Heap(n), Drops(m);
      assert ds[..m - 1] == Drops(m - 1) && ds[m - 1] == 3 + (m - 1);
      HeapReach(w, 3 + (m - 1));
      assert HeapClaims(m) == HeapClaims(m - 1) + [Claim(COLLECTOR, 3 + (m - 1), 500)];
    }
  }

  lemma {:induction false} HeapClaimed(m: nat, a: Entity)
    ensures ClaimedBy(HeapClaims(m), a) == if a == COLLECTOR then 500 * m else 0
    decreases m
  {
    if m > 0 {
      HeapClaimed(m - 1, a);
      assert HeapClaims(m)[..m - 1] == HeapClaims(m - 1);
    }
  }

  /** Among n such drops the store ends within its capacity exactly when 500 n, wrapped around to 16
      bits, is at most 500. */
  lemma HeapFitsIff(n: nat)
    ensures Homed(Heap(n)) && HasStore(Heap(n), COLLECTOR) && Fits(Heap(n), COLLECTOR)
    ensures Fits(ApplyClaims(Heap(n), Claims(Heap(n), Drops(n), [COLLECTOR])), COLLECTOR) <==> Wrap(500 * n) <= 500
  {
    hide Homed, Heap, Claims, ApplyClaims;
    HeapIs(n);
    HeapClaimsAre(n, n);
    HeapClaimed(n, COLLECTOR);
    CollectionFitsIff(Heap(n), HeapClaims(n), COLLECTOR);
  }

  lemma HeapNoWrapIff(n: nat)
    ensures NoStoreWraps(Heap(n), HeapClaims(n)) ==> 500 * n < U16_LIMIT
  {
    hide Homed, Heap;
    HeapIs(n);
    HeapClaimed(n, COLLECTOR);
    assert HasStore(Heap(n), COLLECTOR);
  }

  /** Two drops are enough to overfill the store. */
  lemma TwoClaimsOverfill()
    ensures var w := Heap(2); var cs := Claims(w, Drops(2), [COLLECTOR]);
            Coherent(w) && Fits(w, COLLECTOR) && !Fits(ApplyClaims(w, cs), COLLECTOR)
  {
    hide Coherent, MasterOf, Heap, Claims, ApplyClaims, Fits;
    HeapFitsIff(2);
  }

  function HeapInputs(n: nat, i: Inputs): Inputs {
    i.(drops := seq(n, k requires 0 <= k < n => 3 + k), agents := [COLLECTOR])
  }

  /** Among 132 of them it wraps: payload is lost, and the store even looks as if all had fitted. */
  lemma ManyClaimsWrap(i: Inputs)
    ensures var w, j := Heap(132), HeapInputs(132, i);
            && Coherent(w) && Distinct(j.drops)
            && Total(CollectStage(w, j), Payload) != Total(w, Payload)
            && Fits(ApplyClaims(w, Claims(w, j.drops, j.agents)), COLLECTOR)
  {
    hide Coherent, MasterOf, Heap, Claims, ApplyClaims, Fits, CollectStage, Total, NoStoreWraps;
    HeapFitsIff(132);
    HeapClaimsAre(132, 132);
    HeapNoWrapIff(132);
    CollectionConservesIff(Heap(132), HeapInputs(132, i));
  }
}
