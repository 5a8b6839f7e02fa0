/** Totals over all live entities: the payload held anywhere, the resource slots
    (live resources and pending respawns), and the capacity due to respawn. */
module Totals {
  import opened Ecs

  datatype Measure = Payload | Slots | DueCapacity

  function Weigh(m: Measure, c: Components): int {
    match m
    case Payload =>
      (if c.cargo.store.Some? then c.cargo.store.value.payload else 0)
      + (if c.cargo.resource.Some? then c.cargo.resource.value.remaining else 0)
      + (if c.cargo.drop.Some? then c.cargo.drop.value else 0)
    case Slots =>
      (if c.cargo.resource.Some? then 1 else 0) + (if c.clocks.respawn.Some? then 1 else 0)
    case DueCapacity =>
      if c.clocks.respawn.Some? && c.clocks.respawn.value.remaining <= 1 then c.clocks.respawn.value.capacity else 0
  }

  ghost function Sum(es: map<Entity, Components>, n: nat, m: Measure): int {
    if n == 0 then 0 else Sum(es, n - 1, m) + if n - 1 in es then Weigh(m, es[n - 1]) else 0
  }

  ghost function Total(w: World, m: Measure): int {
    Sum(w.entities, w.net.nextEntity, m)
  }

  ghost function At(es: map<Entity, Components>, e: Entity, m: Measure): int {
    if e in es then Weigh(m, es[e]) else 0
  }

  lemma {:induction false} SumAgree(es: map<Entity, Components>, es': map<Entity, Components>, n: nat, m: Measure)
    requires forall e | 0 <= e < n :: At(es, e, m) == At(es', e, m)
    ensures Sum(es, n, m) == Sum(es', n, m)
  {
    if n > 0 {
      SumAgree(es, es', n - 1, m);
      assert At(es, n - 1, m) == At(es', n - 1, m);
    }
  }

  lemma {:induction false} SumPut(es: map<Entity, Components>, n: nat, m: Measure, e: Entity, c: Components)
    requires e < n
    ensures Sum(es[e := c], n, m) == Sum(es, n, m) - At(es, e, m) + Weigh(m, c)
  {
    hide Weigh;
    if e == n - 1 {
      SumAgree(es, es[e := c], n - 1, m);
    } else {
      SumPut(es, n - 1, m, e, c);
    }
  }

  lemma {:induction false} SumRemove(es: map<Entity, Components>, n: nat, m: Measure, e: Entity)
    requires e < n
    ensures Sum(es - {e}, n, m) == Sum(es, n, m) - At(es, e, m)
  {
    hide Weigh;
    if e == n - 1 {
      SumAgree(es, es - {e}, n - 1, m);
    } else {
      SumRemove(es, n - 1, m, e);
    }
  }

  lemma SumSpawn(es: map<Entity, Components>, n: nat, m: Measure, c: Components)
    ensures Sum(es[n := c], n + 1, m) == Sum(es, n, m) + Weigh(m, c)
  {
    hide Weigh;
    SumAgree(es, es[n := c], n, m);
  }

  /** Rewriting every entity in place keeps a total when it keeps every weight. */
  lemma SumRewritten(es: map<Entity, Components>, es': map<Entity, Components>, n: nat, m: Measure)
    requires es.Keys == es'.Keys
    requires forall e | e in es :: Weigh(m, es'[e]) == Weigh(m, es[e])
    ensures Sum(es, n, m) == Sum(es', n, m)
  {
    hide Weigh;
    forall e | 0 <= e < n ensures At(es, e, m) == At(es', e, m) {
      assert e in es.Keys <==> e in es'.Keys;
    }
    SumAgree(es, es', n, m);
  }
}
