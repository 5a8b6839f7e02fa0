/** The per-address token bucket of the datagram transport. What a bucket allows at a time is
    its level; pruning leaves every later level as it was. */
module TokenBucket {
  import opened Ecs
  import opened Reals

  type Address = nat

  datatype Bucket = Bucket(tokens: real, lastRefill: real)

  type Limits = map<Address, Bucket>

  const IDLE: real := 600.0

  // ---- One bucket ----------------------------------------------------------

  /** The tokens at time `now`; an address without a bucket has a full one. */
  function Level(b: Option<Bucket>, rate: real, now: real): real {
    match b
    case None => rate
    case Some(b) =>
      var t := b.tokens + (now - b.lastRefill) * rate;
      if t <= rate then t else rate
  }

  function Spend(level: real): real {
    if level >= 1.0 then level - 1.0 else level
  }

  function CheckOne(limits: Limits, rate: real, ip: Address, now: real): Limits {
    limits[ip := Bucket(Spend(Level(Get(limits, ip), rate, now)), now)]
  }

  predicate Granted(limits: Limits, rate: real, ip: Address, now: real) {
    Level(Get(limits, ip), rate, now) >= 1.0
  }

  /** Full, and not seen for ten minutes. */
  predicate Prunable(b: Bucket, rate: real, now: real) {
    b.tokens >= rate - 0.1 && now - b.lastRefill > IDLE
  }

  function Pruned(limits: Limits, rate: real, now: real): Limits {
    map ip | ip in limits && !Prunable(limits[ip], rate, now) :: limits[ip]
  }

  // ---- Runs ----------------------------------------------------------------

  datatype Call = Check(ip: Address, at: real) | Prune(at: real)

  function Step(limits: Limits, rate: real, c: Call): Limits {
    match c
    case Check(ip, at) => CheckOne(limits, rate, ip, at)
    case Prune(at) => Pruned(limits, rate, at)
  }

  function After(limits: Limits, rate: real, cs: seq<Call>): Limits
    decreases |cs|
  {
    if cs == [] then limits else After(Step(limits, rate, cs[0]), rate, cs[1..])
  }

  /** The answers to the checks, in order. */
  function Answers(limits: Limits, rate: real, cs: seq<Call>): seq<bool>
    decreases |cs|
  {
    if cs == [] then []
    else
      (if cs[0].Check? then [Granted(limits, rate, cs[0].ip, cs[0].at)] else [])
      + Answers(Step(limits, rate, cs[0]), rate, cs[1..])
  }

  function GrantsTo(limits: Limits, rate: real, cs: seq<Call>, ip: Address): nat
    decreases |cs|
  {
    if cs == [] then 0
    else
      (if cs[0].Check? && cs[0].ip == ip && Granted(limits, rate, ip, cs[0].at) then 1 else 0)
      + GrantsTo(Step(limits, rate, cs[0]), rate, cs[1..], ip)
  }

  /** Calls in time order, from `t0` to `t1`. */
  predicate Timed(cs: seq<Call>, t0: real, t1: real) {
    if cs == [] then t0 <= t1 else t0 <= cs[0].at && Timed(cs[1..], cs[0].at, t1)
  }

  /** Every bucket was refilled by `now` and holds between nothing and the rate. */
  ghost predicate Sane(limits: Limits, rate: real, now: real) {
    forall ip | ip in limits :: 0.0 <= limits[ip].tokens <= rate && limits[ip].lastRefill <= now
  }

  lemma LevelBounds(b: Option<Bucket>, rate: real, now: real)
    requires rate >= 0.0 && (b.Some? ==> 0.0 <= b.value.tokens <= rate && b.value.lastRefill <= now)
    ensures 0.0 <= Level(b, rate, now) <= rate
  {
    if b.Some? { Product(now - b.value.lastRefill, rate); }
  }

  lemma StepSane(limits: Limits, rate: real, now: real, c: Call)
    requires rate >= 0.0 && Sane(limits, rate, now) && now <= c.at
    ensures Sane(Step(limits, rate, c), rate, c.at)
  {
    if c.Check? { LevelBounds(Get(limits, c.ip), rate, c.at); }
    hide Level;
  }

  // ---- The bound -----------------------------------------------------------

  lemma LevelGrows(b: Option<Bucket>, rate: real, t: real, t': real)
    requires rate >= 0.0 && t <= t' && (b.Some? ==> b.value.lastRefill <= t)
    ensures Level(b, rate, t) <= Level(b, rate, t') <= Level(b, rate, t) + (t' - t) * rate
  {
    Product(t' - t, rate);
    if b.Some? {
      assert (t' - b.value.lastRefill) * rate == (t - b.value.lastRefill) * rate + (t' - t) * rate;
    }
  }

  /** A pruned bucket would have been full by then, and from then on. */
  lemma PruneKeepsLevel(limits: Limits, rate: real, now: real, ip: Address, t: real)
    requires rate >= 0.0 && Sane(limits, rate, now) && now <= t
    ensures Level(Get(Pruned(limits, rate, now), ip), rate, t) == Level(Get(limits, ip), rate, t)
  {
    if ip in limits && Prunable(limits[ip], rate, now) {
      var b := limits[ip];
      Product(t - b.lastRefill - 1.0, rate);
      assert (t - b.lastRefill) * rate == (t - b.lastRefill - 1.0) * rate + rate;
    }
  }

  /** One call pays for its grant out of the level. */
  lemma StepPaid(limits: Limits, rate: real, c: Call, ip: Address, t0: real)
    requires rate >= 0.0 && Sane(limits, rate, t0) && t0 <= c.at
    ensures (if c.Check? && c.ip == ip && Granted(limits, rate, ip, c.at) then 1.0 else 0.0)
         + Level(Get(Step(limits, rate, c), ip), rate, c.at) == Level(Get(limits, ip), rate, c.at)
  {
    if c.Prune? {
      SaneLater(limits, rate, t0, c.at);
      PruneKeepsLevel(limits, rate, c.at, ip, c.at);
    } else if c.ip == ip {
      var level := Level(Get(limits, ip), rate, c.at);
      assert level <= rate;
      assert Get(Step(limits, rate, c), ip) == Some(Bucket(Spend(level), c.at));
      assert (c.at - c.at) * rate == 0.0;
    } else {
      assert Get(Step(limits, rate, c), ip) == Get(limits, ip);
    }
  }

  /** In any stretch of time the grants to one address are paid by its level and the refill. */
  lemma {:induction false} GrantsPaid(limits: Limits, rate: real, cs: seq<Call>, ip: Address, t0: real, t1: real)
    requires rate >= 0.0 && Sane(limits, rate, t0) && Timed(cs, t0, t1)
    ensures GrantsTo(limits, rate, cs, ip) as real <= Level(Get(limits, ip), rate, t0) + (t1 - t0) * rate
    decreases |cs|
  {
    if cs == [] {
      LevelBounds(Get(limits, ip), rate, t0);
      Product(t1 - t0, rate);
    } else {
      hide Level, Step, Granted, Sane;
      var t, l' := cs[0].at, Step(limits, rate, cs[0]);
      StepSane(limits, rate, t0, cs[0]);
      GrantsPaid(l', rate, cs[1..], ip, t, t1);
      LevelLater(limits, rate, ip, t0, t);
      StepPaid(limits, rate, cs[0], ip, t0);
      Distribute(t1 - t, t - t0, rate);
    }
  }

  lemma Distribute(x: real, y: real, z: real)
    ensures (x + y) * z == x * z + y * z
  {}

  lemma LevelLater(limits: Limits, rate: real, ip: Address, t: real, t': real)
    requires rate >= 0.0 && Sane(limits, rate, t) && t <= t'
    ensures Level(Get(limits, ip), rate, t') <= Level(Get(limits, ip), rate, t) + (t' - t) * rate
  {
    hide Level;
    LevelGrows(Get(limits, ip), rate, t, t');
  }

  lemma SaneLater(limits: Limits, rate: real, t: real, t': real)
    requires Sane(limits, rate, t) && t <= t'
    ensures Sane(limits, rate, t')
  {}

  /** For every sequence of calls, an address is granted at most rate * (1 + T) checks in a time T. */
  lemma GrantsBounded(limits: Limits, rate: real, cs: seq<Call>, ip: Address, t0: real, t1: real)
    requires rate >= 0.0 && Sane(limits, rate, t0) && Timed(cs, t0, t1)
    ensures GrantsTo(limits, rate, cs, ip) as real <= rate * (1.0 + (t1 - t0))
  {
    GrantsPaid(limits, rate, cs, ip, t0, t1);
    LevelBounds(Get(limits, ip), rate, t0);
    assert rate * (1.0 + (t1 - t0)) == rate + (t1 - t0) * rate;
  }

  // ---- Nobody is refused without need --------------------------------------

  function Checks(cs: seq<Call>, ip: Address): nat {
    if cs == [] then 0 else (if cs[0].Check? && cs[0].ip == ip then 1 else 0) + Checks(cs[1..], ip)
  }

  /** The checks of one address leave time for a token before each of them. */
  predicate Spaced(cs: seq<Call>, ip: Address, rate: real, last: real) {
    cs == [] || if cs[0].Check? && cs[0].ip == ip
                then (cs[0].at - last) * rate >= 1.0 && Spaced(cs[1..], ip, rate, cs[0].at)
                else Spaced(cs[1..], ip, rate, last)
  }

  /** A bucket last spent from by `last`, or pruned, has a token again by `t`. */
  ghost predicate Ready(limits: Limits, rate: real, ip: Address, last: real) {
    forall t: real | last <= t && (t - last) * rate >= 1.0 :: Level(Get(limits, ip), rate, t) >= 1.0
  }

  lemma BucketReady(b: Bucket, rate: real, t: real)
    requires rate >= 1.0 && b.tokens >= 0.0 && (t - b.lastRefill) * rate >= 1.0
    ensures Level(Some(b), rate, t) >= 1.0
  {}

  lemma SpentIsReady(limits: Limits, rate: real, c: Call, now: real)
    requires rate >= 1.0 && Sane(limits, rate, now) && c.Check? && now <= c.at
    ensures Ready(Step(limits, rate, c), rate, c.ip, c.at)
  {
    hide Level;
    LevelBounds(Get(limits, c.ip), rate, c.at);
    var b := Bucket(Spend(Level(Get(limits, c.ip), rate, c.at)), c.at);
    assert Get(Step(limits, rate, c), c.ip) == Some(b);
    forall t: real | c.at <= t && (t - c.at) * rate >= 1.0 ensures Level(Some(b), rate, t) >= 1.0 {
      BucketReady(b, rate, t);
    }
  }

  lemma OtherStepReady(limits: Limits, rate: real, c: Call, ip: Address, last: real, now: real)
    requires rate >= 1.0 && Sane(limits, rate, now) && now <= c.at && Ready(limits, rate, ip, last)
    requires !(c.Check? && c.ip == ip)
    ensures Ready(Step(limits, rate, c), rate, ip, last)
  {
    if c.Prune? {
      var l' := Step(limits, rate, c);
      if ip in l' { assert Get(l', ip) == Get(limits, ip); }
    } else {
      assert Get(Step(limits, rate, c), ip) == Get(limits, ip);
    }
  }

  /** An address that leaves the time of one token before each check is granted every one, whatever
      other addresses do and whenever buckets are pruned. */
  lemma {:induction false} SpacedGranted(
    limits: Limits, rate: real, cs: seq<Call>, ip: Address, last: real, t0: real, t1: real)
    requires rate >= 1.0 && Sane(limits, rate, t0) && Timed(cs, t0, t1) && last <= t0
    requires Ready(limits, rate, ip, last) && Spaced(cs, ip, rate, last)
    ensures GrantsTo(limits, rate, cs, ip) == Checks(cs, ip)
    decreases |cs|
  {
    hide Ready, Sane, Step, Level;
    if cs != [] {
      StepSane(limits, rate, t0, cs[0]);
      if cs[0].Check? && cs[0].ip == ip {
        IsReady(limits, rate, ip, last, cs[0].at);
        SpentIsReady(limits, rate, cs[0], t0);
        SpacedGranted(Step(limits, rate, cs[0]), rate, cs[1..], ip, cs[0].at, cs[0].at, t1);
      } else {
        OtherStepReady(limits, rate, cs[0], ip, last, t0);
        SpacedGranted(Step(limits, rate, cs[0]), rate, cs[1..], ip, last, cs[0].at, t1);
      }
    }
  }

  lemma IsReady(limits: Limits, rate: real, ip: Address, last: real, t: real)
    requires Ready(limits, rate, ip, last) && last <= t && (t - last) * rate >= 1.0
    ensures Granted(limits, rate, ip, t)
  {}

  function Burst(ip: Address, at: real, n: nat): seq<Call> {
    seq(n, _ => Check(ip, at))
  }

  /** Of a burst of checks at one instant a bucket grants as many as it holds whole tokens. */
  lemma {:induction false} BurstGranted(limits: Limits, rate: real, ip: Address, at: real, n: nat)
    requires rate >= 0.0 && Level(Get(limits, ip), rate, at) >= 0.0
    ensures var whole := Level(Get(limits, ip), rate, at).Floor;
            GrantsTo(limits, rate, Burst(ip, at, n), ip) == if n <= whole then n else whole
    decreases n
  {
    if n > 0 {
      var cs, level := Burst(ip, at, n), Level(Get(limits, ip), rate, at);
      assert cs[1..] == Burst(ip, at, n - 1);
      var l' := Step(limits, rate, cs[0]);
      assert Get(l', ip) == Some(Bucket(Spend(level), at));
      assert (at - at) * rate == 0.0;
      assert Level(Get(l', ip), rate, at) == Spend(level);
      BurstGranted(l', rate, ip, at, n - 1);
    }
  }

  /** An address that was never seen may make as many checks at once as the rate says. */
  lemma FirstBurst(rate: nat, ip: Address, at: real, n: nat)
    ensures GrantsTo(map[], rate as real, Burst(ip, at, n), ip) == if n <= rate then n else rate
  {
    BurstGranted(map[], rate as real, ip, at, n);
  }

  // ---- Pruning cannot be observed ------------------------------------------

  /** The same levels at every address from `now` on. */
  ghost predicate SameLevels(l: Limits, l': Limits, rate: real, now: real) {
    forall ip: Address, t: real | now <= t :: Level(Get(l, ip), rate, t) == Level(Get(l', ip), rate, t)
  }

  function WithoutPrunes(cs: seq<Call>): seq<Call> {
    if cs == [] then [] else (if cs[0].Prune? then [] else [cs[0]]) + WithoutPrunes(cs[1..])
  }

  lemma CheckKeepsSame(l: Limits, l': Limits, rate: real, now: real, c: Call)
    requires SameLevels(l, l', rate, now) && c.Check? && now <= c.at
    ensures Granted(l, rate, c.ip, c.at) == Granted(l', rate, c.ip, c.at)
    ensures SameLevels(Step(l, rate, c), Step(l', rate, c), rate, c.at)
  {
    hide Level;
    assert Level(Get(l, c.ip), rate, c.at) == Level(Get(l', c.ip), rate, c.at);
    forall ip: Address, t: real | c.at <= t
      ensures Level(Get(Step(l, rate, c), ip), rate, t) == Level(Get(Step(l', rate, c), ip), rate, t)
    {
      assert ip != c.ip ==> Get(Step(l, rate, c), ip) == Get(l, ip) && Get(Step(l', rate, c), ip) == Get(l', ip);
    }
  }

  lemma {:induction false} SameAnswers(l: Limits, l': Limits, rate: real, cs: seq<Call>, t0: real, t1: real)
    requires rate >= 0.0 && Sane(l, rate, t0) && Sane(l', rate, t0) && SameLevels(l, l', rate, t0) && Timed(cs, t0, t1)
    ensures Answers(l, rate, cs) == Answers(l', rate, WithoutPrunes(cs))
    decreases |cs|
  {
    if cs != [] {
      var c, t := cs[0], cs[0].at;
      StepSane(l, rate, t0, c);
      if c.Prune? {
        SaneLater(l, rate, t0, t);
        SaneLater(l', rate, t0, t);
        forall ip: Address, t': real | t <= t'
          ensures Level(Get(Step(l, rate, c), ip), rate, t') == Level(Get(l', ip), rate, t')
        {
          PruneKeepsLevel(l, rate, t, ip, t');
        }
        SameAnswers(Step(l, rate, c), l', rate, cs[1..], t, t1);
        assert WithoutPrunes(cs) == WithoutPrunes(cs[1..]);
        assert Answers(l, rate, cs) == Answers(Step(l, rate, c), rate, cs[1..]);
      } else {
        StepSane(l', rate, t0, c);
        CheckKeepsSame(l, l', rate, t0, c);
        SameAnswers(Step(l, rate, c), Step(l', rate, c), rate, cs[1..], t, t1);
        var cs' := WithoutPrunes(cs);
        assert cs' == [c] + WithoutPrunes(cs[1..]);
        assert cs'[0] == c && cs'[1..] == WithoutPrunes(cs[1..]);
      }
    }
  }

  /** Interleaving prunes anywhere in a run changes no answer. */
  lemma PruneUnobservable(limits: Limits, rate: real, cs: seq<Call>, t0: real, t1: real)
    requires rate >= 0.0 && Sane(limits, rate, t0) && Timed(cs, t0, t1)
    ensures Answers(limits, rate, cs) == Answers(limits, rate, WithoutPrunes(cs))
  {
    SameAnswers(limits, limits, rate, cs, t0, t1);
  }

  // ---- Nothing is ever pruned ----------------------------------------------

  /** No stored bucket passes the fullness test. */
  ghost predicate NoneFull(limits: Limits, rate: real) {
    forall ip | ip in limits :: limits[ip].tokens < rate - 0.1
  }

  lemma {:induction false} NeverFull(limits: Limits, rate: real, cs: seq<Call>, t0: real, t1: real)
    requires rate >= 1.1 && Sane(limits, rate, t0) && NoneFull(limits, rate) && Timed(cs, t0, t1)
    ensures NoneFull(After(limits, rate, cs), rate)
    ensures forall now: real :: Pruned(After(limits, rate, cs), rate, now) == After(limits, rate, cs)
    decreases |cs|
  {
    if cs != [] {
      StepSane(limits, rate, t0, cs[0]);
      if cs[0].Check? { LevelBounds(Get(limits, cs[0].ip), rate, cs[0].at); }
      NeverFull(Step(limits, rate, cs[0]), rate, cs[1..], cs[0].at, t1);
    }
  }

  /** Exactly the full buckets are pruned that were not used for more than ten minutes. */
  lemma PrunedIff(limits: Limits, rate: real, now: real, ip: Address)
    ensures Get(Pruned(limits, rate, now), ip)
         == if ip in limits && limits[ip].tokens >= rate - 0.1 && now > limits[ip].lastRefill + 600.0 then None
            else Get(limits, ip)
  {}

  /** A prune at `now` after the calls `cs`, made by time `t`, removes some bucket. */
  ghost predicate Fires(rate: real, cs: seq<Call>, t: real, now: real) {
    Timed(cs, 0.0, t) && t <= now && Pruned(After(map[], rate, cs), rate, now) != After(map[], rate, cs)
  }

  ghost predicate CanFire(rate: real) {
    exists cs: seq<Call>, t: real, now: real :: Fires(rate, cs, t, now)
  }

  /** With an integer rate, a prune ever removes a bucket exactly when the rate is below two. */
  lemma PruneFiresIff(rate: nat)
    ensures CanFire(rate as real) <==> rate < 2
  {
    var r := rate as real;
    if rate >= 2 {
      forall cs: seq<Call>, t: real, now: real
        ensures !Fires(r, cs, t, now)
      {
        if Timed(cs, 0.0, t) { NeverFull(map[], r, cs, 0.0, t); }
      }
    } else if rate == 0 {
      PruneFiresAtZero();
    } else {
      PruneFiresAtOne();
    }
  }

  lemma PruneFiresAtZero()
    ensures Fires(0.0, [Check(0, 0.0)], 1.0, 700.0)
  {
    var cs := [Check(0, 0.0)];
    assert cs[1..] == [];
    assert After(map[], 0.0, cs) == Step(map[], 0.0, cs[0]);
    assert 0 in Step(map[], 0.0, cs[0]) && 0 !in Pruned(Step(map[], 0.0, cs[0]), 0.0, 700.0);
  }

  lemma PruneFiresAtOne()
    ensures Fires(1.0, [Check(0, 0.0), Check(0, 0.95)], 1.0, 700.0)
  {
    var cs := [Check(0, 0.0), Check(0, 0.95)];
    var l1 := Step(map[], 1.0, cs[0]);
    var l2 := Step(l1, 1.0, cs[1]);
    assert cs[1..] == [cs[1]] && cs[1..][1..] == [];
    assert After(map[], 1.0, cs) == After(l1, 1.0, cs[1..]) == After(l2, 1.0, []) == l2;
    assert l2[0] == Bucket(0.95, 0.95);
    assert 0 in l2 && 0 !in Pruned(l2, 1.0, 700.0);
    assert Timed(cs[1..][1..], 0.95, 1.0);
  }

  // ---- The limiter ---------------------------------------------------------

  class IpRateLimiter {
    var limits: Limits
    const maxRate: real

    constructor (rate: real)
      ensures limits == map[] && maxRate == rate
    {
      limits, maxRate := map[], rate;
    }

    method CheckAddress(ip: Address, now: real) returns (ok: bool)
      modifies this
      ensures ok == Granted(old(limits), maxRate, ip, now)
      ensures limits == Step(old(limits), maxRate, Check(ip, now))
    {
      var bucket := if ip in limits then limits[ip] else Bucket(maxRate, now);
      var elapsed := now - bucket.lastRefill;
      var tokens := bucket.tokens + elapsed * maxRate;
      if tokens > maxRate {
        tokens := maxRate;
      }
      ok := tokens >= 1.0;
      limits := limits[ip := Bucket(if ok then tokens - 1.0 else tokens, now)];
    }

    method PruneIdle(now: real)
      modifies this
      ensures limits == Step(old(limits), maxRate, Prune(now))
    {
      var rest := limits.Keys;
      while rest != {}
        invariant rest <= limits.Keys
        invariant forall ip | ip in rest :: ip in old(limits)
        invariant forall ip ::
                    ip in limits <==> ip in old(limits) && (ip in rest || !Prunable(old(limits)[ip], maxRate, now))
        invariant forall ip | ip in limits :: limits[ip] == old(limits)[ip]
        decreases rest
      {
        var ip :| ip in rest;
        var bucket := limits[ip];
        if bucket.tokens >= maxRate - 0.1 && now - bucket.lastRefill > IDLE {
          limits := limits - {ip};
        }
        rest := rest - {ip};
      }
    }
  }
}
