/** The one-hour idle window of a session. The service refreshes a session's activity only on
    some ticks; the reference refreshes it on every successful check. */
module IdleWindow {
  import opened Ecs

  type Byte = x: int | 0 <= x < 0x100

  /** Token identifiers, as bytes. */
  type Jti = seq<Byte>

  type Activity = map<Jti, int>

  const IDLE: int := 3600
  const PERIOD: nat := 60
  const U64_LIMIT: nat := 0x1_0000_0000_0000_0000
  const ADMIN: Jti := [97, 100, 109, 105, 110]

  /** The wrapping sum of the identifier's bytes. */
  function Jitter(jti: Jti): (r: nat)
    ensures r < U64_LIMIT
  {
    if jti == [] then 0 else (Jitter(jti[..|jti| - 1]) + jti[|jti| - 1]) % U64_LIMIT
  }

  function Sum(jti: Jti): nat {
    if jti == [] then 0 else jti[0] + Sum(jti[1..])
  }

  lemma {:induction false} SumSnoc(jti: Jti, b: Byte)
    ensures Sum(jti + [b]) == Sum(jti) + b
    decreases |jti|
  {
    if jti == [] {
      assert (jti + [b])[1..] == [];
    } else {
      SumSnoc(jti[1..], b);
      assert (jti + [b])[1..] == jti[1..] + [b];
    }
  }

  /** The jitter is the sum of the bytes, wrapped around to 64 bits. */
  lemma {:induction false} JitterSums(jti: Jti)
    ensures Jitter(jti) == Sum(jti) % 0x1_0000_0000_0000_0000
    decreases |jti|
  {
    if jti != [] {
      var rest, b := jti[..|jti| - 1], jti[|jti| - 1];
      JitterSums(rest);
      SumSnoc(rest, b);
      assert jti == rest + [b];
      WrapAdds(Sum(rest), b);
    }
  }

  lemma WrapAdds(a: nat, b: nat)
    ensures (a % U64_LIMIT + b) % U64_LIMIT == (a + b) % U64_LIMIT
  {
    var q, x := a / U64_LIMIT, a % U64_LIMIT + b;
    var p, r := x / U64_LIMIT, x % U64_LIMIT;
    assert a + b == U64_LIMIT * q + x == U64_LIMIT * (q + p) + r;
    WrapOf(q + p, r);
  }

  predicate Refreshes(jti: Jti, tick: Option<nat>) {
    tick.None? || (tick.value + Jitter(jti)) % U64_LIMIT % PERIOD == 0
  }

  predicate Authorized(a: Activity, jti: Jti, now: int) {
    jti in a && now - a[jti] <= IDLE
  }

  datatype Op =
    | Check(jti: Jti, tick: Option<nat>, now: int)
    | Mint(jti: Jti, now: int)
    | Logout(jti: Jti, now: int)
    | Refresh(jti: Jti, renewed: Jti, now: int)

  /** The identifier a refresh mints: an administrator keeps theirs. */
  function Renewed(jti: Jti, renewed: Jti): Jti {
    if jti == ADMIN then ADMIN else renewed
  }

  /** One operation; with `always` every successful check refreshes. */
  function Step(a: Activity, op: Op, always: bool): Activity {
    match op
    case Check(jti, tick, now) =>
      if Authorized(a, jti, now) && (always || Refreshes(jti, tick)) then a[jti := now] else a
    case Mint(jti, now) => a[jti := now]
    case Logout(jti, _) => a - {jti}
    case Refresh(jti, renewed, now) =>
      if Authorized(a, jti, now) then (a - {jti})[Renewed(jti, renewed) := now] else a
  }

  predicate Answer(a: Activity, op: Op) {
    match op
    case Check(jti, _, now) => Authorized(a, jti, now)
    case Refresh(jti, _, now) => Authorized(a, jti, now)
    case _ => true
  }

  function After(a: Activity, ops: seq<Op>, always: bool): Activity
    decreases |ops|
  {
    if ops == [] then a else After(Step(a, ops[0], always), ops[1..], always)
  }

  function Answers(a: Activity, ops: seq<Op>, always: bool): (r: seq<bool>)
    ensures |r| == |ops|
    decreases |ops|
  {
    if ops == [] then [] else [Answer(a, ops[0])] + Answers(Step(a, ops[0], always), ops[1..], always)
  }

  predicate Timed(ops: seq<Op>, t0: int) {
    ops == [] || (t0 <= ops[0].now && Timed(ops[1..], ops[0].now))
  }

  // ---- Coalescing is sound -------------------------------------------------

  /** Everything recorded lies in the past. */
  ghost predicate Past(a: Activity, now: int) {
    forall j | j in a :: a[j] <= now
  }

  /** What the service still authorises, the reference has refreshed no earlier. */
  ghost predicate Lags(a: Activity, exact: Activity, now: int) {
    forall j | j in a :: now - a[j] > IDLE || (j in exact && a[j] <= exact[j])
  }

  lemma StepLags(a: Activity, exact: Activity, op: Op, t0: int)
    requires Past(a, t0) && Lags(a, exact, t0) && t0 <= op.now
    ensures Answer(a, op) ==> Answer(exact, op)
    ensures Past(Step(a, op, false), op.now) && Lags(Step(a, op, false), Step(exact, op, true), op.now)
  {}

  /** Whatever the operations, the coalesced check authorises only what the sliding window that
      is refreshed every time would authorise. */
  lemma {:induction false} CoalescingSound(a: Activity, exact: Activity, ops: seq<Op>, t0: int)
    requires Past(a, t0) && Lags(a, exact, t0) && Timed(ops, t0)
    ensures forall i | 0 <= i < |ops| :: Answers(a, ops, false)[i] ==> Answers(exact, ops, true)[i]
    decreases |ops|
  {
    if ops != [] {
      var op := ops[0];
      StepLags(a, exact, op, t0);
      CoalescingSound(Step(a, op, false), Step(exact, op, true), ops[1..], op.now);
    }
  }

  // ---- Denied stays denied -------------------------------------------------

  /** The operation may put `jti` into the activity map. */
  predicate Mints(op: Op, jti: Jti) {
    (op.Mint? && op.jti == jti) || (op.Refresh? && Renewed(op.jti, op.renewed) == jti)
  }

  /** Once denied, a session is denied for the rest of every run that does not mint it again. */
  lemma {:induction false} DeniedStaysDenied(a: Activity, ops: seq<Op>, jti: Jti, t0: int, always: bool)
    requires !Authorized(a, jti, t0) && Timed(ops, t0)
    requires forall i | 0 <= i < |ops| :: !Mints(ops[i], jti)
    ensures forall i | 0 <= i < |ops| && !ops[i].Mint? && !ops[i].Logout? && ops[i].jti == jti ::
            !Answers(a, ops, always)[i]
    decreases |ops|
  {
    if ops != [] {
      assert !Mints(ops[0], jti);
      forall i | 0 <= i < |ops| - 1
        ensures !Mints(ops[1..][i], jti)
      {
        assert ops[1..][i] == ops[i + 1];
      }
      DeniedStaysDenied(Step(a, ops[0], always), ops[1..], jti, ops[0].now, always);
      assert forall i | 1 <= i < |ops| :: ops[i] == ops[1..][i - 1];
    }
  }

  // ---- The life of a session ------------------------------------------------

  /** The operation asks whether `jti` is still a session. */
  predicate Asks(op: Op, jti: Jti) {
    (op.Check? || op.Refresh?) && op.jti == jti
  }

  /** The operation makes `jti` a session: by minting it, or in exchange for another, where only the
      administrator's is exchanged for itself. */
  predicate Grants(op: Op, jti: Jti) {
    match op
    case Mint(j, _) => j == jti
    case Refresh(j, renewed, _) => if j == [97, 100, 109, 105, 110] then jti == j else jti == renewed
    case _ => false
  }

  /** The operation ends the session `jti`: a logout, or its exchange for another. */
  predicate Ends(op: Op, jti: Jti) {
    op.jti == jti && (op.Logout? || op.Refresh?) && !Grants(op, jti)
  }

  lemma {:induction false} DeniedUntil(a: Activity, ops: seq<Op>, jti: Jti, t0: int, always: bool, k: nat)
    requires !Authorized(a, jti, t0) && Timed(ops, t0) && k < |ops| && Asks(ops[k], jti)
    requires forall i | 0 <= i < k :: !Grants(ops[i], jti)
    ensures !Answers(a, ops, always)[k]
    decreases |ops|
  {
    if k > 0 {
      assert !Grants(ops[0], jti);
      assert forall i | 0 <= i < k - 1 :: ops[1..][i] == ops[i + 1];
      DeniedUntil(Step(a, ops[0], always), ops[1..], jti, ops[0].now, always, k - 1);
    }
  }

  /** After a logout, or after its exchange, every question about a session is answered with no until
      some operation grants it again. */
  lemma {:induction false} EndedIsDenied(a: Activity, ops: seq<Op>, jti: Jti, t0: int, always: bool, i: nat, k: nat)
    requires Timed(ops, t0) && i < k < |ops| && Ends(ops[i], jti) && Asks(ops[k], jti)
    requires forall m | i < m < k :: !Grants(ops[m], jti)
    ensures !Answers(a, ops, always)[k]
    decreases i
  {
    var a', rest := Step(a, ops[0], always), ops[1..];
    assert rest[k - 1] == ops[k] && forall m | 0 <= m < |rest| :: rest[m] == ops[m + 1];
    if i == 0 {
      assert forall m | 0 <= m < k - 1 :: !Grants(rest[m], jti);
      DeniedUntil(a', rest, jti, ops[0].now, always, k - 1);
    } else {
      assert rest[i - 1] == ops[i];
      EndedIsDenied(a', rest, jti, ops[0].now, always, i - 1, k - 1);
    }
  }

  lemma {:induction false} GrantedUntil(a: Activity, ops: seq<Op>, jti: Jti, t: int, t0: int, always: bool, k: nat)
    requires jti in a && t <= a[jti] && t <= t0 && Timed(ops, t0) && k < |ops| && Asks(ops[k], jti)
    requires ops[k].now - t <= 3600 && forall m | 0 <= m < k :: !Ends(ops[m], jti)
    ensures Answers(a, ops, always)[k]
    decreases |ops|
  {
    if k > 0 {
      assert !Ends(ops[0], jti);
      assert forall m | 0 <= m < k - 1 :: ops[1..][m] == ops[m + 1];
      GrantedUntil(Step(a, ops[0], always), ops[1..], jti, t, ops[0].now, always, k - 1);
    }
  }

  /** Once granted, a session is authorised for an hour, whatever is asked meanwhile, unless it ends. */
  lemma {:induction false} GrantedLives(a: Activity, ops: seq<Op>, jti: Jti, t0: int, always: bool, i: nat, k: nat)
    requires Timed(ops, t0) && i < k < |ops| && Grants(ops[i], jti) && Answers(a, ops, always)[i] && Asks(ops[k], jti)
    requires ops[k].now - ops[i].now <= 3600 && forall m | i < m < k :: !Ends(ops[m], jti)
    ensures Answers(a, ops, always)[k]
    decreases i
  {
    var a', rest := Step(a, ops[0], always), ops[1..];
    assert rest[k - 1] == ops[k] && forall m | 0 <= m < |rest| :: rest[m] == ops[m + 1];
    if i == 0 {
      GrantedUntil(a', rest, jti, ops[0].now, ops[0].now, always, k - 1);
    } else {
      GrantedLives(a', rest, jti, ops[0].now, always, i - 1, k - 1);
    }
  }

  /** And left alone it is authorised no longer than that. */
  lemma {:induction false} GrantedExpires(a: Activity, ops: seq<Op>, jti: Jti, t0: int, always: bool, i: nat, k: nat)
    requires Timed(ops, t0) && i < k < |ops| && Grants(ops[i], jti) && Answers(a, ops, always)[i] && Asks(ops[k], jti)
    requires ops[k].now - ops[i].now > 3600
    requires forall m | i < m < k :: ops[m].jti != jti && !Grants(ops[m], jti)
    ensures !Answers(a, ops, always)[k]
    decreases i
  {
    var a', rest := Step(a, ops[0], always), ops[1..];
    assert rest[k - 1] == ops[k] && forall m | 0 <= m < |rest| :: rest[m] == ops[m + 1];
    if i == 0 {
      assert forall m | 0 <= m < k - 1 :: rest[m].jti != jti && !Grants(rest[m], jti);
      SilentUntil(a', rest, jti, always, k - 1);
    } else {
      GrantedExpires(a', rest, jti, ops[0].now, always, i - 1, k - 1);
    }
  }

  lemma {:induction false} SilentUntil(a: Activity, ops: seq<Op>, jti: Jti, always: bool, k: nat)
    requires jti in a && k < |ops| && Asks(ops[k], jti) && ops[k].now - a[jti] > 3600
    requires forall m | 0 <= m < k :: ops[m].jti != jti && !Grants(ops[m], jti)
    ensures !Answers(a, ops, always)[k]
    decreases |ops|
  {
    if k > 0 {
      assert ops[0].jti != jti && !Grants(ops[0], jti);
      assert forall m | 0 <= m < k - 1 :: ops[1..][m] == ops[m + 1];
      SilentUntil(Step(a, ops[0], always), ops[1..], jti, always, k - 1);
    }
  }

  // ---- How stale the recorded activity can be -------------------------------

  /** The offset, below the period, of the next refreshing tick. */
  function NextRefresh(jti: Jti, tick: nat): (d: nat)
    ensures d < PERIOD
  {
    (PERIOD - (tick + Jitter(jti)) % U64_LIMIT % PERIOD) % PERIOD
  }

  lemma PeriodArithmetic(s: nat, d: nat)
    requires d < 60
    ensures (s + d) % 60 == 0 <==> d == (60 - s % 60) % 60
  {
    var q, r := s / 60, s % 60;
    assert s == 60 * q + r;
    assert (s + d) % 60 == (r + d) % 60;
  }

  /** Of 60 consecutive ticks that do not wrap, exactly one refreshes the session. */
  lemma OneRefreshPerPeriod(jti: Jti, tick: nat, d: nat)
    requires (tick + Jitter(jti)) % U64_LIMIT + PERIOD <= U64_LIMIT && d < PERIOD
    ensures Refreshes(jti, Some(tick + d)) <==> d == NextRefresh(jti, tick)
  {
    var s := (tick + Jitter(jti)) % U64_LIMIT;
    var q := (tick + Jitter(jti)) / U64_LIMIT;
    assert tick + Jitter(jti) == U64_LIMIT * q + s;
    WrapOf(q, s + d);
    PeriodArithmetic(s, d);
  }

  lemma WrapOf(q: nat, s: nat)
    requires s < U64_LIMIT
    ensures (U64_LIMIT * q + s) % U64_LIMIT == s
  {}

  /** The checks of one session on consecutive ticks, at the given times. */
  function Checks(jti: Jti, tick: nat, times: seq<int>): (ops: seq<Op>)
    ensures |ops| == |times|
    decreases |times|
  {
    if times == [] then [] else [Check(jti, Some(tick), times[0])] + Checks(jti, tick + 1, times[1..])
  }

  predicate Ordered(times: seq<int>, t0: int) {
    times == [] || (t0 <= times[0] && Ordered(times[1..], times[0]))
  }

  predicate AllTrue(bs: seq<bool>) {
    forall i | 0 <= i < |bs| :: bs[i]
  }

  lemma {:induction false} ActivityGrows(a: Activity, jti: Jti, tick: nat, times: seq<int>, t0: int)
    requires jti in a && a[jti] <= t0 && Ordered(times, t0)
    ensures jti in After(a, Checks(jti, tick, times), false) && a[jti] <= After(a, Checks(jti, tick, times), false)[jti]
    decreases |times|
  {
    if times != [] {
      var ops := Checks(jti, tick, times);
      assert ops[1..] == Checks(jti, tick + 1, times[1..]);
      ActivityGrows(Step(a, ops[0], false), jti, tick + 1, times[1..], times[0]);
    }
  }

  lemma {:induction false} RefreshReached(a: Activity, jti: Jti, tick: nat, times: seq<int>, t0: int, d: nat)
    requires jti in a && a[jti] <= t0 && Ordered(times, t0) && d < |times| && Refreshes(jti, Some(tick + d))
    requires AllTrue(Answers(a, Checks(jti, tick, times), false))
    ensures jti in After(a, Checks(jti, tick, times), false) && t0 <= After(a, Checks(jti, tick, times), false)[jti]
    decreases d
  {
    var ops := Checks(jti, tick, times);
    var a' := Step(a, ops[0], false);
    assert ops[1..] == Checks(jti, tick + 1, times[1..]);
    assert Answers(a, ops, false)[0];
    assert Answers(a', ops[1..], false) == Answers(a, ops, false)[1..];
    if d == 0 {
      ActivityGrows(a', jti, tick + 1, times[1..], times[0]);
    } else {
      RefreshReached(a', jti, tick + 1, times[1..], times[0], d - 1);
    }
  }

  /** After 60 successful checks on consecutive ticks the recorded activity is no older than the
      first of them: coalescing loses at most one period. */
  lemma StalenessBounded(a: Activity, jti: Jti, tick: nat, times: seq<int>, t0: int)
    requires Past(a, t0) && jti in a && Ordered(times, t0) && |times| == PERIOD
    requires (tick + Jitter(jti)) % U64_LIMIT + PERIOD <= U64_LIMIT
    requires AllTrue(Answers(a, Checks(jti, tick, times), false))
    ensures jti in After(a, Checks(jti, tick, times), false) && t0 <= After(a, Checks(jti, tick, times), false)[jti]
  {
    var d := NextRefresh(jti, tick);
    OneRefreshPerPeriod(jti, tick, d);
    RefreshReached(a, jti, tick, times, t0, d);
  }

  // ---- The scheduler's periodic check --------------------------------------

  /** A check on a tick that is a multiple of 60 refreshes a session exactly when its jitter is. */
  lemma PeriodicRefreshIff(jti: Jti, tick: nat)
    requires tick % 60 == 0 && tick + Jitter(jti) < U64_LIMIT
    ensures Refreshes(jti, Some(tick)) <==> Jitter(jti) % 60 == 0
  {
    hide Jitter;
    SamePhase(tick, Jitter(jti));
    assert (tick + Jitter(jti)) % U64_LIMIT == tick + Jitter(jti);
  }

  lemma SamePhase(tick: nat, j: nat)
    requires tick % 60 == 0
    ensures (tick + j) % 60 == 0 <==> j % 60 == 0
  {
    var q, p := tick / 60, j / 60;
    assert tick == 60 * q && j == 60 * p + j % 60;
    assert tick + j == 60 * (q + p) + j % 60;
  }

  /** The scheduler's periodic checks of one session: only on ticks that are multiples of 60. */
  ghost predicate Periodic(ops: seq<Op>, jti: Jti) {
    forall i | 0 <= i < |ops| ::
      && ops[i].Check? && ops[i].jti == jti && ops[i].tick.Some? && ops[i].tick.value % PERIOD == 0
      && ops[i].tick.value + Jitter(jti) < U64_LIMIT
  }

  /** A session whose jitter is not a multiple of 60 is never refreshed by the periodic check:
      left silent, it is authorised exactly while its last activity is within the hour. */
  lemma {:induction false} SilentSessionExpires(a: Activity, jti: Jti, ops: seq<Op>)
    requires Periodic(ops, jti) && Jitter(jti) % PERIOD != 0
    ensures After(a, ops, false) == a
    ensures forall i | 0 <= i < |ops| :: Answers(a, ops, false)[i] <==> Authorized(a, jti, ops[i].now)
    decreases |ops|
  {
    if ops != [] {
      assert ops[0].Check? && ops[0].jti == jti;
      PeriodicRefreshIff(jti, ops[0].tick.value);
      assert forall i | 0 <= i < |ops[1..]| :: ops[1..][i] == ops[i + 1];
      SilentSessionExpires(a, jti, ops[1..]);
    }
  }

  /** No two successive times, from `last` on, are more than an hour apart. */
  predicate Frequent(ops: seq<Op>, last: int) {
    ops == [] || (ops[0].now - last <= IDLE && Frequent(ops[1..], ops[0].now))
  }

  /** With a jitter that is a multiple of 60 the periodic check alone keeps a session alive, as
      long as no two checks are more than an hour apart. */
  lemma {:induction false} SilentSessionLives(a: Activity, jti: Jti, ops: seq<Op>)
    requires Periodic(ops, jti) && Jitter(jti) % PERIOD == 0 && jti in a
    requires Frequent(ops, a[jti])
    ensures AllTrue(Answers(a, ops, false))
    decreases |ops|
  {
    if ops != [] {
      var op := ops[0];
      assert op.Check? && op.jti == jti;
      PeriodicRefreshIff(jti, op.tick.value);
      var a' := Step(a, op, false);
      assert a' == a[jti := op.now];
      assert forall i | 0 <= i < |ops[1..]| :: ops[1..][i] == ops[i + 1];
      SilentSessionLives(a', jti, ops[1..]);
    }
  }

  // ---- The service ---------------------------------------------------------

  class AetherisAuthService {
    var sessionActivity: Activity

    constructor ()
      ensures sessionActivity == map[]
    {
      sessionActivity := map[];
    }

    method IsSessionAuthorizedWithTick(jti: Jti, tick: Option<nat>, now: int) returns (ok: bool)
      modifies this
      ensures ok == Answer(old(sessionActivity), Check(jti, tick, now))
      ensures sessionActivity == Step(old(sessionActivity), Check(jti, tick, now), false)
    {
      if jti !in sessionActivity {
        return false;
      }
      if now - sessionActivity[jti] > 3600 {
        return false;
      }
      var jitter, i := 0, 0;
      while i < |jti|
        invariant 0 <= i <= |jti| && jitter == Jitter(jti[..i])
      {
        assert jti[..i + 1][..i] == jti[..i];
        jitter := (jitter + jti[i]) % U64_LIMIT;
        i := i + 1;
      }
      assert jti[..i] == jti;
      if tick.None? || (tick.value + jitter) % U64_LIMIT % 60 == 0 {
        sessionActivity := sessionActivity[jti := now];
      }
      ok := true;
    }

    method MintSessionToken(jti: Jti, now: int)
      modifies this
      ensures sessionActivity == Step(old(sessionActivity), Mint(jti, now), false)
    {
      sessionActivity := sessionActivity[jti := now];
    }

    method RevokeSession(jti: Jti, now: int)
      modifies this
      ensures sessionActivity == Step(old(sessionActivity), Logout(jti, now), false)
    {
      sessionActivity := sessionActivity - {jti};
    }

    method RefreshToken(jti: Jti, renewed: Jti, now: int) returns (ok: bool)
      modifies this
      ensures ok == Answer(old(sessionActivity), Refresh(jti, renewed, now))
      ensures sessionActivity == Step(old(sessionActivity), Refresh(jti, renewed, now), false)
    {
      ok := IsSessionAuthorizedWithTick(jti, None, now);
      if !ok {
        return;
      }
      sessionActivity := sessionActivity - {jti};
      var newJti := if jti == ADMIN then ADMIN else renewed;
      MintSessionToken(newJti, now);
    }
  }
}
