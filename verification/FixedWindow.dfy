/** The fixed-window limiters: authentication attempts per e-mail and per address, and telemetry
    requests per address. One model serves all three, because the key names the policy. */
module FixedWindow {
  import opened Ecs

  datatype Key = Email(identity: string) | Ip(identity: string) | Peer(address: nat)

  /** A window opened at `start` that has granted `count` requests. */
  datatype Window = Window(start: real, count: nat)

  type Windows = map<Key, Window>

  function Limit(k: Key): nat {
    match k
    case Email(_) => 5
    case Ip(_) => 30
    case Peer(_) => 60
  }

  function Span(k: Key): real {
    if k.Peer? then 60.0 else 3600.0
  }

  /** The authentication limiter keeps the window at the very instant it ends, telemetry does not. */
  predicate Expired(k: Key, w: Window, now: real) {
    if k.Peer? then now - w.start >= Span(k) else now > w.start + Span(k)
  }

  /** What a sweep removes. */
  predicate Stale(k: Key, w: Window, now: real) {
    if k.Peer? then now - w.start >= 2.0 * Span(k) else w.start + Span(k) <= now
  }

  /** The window a request at `now` falls in. */
  function Current(ws: Windows, k: Key, now: real): Window {
    if k !in ws || Expired(k, ws[k], now) then Window(now, 0) else ws[k]
  }

  predicate Granted(ws: Windows, k: Key, now: real) {
    Current(ws, k, now).count < Limit(k)
  }

  function Checked(ws: Windows, k: Key, now: real): Windows {
    var w := Current(ws, k, now);
    ws[k := if w.count < Limit(k) then w.(count := w.count + 1) else w]
  }

  function Swept(ws: Windows, now: real): Windows {
    map k | k in ws && !Stale(k, ws[k], now) :: ws[k]
  }

  /** A sweep removes exactly the authentication windows that have ended and the telemetry windows that
      ended a window ago. */
  lemma SweptIff(ws: Windows, now: real, k: Key)
    ensures Get(Swept(ws, now), k)
         == if k in ws && (match k
                           case Peer(_) => now >= ws[k].start + 120.0
                           case _ => now >= ws[k].start + 3600.0)
            then None else Get(ws, k)
  {}

  // ---- Runs ----------------------------------------------------------------

  datatype Call = Check(key: Key, at: real) | Sweep(at: real)

  function Step(ws: Windows, c: Call): Windows {
    match c
    case Check(k, at) => Checked(ws, k, at)
    case Sweep(at) => Swept(ws, at)
  }

  function After(ws: Windows, cs: seq<Call>): Windows
    decreases |cs|
  {
    if cs == [] then ws else After(Step(ws, cs[0]), cs[1..])
  }

  function Answers(ws: Windows, cs: seq<Call>): seq<bool>
    decreases |cs|
  {
    if cs == [] then []
    else
      (if cs[0].Check? then [Granted(ws, cs[0].key, cs[0].at)] else []) + Answers(Step(ws, cs[0]), cs[1..])
  }

  function GrantsTo(ws: Windows, cs: seq<Call>, k: Key): nat
    decreases |cs|
  {
    if cs == [] then 0
    else
      (if cs[0].Check? && cs[0].key == k && Granted(ws, k, cs[0].at) then 1 else 0)
      + GrantsTo(Step(ws, cs[0]), cs[1..], k)
  }

  /** Every stored window has granted something and no more than its limit. */
  ghost predicate Sane(ws: Windows) {
    forall k | k in ws :: 1 <= ws[k].count <= Limit(k)
  }

  lemma StepSane(ws: Windows, c: Call)
    requires Sane(ws)
    ensures Sane(Step(ws, c))
  {}

  // ---- The bound -----------------------------------------------------------

  /** Every call falls in [a, b). */
  ghost predicate Within(cs: seq<Call>, a: real, b: real) {
    forall i | 0 <= i < |cs| :: a <= cs[i].at < b
  }

  /** What may still be granted before `a` plus one span: the rest of the open window, and a
      whole further window if the open one began before `a`. */
  function Budget(ws: Windows, k: Key, a: real): int {
    if k !in ws then Limit(k)
    else if ws[k].start < a then 2 * Limit(k) - ws[k].count
    else Limit(k) - ws[k].count
  }

  lemma StepPaid(ws: Windows, c: Call, k: Key, a: real)
    requires Sane(ws) && a <= c.at < a + Span(k)
    ensures Budget(Step(ws, c), k, a)
            + (if c.Check? && c.key == k && Granted(ws, k, c.at) then 1 else 0) <= Budget(ws, k, a)
  {}

  lemma {:induction false} GrantsPaid(ws: Windows, cs: seq<Call>, k: Key, a: real)
    requires Sane(ws) && Within(cs, a, a + Span(k))
    ensures GrantsTo(ws, cs, k) <= Budget(ws, k, a)
    decreases |cs|
  {
    if cs != [] {
      StepSane(ws, cs[0]);
      StepPaid(ws, cs[0], k, a);
      GrantsPaid(Step(ws, cs[0]), cs[1..], k, a);
    }
  }

  /** In every half-open interval of one window length a key is granted less than twice its
      limit, whatever is swept meanwhile. */
  lemma GrantsBounded(ws: Windows, cs: seq<Call>, k: Key, a: real)
    requires Sane(ws) && Within(cs, a, a + Span(k))
    ensures GrantsTo(ws, cs, k) <= 2 * Limit(k) - 1
  {
    GrantsPaid(ws, cs, k, a);
  }

  function Burst(k: Key, at: real, n: nat): seq<Call> {
    if n == 0 then [] else [Check(k, at)] + Burst(k, at, n - 1)
  }

  function Filled(ws: Windows, k: Key, n: nat): Windows
    requires k in ws
  {
    ws[k := Window(ws[k].start, ws[k].count + n)]
  }

  lemma OneMore(ws: Windows, k: Key, at: real)
    requires k in ws && !Expired(k, ws[k], at) && ws[k].count < Limit(k)
    ensures Granted(ws, k, at) && Step(ws, Check(k, at)) == Filled(ws, k, 1)
  {}

  lemma {:induction false} BurstGranted(ws: Windows, k: Key, at: real, n: nat, rest: seq<Call>)
    requires k in ws && !Expired(k, ws[k], at) && ws[k].count + n <= Limit(k)
    ensures GrantsTo(ws, Burst(k, at, n) + rest, k) == n + GrantsTo(Filled(ws, k, n), rest, k)
    decreases n
  {
    hide Granted, Step, Limit;
    var cs := Burst(k, at, n) + rest;
    if n == 0 {
      assert cs == rest && Filled(ws, k, 0) == ws;
    } else {
      var ws' := Filled(ws, k, 1);
      assert cs[0] == Check(k, at) && cs[1..] == Burst(k, at, n - 1) + rest;
      OneMore(ws, k, at);
      BurstGranted(ws', k, at, n - 1, rest);
      assert Filled(ws', k, n - 1) == Filled(ws, k, n);
    }
  }

  /** The calls that reach the bound: one opens the window, the rest of it is used just before it
      ends, and a whole window just after. */
  function Worst(k: Key): seq<Call> {
    Burst(k, Span(k) - 1.0, Limit(k) - 1) + Burst(k, Span(k) + 1.0, Limit(k))
  }

  lemma BoundIsTight(k: Key)
    ensures GrantsTo(Checked(map[], k, 0.0), Worst(k), k) == 2 * Limit(k) - 1
    ensures Within(Worst(k), Span(k) - 1.0, 2.0 * Span(k) - 1.0)
  {
    var ws, n, t := Checked(map[], k, 0.0), Limit(k), Span(k) + 1.0;
    var last := Burst(k, t, n);
    BurstGranted(ws, k, Span(k) - 1.0, n - 1, last);
    FreshBurst(Filled(ws, k, n - 1), k, t);
    BurstAt(k, Span(k) - 1.0, n - 1);
    BurstAt(k, t, n);
  }

  lemma FreshBurst(ws: Windows, k: Key, at: real)
    requires k in ws && Expired(k, ws[k], at)
    ensures GrantsTo(ws, Burst(k, at, Limit(k)), k) == Limit(k)
  {
    var cs := Burst(k, at, Limit(k));
    var ws' := Step(ws, cs[0]);
    BurstGranted(ws', k, at, Limit(k) - 1, []);
    assert cs[0] == Check(k, at) && cs[1..] == Burst(k, at, Limit(k) - 1) + [];
  }

  lemma {:induction false} BurstAt(k: Key, at: real, n: nat)
    ensures |Burst(k, at, n)| == n
    ensures forall i | 0 <= i < n :: Burst(k, at, n)[i] == Check(k, at)
    decreases n
  {
    if n > 0 { BurstAt(k, at, n - 1); }
  }

  // ---- How many --------------------------------------------------------------

  /** Five attempts for an e-mail, thirty for an address, sixty telemetry requests for a peer. */
  function Allowance(k: Key): nat {
    match k
    case Email(_) => 5
    case Ip(_) => 30
    case Peer(_) => 60
  }

  /** An hour, or a minute. */
  function Length(k: Key): real {
    if k.Peer? then 60.0 else 3600.0
  }

  function Attempts(cs: seq<Call>, k: Key): nat
    decreases |cs|
  {
    if cs == [] then 0 else (if cs[0].Check? && cs[0].key == k then 1 else 0) + Attempts(cs[1..], k)
  }

  /** The state for `k` after `n` attempts in a window that is open until `end`. */
  predicate Counted(ws: Windows, k: Key, n: nat, end: real) {
    if n == 0 then k !in ws
    else k in ws && ws[k].count == (if n < Allowance(k) then n else Allowance(k)) && end <= ws[k].start + Length(k)
  }

  lemma StepCounted(ws: Windows, c: Call, k: Key, n: nat, t0: real)
    requires t0 <= c.at < t0 + Length(k) && Counted(ws, k, n, t0 + Length(k))
    ensures Counted(Step(ws, c), k, n + Attempts([c], k), t0 + Length(k))
    ensures c.Check? && c.key == k ==> (Granted(ws, k, c.at) <==> n < Allowance(k))
  {
    assert [c][1..] == [];
  }

  lemma {:induction false} AnswerCounted(ws: Windows, cs: seq<Call>, k: Key, n: nat, t0: real, m: nat)
    requires Within(cs, t0, t0 + Length(k)) && Counted(ws, k, n, t0 + Length(k))
    requires m < |cs| && cs[m].Check? && cs[m].key == k
    ensures Granted(After(ws, cs[..m]), k, cs[m].at) <==> n + Attempts(cs[..m], k) < Allowance(k)
    decreases m
  {
    hide Step, Granted, Counted;
    StepCounted(ws, cs[0], k, n, t0);
    if m > 0 {
      assert cs[..m][0] == cs[0] && cs[..m][1..] == cs[1..][..m - 1] && [cs[0]][1..] == [];
      assert Attempts(cs[..m], k) == Attempts([cs[0]], k) + Attempts(cs[1..][..m - 1], k);
      assert After(ws, cs[..m]) == After(Step(ws, cs[0]), cs[1..][..m - 1]);
      AnswerCounted(Step(ws, cs[0]), cs[1..], k, n + Attempts([cs[0]], k), t0, m - 1);
    } else {
      assert cs[..m] == [];
    }
  }

  /** Of the attempts for a new key within one window length, among whatever other calls, exactly the
      first five, thirty or sixty are granted. */
  lemma FirstGranted(ws: Windows, cs: seq<Call>, k: Key, t0: real, m: nat)
    requires k !in ws && Within(cs, t0, t0 + Length(k)) && m < |cs| && cs[m].Check? && cs[m].key == k
    ensures Granted(After(ws, cs[..m]), k, cs[m].at)
       <==> Attempts(cs[..m], k) < match k case Email(_) => 5 case Ip(_) => 30 case Peer(_) => 60
  {
    AnswerCounted(ws, cs, k, 0, t0, m);
  }

  // ---- What sweeping changes -----------------------------------------------

  predicate Timed(cs: seq<Call>, t0: real) {
    cs == [] || (t0 <= cs[0].at && Timed(cs[1..], cs[0].at))
  }

  /** No authentication check at the very instant of the last sweep before it. */
  predicate Settled(cs: seq<Call>, last: Option<real>)
    decreases |cs|
  {
    cs == [] ||
    match cs[0]
    case Sweep(at) => Settled(cs[1..], Some(at))
    case Check(k, at) => (k.Peer? || last.None? || last.value < at) && Settled(cs[1..], last)
  }

  function WithoutSweeps(cs: seq<Call>): seq<Call> {
    if cs == [] then [] else (if cs[0].Sweep? then [] else [cs[0]]) + WithoutSweeps(cs[1..])
  }

  /** The window would have ended by `last`. */
  predicate Dead(k: Key, w: Window, last: Option<real>) {
    last.Some? && w.start + Span(k) <= last.value
  }

  /** A swept table and one that was not: the missing windows are dead. */
  ghost predicate Alike(ws: Windows, full: Windows, last: Option<real>) {
    && (forall k | k in ws :: k in full && ws[k] == full[k])
    && (forall k | k in full && k !in ws :: Dead(k, full[k], last))
  }

  lemma SweepKeepsAlike(ws: Windows, full: Windows, last: Option<real>, at: real)
    requires Alike(ws, full, last) && (last.Some? ==> last.value <= at)
    ensures Alike(Swept(ws, at), full, Some(at))
  {}

  lemma CheckKeepsAlike(ws: Windows, full: Windows, last: Option<real>, k: Key, at: real)
    requires Alike(ws, full, last) && (last.Some? ==> last.value <= at) && (k.Peer? || last.None? || last.value < at)
    ensures Granted(ws, k, at) == Granted(full, k, at)
    ensures Alike(Checked(ws, k, at), Checked(full, k, at), last)
  {
    assert Current(ws, k, at) == Current(full, k, at);
  }

  lemma {:induction false} SameAnswers(ws: Windows, full: Windows, cs: seq<Call>, t0: real, last: Option<real>)
    requires Alike(ws, full, last) && (last.Some? ==> last.value <= t0) && Timed(cs, t0) && Settled(cs, last)
    ensures Answers(ws, cs) == Answers(full, WithoutSweeps(cs))
    decreases |cs|
  {
    if cs != [] {
      var c := cs[0];
      if c.Sweep? {
        SweepKeepsAlike(ws, full, last, c.at);
        SameAnswers(Step(ws, c), full, cs[1..], c.at, Some(c.at));
        assert WithoutSweeps(cs) == WithoutSweeps(cs[1..]);
      } else {
        CheckKeepsAlike(ws, full, last, c.key, c.at);
        SameAnswers(Step(ws, c), Step(full, c), cs[1..], c.at, last);
        var cs' := WithoutSweeps(cs);
        assert cs' == [c] + WithoutSweeps(cs[1..]);
        assert cs'[0] == c && cs'[1..] == WithoutSweeps(cs[1..]);
      }
    }
  }

  /** Sweeps change no answer of a run in which no authentication check shares its instant with
      the sweep before it; a telemetry run is always such a run. */
  lemma SweepsUnobservable(ws: Windows, cs: seq<Call>, t0: real)
    requires Timed(cs, t0) && Settled(cs, None)
    ensures Answers(ws, cs) == Answers(ws, WithoutSweeps(cs))
  {
    SameAnswers(ws, ws, cs, t0, None);
  }

  lemma {:induction false} TelemetrySettled(cs: seq<Call>, last: Option<real>)
    requires forall i | 0 <= i < |cs| :: cs[i].Check? ==> cs[i].key.Peer?
    ensures Settled(cs, last)
    decreases |cs|
  {
    if cs != [] {
      assert cs[0].Check? ==> cs[0].key.Peer?;
      TelemetrySettled(cs[1..], if cs[0].Sweep? then Some(cs[0].at) else last);
    }
  }

  /** A sweep changes the answer to a check that follows it exactly when both happen at the
      instant an exhausted authentication window ends: the sweep then lets the request through. */
  lemma SweepChangesAnswerIff(ws: Windows, k: Key, at: real, now: real)
    requires Sane(ws) && at <= now
    ensures Granted(Swept(ws, at), k, now) != Granted(ws, k, now)
       <==> k in ws && !k.Peer? && ws[k].count == Limit(k) && at == now == ws[k].start + Span(k)
  {
    assert k in ws && Stale(k, ws[k], at) ==> k !in Swept(ws, at);
    assert k in ws && !Stale(k, ws[k], at) ==> Current(Swept(ws, at), k, now) == Current(ws, k, now);
  }

  lemma {:induction false} BurstFills(ws: Windows, k: Key, at: real, n: nat)
    requires k in ws && !Expired(k, ws[k], at) && ws[k].count + n <= Limit(k)
    ensures After(ws, Burst(k, at, n)) == Filled(ws, k, n)
    decreases n
  {
    hide Granted, Step, Limit;
    if n == 0 {
      assert Filled(ws, k, 0) == ws;
    } else {
      OneMore(ws, k, at);
      BurstFills(Filled(ws, k, 1), k, at, n - 1);
      assert Burst(k, at, n)[1..] == Burst(k, at, n - 1);
      assert Filled(Filled(ws, k, 1), k, n - 1) == Filled(ws, k, n);
    }
  }

  /** It does happen: a key that spent its limit at once is refused when its window ends, and let
      through at that same instant after a sweep. */
  lemma SweepLetsThrough(k: Key)
    requires !k.Peer?
    ensures var ws := After(map[], Burst(k, 0.0, Limit(k)));
            !Granted(ws, k, Span(k)) && Granted(Swept(ws, Span(k)), k, Span(k))
  {
    var cs := Burst(k, 0.0, Limit(k));
    var ws := Checked(map[], k, 0.0);
    assert cs[0] == Check(k, 0.0) && cs[1..] == Burst(k, 0.0, Limit(k) - 1);
    BurstFills(ws, k, 0.0, Limit(k) - 1);
    assert After(map[], cs) == Filled(ws, k, Limit(k) - 1);
  }

  // ---- The authentication limiter ------------------------------------------

  datatype Entry = Entry(count: nat, resetAt: real)

  class InMemoryRateLimiter {
    var state: map<Key, Entry>

    constructor ()
      ensures Model() == map[]
    {
      state := map[];
    }

    /** Entries keep when their window ends rather than when it began. */
    function Model(): Windows
      reads this
    {
      map k | k in state :: Window(state[k].resetAt - 3600.0, state[k].count)
    }

    method CheckLimit(key: Key, now: real) returns (ok: bool)
      requires !key.Peer?
      modifies this
      ensures ok == Granted(old(Model()), key, now)
      ensures Model() == Step(old(Model()), Check(key, now))
    {
      var entry := if key in state then state[key] else Entry(0, now + 3600.0);
      if now > entry.resetAt {
        entry := Entry(0, now + 3600.0);
      }
      var limit := if key.Email? then 5 else 30;
      if entry.count >= limit {
        state := state[key := entry];
        return false;
      }
      entry := entry.(count := entry.count + 1);
      state := state[key := entry];
      ok := true;
    }

    method Cleanup(now: real)
      requires forall k | k in state :: !k.Peer?
      modifies this
      ensures Model() == Step(old(Model()), Sweep(now))
    {
      var rest := state.Keys;
      while rest != {}
        invariant forall k | k in rest :: k in old(state)
        invariant forall k :: k in state <==> k in old(state) && (k in rest || old(state)[k].resetAt > now)
        invariant forall k | k in state :: state[k] == old(state)[k]
        decreases rest
      {
        var k :| k in rest;
        if state[k].resetAt <= now {
          state := state - {k};
        }
        rest := rest - {k};
      }
    }
  }

  // ---- The telemetry limiter -----------------------------------------------

  const PRUNE_THRESHOLD: nat := 1000

  class AetherisTelemetryService {
    var rateLimits: Windows

    constructor ()
      ensures rateLimits == map[]
    {
      rateLimits := map[];
    }

    method PruneExpiredEntries(now: real)
      requires forall k | k in rateLimits :: k.Peer?
      modifies this
      ensures rateLimits == Step(old(rateLimits), Sweep(now))
    {
      var rest := rateLimits.Keys;
      while rest != {}
        invariant forall k | k in rest :: k in old(rateLimits)
        invariant forall k ::
                    k in rateLimits <==> k in old(rateLimits) && (k in rest || now - old(rateLimits)[k].start < 120.0)
        invariant forall k | k in rateLimits :: rateLimits[k] == old(rateLimits)[k]
        decreases rest
      {
        var k :| k in rest;
        if now - rateLimits[k].start >= 120.0 {
          rateLimits := rateLimits - {k};
        }
        rest := rest - {k};
      }
    }

    /** A large table is pruned first, at the clock reading `pruneAt`. */
    method CheckRateLimit(ip: nat, pruneAt: real, now: real) returns (ok: bool)
      requires forall k | k in rateLimits :: k.Peer?
      modifies this
      ensures var sweeps := if |old(rateLimits)| > PRUNE_THRESHOLD then [Sweep(pruneAt)] else [];
              var calls := sweeps + [Check(Peer(ip), now)];
              rateLimits == After(old(rateLimits), calls) && [ok] == Answers(old(rateLimits), calls)
    {
      ghost var before := rateLimits;
      ghost var sweeps := if |rateLimits| > PRUNE_THRESHOLD then [Sweep(pruneAt)] else [];
      if |rateLimits| > PRUNE_THRESHOLD {
        PruneExpiredEntries(pruneAt);
      }
      SweepThenCheck(before, sweeps, Check(Peer(ip), now));
      var key := Peer(ip);
      var entry := if key in rateLimits then rateLimits[key] else Window(now, 0);
      if now - entry.start >= 60.0 {
        rateLimits := rateLimits[key := Window(now, 1)];
        ok := true;
      } else if entry.count < 60 {
        rateLimits := rateLimits[key := entry.(count := entry.count + 1)];
        ok := true;
      } else {
        rateLimits := rateLimits[key := entry];
        ok := false;
      }
    }
  }

  lemma SweepThenCheck(ws: Windows, sweeps: seq<Call>, c: Call)
    requires c.Check? && (sweeps == [] || (|sweeps| == 1 && sweeps[0].Sweep?))
    ensures After(ws, sweeps + [c]) == Step(After(ws, sweeps), c)
    ensures Answers(ws, sweeps + [c]) == [Granted(After(ws, sweeps), c.key, c.at)]
  {
    var cs := sweeps + [c];
    if sweeps == [] {
      assert cs == [c] && cs[1..] == [];
    } else {
      var ws' := Step(ws, sweeps[0]);
      assert sweeps[1..] == [] && After(ws, sweeps) == After(ws', []) == ws';
      assert cs[0] == sweeps[0] && cs[1..] == [c] && [c][1..] == [];
      assert After(ws, cs) == After(ws', [c]) == After(Step(ws', c), []);
      assert Answers(ws, cs) == Answers(ws', [c]) == [Granted(ws', c.key, c.at)] + Answers(Step(ws', c), []);
    }
  }
}
