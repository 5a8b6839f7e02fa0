/** Replication of the real world: what the stages of a server run do to the adapter is always
    something the extraction keeps up with, so replicas follow the adapter through whole runs of
    the scheduler, failed polls included. Which components of an entity are replicated, and how
    they are encoded, is a parameter. */
module Mirroring {
  import opened Ecs
  import opened Coherence
  import opened Updates
  import opened Session
  import opened Custody
  import opened Upkeep
  import opened Frames
  import opened Steering
  import opened Scheduler
  import R = Replication

  type Encoding = Components -> map<R.Kind, R.Payload>

  /** What is replicated depends on which components an entity has: more components, more kinds. */
  ghost predicate Monotone(encode: Encoding) {
    forall c, c' :: Wears(c, c') ==> encode(c).Keys <= encode(c').Keys
  }

  /** The components that the entity known as `n` shows to replicas. */
  function ShownBy(w: World, encode: Encoding, n: NetworkId): map<R.Kind, R.Payload> {
    if n in w.net.byId && w.net.byId[n] in w.entities then encode(w.entities[w.net.byId[n]]) else map[]
  }

  function Shown(w: World, encode: Encoding, k: R.Key): Option<R.Payload> {
    Get(ShownBy(w, encode, k.id), k.kind)
  }

  /** The replicated store is the adapter's world. */
  ghost predicate Shows(s: R.Server, w: World, encode: Encoding) {
    && s.nextId == w.net.nextId && s.store.Keys == w.net.byId.Keys
    && forall k: R.Key :: R.Value(s, k) == Shown(w, encode, k)
  }

  // ---- Sequences of mutations ----------------------------------------------

  lemma {:induction false} MutateMore(s: R.Server, ms: seq<R.Mutation>, more: seq<R.Mutation>)
    ensures R.MutateAll(s, ms + more) == R.MutateAll(R.MutateAll(s, ms), more)
    decreases |more|
  {
    hide R.Mutate;
    if more == [] {
      assert ms + more == ms;
    } else {
      MutateMore(s, ms, more[..|more| - 1]);
      assert (ms + more)[..|ms + more| - 1] == ms + more[..|more| - 1];
    }
  }

  lemma MutateOne(s: R.Server, ms: seq<R.Mutation>, m: R.Mutation)
    ensures R.MutateAll(s, ms + [m]) == R.Mutate(R.MutateAll(s, ms), m)
    ensures R.Written(s, ms + [m])
         == R.Written(s, ms) + if m.Insert? && m.key.id in R.MutateAll(s, ms).store then {m.key} else {}
  {
    hide R.Mutate;
    assert (ms + [m])[..|ms|] == ms;
  }

  lemma {:induction false} WrittenMore(s: R.Server, ms: seq<R.Mutation>, more: seq<R.Mutation>)
    ensures R.Written(s, ms + more) == R.Written(s, ms) + R.Written(R.MutateAll(s, ms), more)
    decreases |more|
  {
    hide R.Mutate, R.MutateAll;
    if more == [] {
      assert ms + more == ms;
    } else {
      var rest := more[..|more| - 1];
      WrittenMore(s, ms, rest);
      MutateMore(s, ms, rest);
      assert (ms + more)[..|ms + more| - 1] == ms + rest && (ms + more)[|ms + more| - 1] == more[|more| - 1];
    }
  }

  /** Mutations without an insertion write nothing. */
  lemma {:induction false} NothingWritten(s: R.Server, ms: seq<R.Mutation>)
    requires forall i | 0 <= i < |ms| :: !ms[i].Insert?
    ensures R.Written(s, ms) == {}
    decreases |ms|
  {
    if ms != [] { NothingWritten(s, ms[..|ms| - 1]); }
  }

  function Spawns(n: nat): seq<R.Mutation> {
    if n == 0 then [] else Spawns(n - 1) + [R.Spawn]
  }

  function Despawns(xs: seq<NetworkId>): seq<R.Mutation> {
    if xs == [] then [] else Despawns(xs[..|xs| - 1]) + [R.Despawn(xs[|xs| - 1])]
  }

  function Inserts(shown: map<R.Key, R.Payload>, ks: seq<R.Key>): seq<R.Mutation>
    requires forall k | k in ks :: k in shown
  {
    if ks == [] then []
    else Inserts(shown, ks[..|ks| - 1]) + [R.Insert(ks[|ks| - 1], shown[ks[|ks| - 1]])]
  }

  lemma {:induction false} SpawnsIs(s: R.Server, n: nat)
    requires forall i | i in s.store :: i < s.nextId
    ensures var s' := R.MutateAll(s, Spawns(n));
            && s'.nextId == s.nextId + n
            && (forall i :: i in s'.store <==> i in s.store || s.nextId <= i < s.nextId + n)
            && (forall k: R.Key :: R.Value(s', k) == R.Value(s, k))
    decreases n
  {
    hide R.Value, R.Mutate;
    if n > 0 {
      SpawnsIs(s, n - 1);
      MutateOne(s, Spawns(n - 1), R.Spawn);
      hide R.MutateAll;
      SpawnShows(R.MutateAll(s, Spawns(n - 1)));
    }
  }

  lemma SpawnShows(s: R.Server)
    requires s.nextId !in s.store
    ensures var s' := R.Mutate(s, R.Spawn);
            && s'.nextId == s.nextId + 1 && (forall i :: i in s'.store <==> i in s.store || i == s.nextId)
            && (forall k: R.Key :: R.Value(s', k) == R.Value(s, k))
  {}

  lemma {:induction false} DespawnsIs(s: R.Server, xs: seq<NetworkId>)
    ensures var s' := R.MutateAll(s, Despawns(xs));
            && s'.nextId == s.nextId
            && (forall i :: i in s'.store <==> i in s.store && i !in xs)
            && (forall k: R.Key :: R.Value(s', k) == if k.id in xs then None else R.Value(s, k))
    decreases |xs|
  {
    if xs != [] {
      var x, rest := xs[|xs| - 1], xs[..|xs| - 1];
      DespawnsIs(s, rest);
      assert xs == rest + [x];
      assert Despawns(xs)[..|Despawns(xs)| - 1] == Despawns(rest);
      DespawnShows(R.MutateAll(s, Despawns(rest)), x);
    }
  }

  lemma DespawnShows(s: R.Server, x: NetworkId)
    ensures forall k: R.Key :: R.Value(R.Mutate(s, R.Despawn(x)), k) == if k.id == x then None else R.Value(s, k)
  {}

  lemma {:induction false} InsertsIs(s: R.Server, shown: map<R.Key, R.Payload>, ks: seq<R.Key>)
    requires forall k | k in ks :: k in shown && k.id in s.store
    ensures var s' := R.MutateAll(s, Inserts(shown, ks));
            && s'.nextId == s.nextId && s'.store.Keys == s.store.Keys
            && (forall k: R.Key :: R.Value(s', k) == if k in ks then Some(shown[k]) else R.Value(s, k))
    decreases |ks|
  {
    hide R.Value, R.Mutate;
    if ks != [] {
      var x, rest := ks[|ks| - 1], ks[..|ks| - 1];
      InsertsIs(s, shown, rest);
      assert ks == rest + [x];
      MutateOne(s, Inserts(shown, rest), R.Insert(x, shown[x]));
      hide R.MutateAll;
      InsertShows(R.MutateAll(s, Inserts(shown, rest)), x, shown[x]);
    }
  }

  lemma {:induction false} InsertsWritten(s: R.Server, shown: map<R.Key, R.Payload>, ks: seq<R.Key>)
    requires forall k | k in ks :: k in shown && k.id in s.store
    ensures forall k :: k in R.Written(s, Inserts(shown, ks)) <==> k in ks
    decreases |ks|
  {
    hide R.Value, R.Mutate, R.MutateAll;
    if ks != [] {
      var x, rest := ks[|ks| - 1], ks[..|ks| - 1];
      InsertsIs(s, shown, rest);
      InsertsWritten(s, shown, rest);
      assert ks == rest + [x];
      MutateOne(s, Inserts(shown, rest), R.Insert(x, shown[x]));
      hide R.Written;
    }
  }

  lemma {:induction false} NoInserts(n: nat, xs: seq<NetworkId>)
    ensures forall i | 0 <= i < |Spawns(n)| :: !Spawns(n)[i].Insert?
    ensures forall i | 0 <= i < |Despawns(xs)| :: !Despawns(xs)[i].Insert?
    decreases n + |xs|
  {
    if n > 0 { NoInserts(n - 1, []); }
    if xs != [] { NoInserts(0, xs[..|xs| - 1]); }
  }

  lemma InsertShows(s: R.Server, x: R.Key, p: R.Payload)
    requires x.id in s.store
    ensures var s' := R.Mutate(s, R.Insert(x, p));
            && s'.nextId == s.nextId && s'.store.Keys == s.store.Keys
            && forall k: R.Key :: R.Value(s', k) == if k == x then Some(p) else R.Value(s, k)
  {}

  // ---- One tick ------------------------------------------------------------

  /** Entities live in both worlds show at least the kinds they showed. */
  ghost predicate KindsStay(w: World, w': World, encode: Encoding) {
    forall n | n in w.net.byId && n in w'.net.byId :: ShownBy(w, encode, n).Keys <= ShownBy(w', encode, n).Keys
  }

  ghost predicate IdsBounded(w: World) {
    forall n | n in w.net.byId :: n < w.net.nextId && w.net.byId[n] in w.entities
  }

  /** Spawns up to the new next id, and despawns of what is no longer there. */
  lemma Trimmed(s: R.Server, w: World, w': World) returns (ms: seq<R.Mutation>)
    requires s.nextId == w.net.nextId && s.store.Keys == w.net.byId.Keys
    requires IdsBounded(w) && IdsBounded(w') && DeadStay(w, w')
    ensures var s' := R.MutateAll(s, ms);
            && s'.nextId == w'.net.nextId && s'.store.Keys == w'.net.byId.Keys
            && forall k: R.Key :: R.Value(s', k) == if k.id in w'.net.byId then R.Value(s, k) else None
    ensures R.Written(s, ms) == {}
  {
    hide R.MutateAll, R.Mutate, R.Written, Spawns, Despawns;
    var n := w'.net.nextId - w.net.nextId;
    var s1 := R.MutateAll(s, Spawns(n));
    SpawnsIs(s, n);
    var gone := Listed(s1.store.Keys - w'.net.byId.Keys);
    DespawnsIs(s1, gone);
    ms := Spawns(n) + Despawns(gone);
    MutateMore(s, Spawns(n), Despawns(gone));
    NoInserts(n, gone);
    NothingWritten(s, ms);
    forall k: R.Key | k.id !in s1.store ensures R.Value(s1, k) == None {}
  }

  /** The keys that a world shows and that the store has otherwise. */
  ghost function Stale(s: R.Server, w: World, encode: Encoding): set<R.Key> {
    set i, j | i in w.net.byId && j in ShownBy(w, encode, i)
               && R.Value(s, R.Key(i, j)) != Shown(w, encode, R.Key(i, j)) :: R.Key(i, j)
  }

  lemma StaleIff(s: R.Server, w: World, encode: Encoding, k: R.Key)
    ensures k in Stale(s, w, encode) <==> Shown(w, encode, k).Some? && R.Value(s, k) != Shown(w, encode, k)
  {
    hide R.Value;
    assert k == R.Key(k.id, k.kind);
  }

  /** Writes of what a world shows, where the store has it otherwise. */
  lemma Rewritten(s: R.Server, w: World, encode: Encoding) returns (ms: seq<R.Mutation>)
    requires s.store.Keys == w.net.byId.Keys
    ensures var s' := R.MutateAll(s, ms);
            && s'.nextId == s.nextId && s'.store.Keys == s.store.Keys
            && forall k: R.Key ::
                 R.Value(s', k) == if Shown(w, encode, k).Some? then Shown(w, encode, k) else R.Value(s, k)
    ensures forall k :: k in R.Written(s, ms) <==> Shown(w, encode, k).Some? && R.Value(s, k) != Shown(w, encode, k)
  {
    hide R.MutateAll, R.Written, R.Value, Inserts, Stale, Shown;
    var keys := Stale(s, w, encode);
    forall k: R.Key
      ensures k in keys <==> Shown(w, encode, k).Some? && R.Value(s, k) != Shown(w, encode, k)
      ensures k in keys ==> k.id in s.store
    {
      StaleIff(s, w, encode, k);
      ShownIsNamed(w, encode, k);
    }
    var shown := map k | k in keys :: Shown(w, encode, k).value;
    var ks := Listed(keys);
    InsertsIs(s, shown, ks);
    InsertsWritten(s, shown, ks);
    ms := Inserts(shown, ks);
  }

  lemma ShownIsNamed(w: World, encode: Encoding, k: R.Key)
    ensures Shown(w, encode, k).Some? ==> k.id in w.net.byId
  {}

  /** What the new world shows is not what the old one showed. */
  ghost predicate Changed(w: World, w': World, encode: Encoding, k: R.Key) {
    Shown(w', encode, k).Some? && Shown(w, encode, k) != Shown(w', encode, k)
  }

  /** Whatever happened to the world while dead ids stayed dead and no component was taken away,
      some spawns, despawns and writes did it, and the writes need touch only what changed. */
  lemma Expressible(s: R.Server, w: World, w': World, encode: Encoding) returns (ms: seq<R.Mutation>)
    requires Shows(s, w, encode) && IdsBounded(w) && IdsBounded(w') && DeadStay(w, w') && KindsStay(w, w', encode)
    ensures Shows(R.MutateAll(s, ms), w', encode)
    ensures forall k :: k in R.Written(s, ms) <==> Changed(w, w', encode, k)
  {
    hide R.MutateAll, R.Written, R.Value, Shown, DeadStay, IdsBounded, KindsStay;
    var trim := Trimmed(s, w, w');
    var write := Rewritten(R.MutateAll(s, trim), w', encode);
    ms := trim + write;
    MutateMore(s, trim, write);
    WrittenMore(s, trim, write);
    forall k: R.Key
      ensures Shown(w', encode, k).Some? || k.id !in w'.net.byId || R.Value(s, k).None?
      ensures Shown(w', encode, k).Some? ==> k.id in w'.net.byId
    {
      NothingLeftOver(s, w, w', encode, k);
      ShownIsNamed(w', encode, k);
    }
  }

  /** And they must: however the world changed, a component that shows otherwise was written. */
  lemma ChangedIsWritten(s: R.Server, w: World, ms: seq<R.Mutation>, w': World, encode: Encoding, k: R.Key)
    requires Shows(s, w, encode) && Shows(R.MutateAll(s, ms), w', encode) && Changed(w, w', encode, k)
    requires s.lastExtraction.Some? ==> s.lastExtraction.value < s.changeTick
    requires forall n | n in s.store :: n < s.nextId
    ensures k in R.Written(s, ms)
  {
    hide R.MutateAll, R.Written, Shown;
    R.WrittenIs(s, ms, k);
    assert R.Value(s, k) == Shown(w, encode, k) && R.Value(R.MutateAll(s, ms), k) == Shown(w', encode, k);
  }

  /** A key that the new world does not show is not left over from the old one. */
  lemma NothingLeftOver(s: R.Server, w: World, w': World, encode: Encoding, k: R.Key)
    requires Shows(s, w, encode) && IdsBounded(w) && DeadStay(w, w') && KindsStay(w, w', encode)
    ensures Shown(w', encode, k).Some? || k.id !in w'.net.byId || R.Value(s, k).None?
  {
    hide R.Value;
    assert R.Value(s, k) == Shown(w, encode, k);
  }

  lemma TiedIsBounded(w: World)
    requires Tied(w)
    ensures IdsBounded(w)
  {
    forall n | n in w.net.byId
      ensures n < w.net.nextId && w.net.byId[n] in w.entities
    {
      LinkedAt(w, n);
    }
  }

  lemma StagesKeepKinds(s: Server, cfg: Config, run: seq<Stage>, encode: Encoding)
    requires SparesServer(cfg.registry) && Lasting(cfg.registry) && Tied(s.world) && Monotone(encode)
    requires DeadStay(s.world, DoAll(s, cfg, run).world) && Tied(DoAll(s, cfg, run).world)
    ensures KindsStay(s.world, DoAll(s, cfg, run).world, encode)
  {
    hide SparesServer, Lasting, DoAll, Wears;
    var w, w' := s.world, DoAll(s, cfg, run).world;
    TiedIsBounded(w);
    TiedIsBounded(w');
    HandlesBounded(w);
    hide Tied;
    forall n | n in w.net.byId && n in w'.net.byId
      ensures ShownBy(w, encode, n).Keys <= ShownBy(w', encode, n).Keys
    {
      var e := w.net.byId[n];
      RunWears(s, cfg, run, e);
      assert encode(w.entities[e]).Keys <= encode(w'.entities[e]).Keys;
    }
  }

  /** There is always something to send that is exactly what changed. */
  lemma ExtractionExists(s: R.Server) returns (ms: seq<R.Message>)
    ensures R.Extraction(s, ms)
  {
    var deltas := set n, j | n in s.store && j in s.store[n] && R.Unsent(s, s.store[n][j]) ::
      R.Delta(R.Key(n, j), s.store[n][j].payload);
    var gone := set n | n in s.despawned :: R.Gone(n);
    ms := Listed(deltas + gone);
    forall k: R.Key, p: R.Payload
      ensures R.Delta(k, p) in ms <==> R.Sends(s, k, p)
    {
      assert R.Delta(k, p) !in gone;
      if R.Sends(s, k, p) { assert k == R.Key(k.id, k.kind); }
    }
    forall n
      ensures R.Gone(n) in ms <==> n in s.despawned
    {
      assert R.Gone(n) !in deltas;
    }
  }

  lemma ShowsThrough(s: R.Server, w: World, encode: Encoding)
    requires Shows(s, w, encode)
    ensures Shows(R.Mutate(s, R.AdvanceTick), w, encode) && Shows(R.PostExtract(R.Extracted(s)), w, encode)
  {
    var s1, s2 := R.Mutate(s, R.AdvanceTick), R.PostExtract(R.Extracted(s));
    forall k: R.Key ensures R.Value(s1, k) == R.Value(s, k) && R.Value(s2, k) == R.Value(s, k) {
      assert R.CellAt(s1, k) == R.CellAt(s, k) && R.CellAt(s2, k) == R.CellAt(s, k);
    }
  }

  ghost predicate Clearless(t: TickInput) {
    forall i | 0 <= i < |t.events| :: !Clears(Receive(t.events[i]))
  }

  lemma TickClearless(tick: nat, spawnAtZero: bool, t: TickInput)
    requires Clearless(t)
    ensures forall i | 0 <= i < |StagesOf(tick, spawnAtZero, t)| :: !Clears(StagesOf(tick, spawnAtZero, t)[i])
  {
    var a, b, c := Opening(tick, spawnAtZero, t), Checking(tick, t), Receiving(t.events);
    assert forall i | 0 <= i < |c| :: !Clears(c[i]);
    var run := StagesOf(tick, spawnAtZero, t);
    assert run == if t.polled then a + b + c + [ApplyPending, SimulateStep(t.inputs)] else a;
  }

  /** The tick writes what shows otherwise after it, and nothing else. */
  ghost predicate WritesChanged(r: R.Server, rt: R.Tick, w: World, w': World, encode: Encoding) {
    forall k :: k in R.Written(R.Mutate(r, R.AdvanceTick), rt.mutations) <==> Changed(w, w', encode, k)
  }

  /** One scheduler tick is one replication tick, whose writes are what changed in it. */
  lemma TickShown(s: Server, cfg: Config, tick: nat, spawnAtZero: bool, t: TickInput, r: R.Server, encode: Encoding)
    returns (rt: R.Tick)
    requires SparesServer(cfg.registry) && Lasting(cfg.registry) && Monotone(encode) && Clearless(t)
    requires Tied(s.world) && Shows(r, s.world, encode)
    ensures rt.Completed? <==> t.polled
    ensures rt.Completed? ==> R.Extraction(R.BeforeExtraction(r, rt), rt.messages)
    ensures Shows(R.AfterTick(r, rt), DoAll(s, cfg, StagesOf(tick, spawnAtZero, t)).world, encode)
    ensures Tied(DoAll(s, cfg, StagesOf(tick, spawnAtZero, t)).world)
    ensures Shows(R.BeforeExtraction(r, rt), DoAll(s, cfg, StagesOf(tick, spawnAtZero, t)).world, encode)
    ensures WritesChanged(r, rt, s.world, DoAll(s, cfg, StagesOf(tick, spawnAtZero, t)).world, encode)
  {
    hide SparesServer, Lasting, Monotone, Tied, DoAll, StagesOf, Shows, DeadStay, KindsStay, R.Extraction, R.MutateAll;
    hide R.Written, Changed;
    var run := StagesOf(tick, spawnAtZero, t);
    var w' := DoAll(s, cfg, run).world;
    TickClearless(tick, spawnAtZero, t);
    RunKeeps(s, cfg, run);
    RunDeadStay(s, cfg, run);
    StagesKeepKinds(s, cfg, run, encode);
    TiedIsBounded(s.world);
    TiedIsBounded(w');
    ShowsThrough(r, s.world, encode);
    var r1 := R.Mutate(r, R.AdvanceTick);
    var ms := Expressible(r1, s.world, w', encode);
    var r2 := R.MutateAll(r1, ms);
    ShowsThrough(r2, w', encode);
    if t.polled {
      var messages := ExtractionExists(r2);
      rt := R.Completed(ms, messages);
    } else {
      rt := R.Failed(ms);
    }
  }

  // ---- Whole runs ----------------------------------------------------------

  /** The server after some ticks of the scheduler. */
  function Served(cfg: Config, spawnAtZero: bool, ts: seq<TickInput>): Server {
    if ts == [] then START
    else DoAll(Served(cfg, spawnAtZero, ts[..|ts| - 1]), cfg, StagesOf(|ts| - 1, spawnAtZero, ts[|ts| - 1]))
  }

  /** The replica is what the adapter's world shows. */
  ghost predicate Follows(r: R.Replica, w: World, encode: Encoding) {
    forall k: R.Key :: Get(r, k) == Shown(w, encode, k)
  }

  /** However a world came to be the replicated store, and whatever order its messages were applied
      in, the replica is that world after every completed tick. */
  lemma ReplicaFollows(rs: seq<R.Tick>, w: World, encode: Encoding)
    requires R.Faithful(R.START, rs) && rs != []
    requires rs[|rs| - 1].Completed? && Shows(R.AfterTicks(R.START, rs), w, encode)
    ensures Follows(R.Replicate(map[], rs), w, encode)
  {
    hide R.Faithful, R.AfterTicks, R.Replicate, R.Value, Shown;
    R.RunSyncs(rs);
  }

  /** What shows otherwise than at the last completed tick before, or did in between. */
  ghost predicate Due(cfg: Config, spawnAtZero: bool, ts: seq<TickInput>, encode: Encoding, k: R.Key)
    decreases |ts|, 0
  {
    ts != [] &&
    var rest := ts[..|ts| - 1];
    || Changed(Served(cfg, spawnAtZero, rest).world, Served(cfg, spawnAtZero, ts).world, encode, k)
    || Late(cfg, spawnAtZero, rest, encode, k)
  }

  /** What is still to be sent after the ticks: it was due in the last one, and its poll failed. */
  ghost predicate Late(cfg: Config, spawnAtZero: bool, ts: seq<TickInput>, encode: Encoding, k: R.Key)
    decreases |ts|, 1
  {
    ts != [] && !ts[|ts| - 1].polled && Due(cfg, spawnAtZero, ts, encode, k)
  }

  /** The deltas are exactly what is due, as the world shows it. */
  ghost predicate SendsDue(
    cfg: Config, spawnAtZero: bool, ts: seq<TickInput>, messages: seq<R.Message>, encode: Encoding)
  {
    forall k, p :: R.Delta(k, p) in messages <==>
      Shown(Served(cfg, spawnAtZero, ts).world, encode, k) == Some(p) && Due(cfg, spawnAtZero, ts, encode, k)
  }

  /** The cells of the store that are unsent are the late ones. */
  ghost predicate UnsentAreLate(cfg: Config, spawnAtZero: bool, ts: seq<TickInput>, r: R.Server, encode: Encoding) {
    forall k: R.Key | R.CellAt(r, k).Some? ::
      R.Unsent(r, R.CellAt(r, k).value) <==> Late(cfg, spawnAtZero, ts, encode, k)
  }

  /** `rs` replicates the scheduler's ticks `ts`: its states are the worlds after them, and where a
      poll succeeded exactly what was due is sent and the replica has caught up. */
  ghost predicate Tracks(cfg: Config, spawnAtZero: bool, ts: seq<TickInput>, rs: seq<R.Tick>, encode: Encoding) {
    && |rs| == |ts| && R.Faithful(R.START, rs)
    && (forall i | 0 <= i < |ts| :: rs[i].Completed? <==> ts[i].polled)
    && Shows(R.AfterTicks(R.START, rs), Served(cfg, spawnAtZero, ts).world, encode)
    && (ts != [] && ts[|ts| - 1].polled ==>
          && SendsDue(cfg, spawnAtZero, ts, rs[|rs| - 1].messages, encode)
          && Follows(R.Replicate(map[], rs), Served(cfg, spawnAtZero, ts).world, encode))
    && (ts != [] ==> Tracks(cfg, spawnAtZero, ts[..|ts| - 1], rs[..|rs| - 1], encode))
  }

  lemma StartTracks(cfg: Config, spawnAtZero: bool, encode: Encoding)
    ensures Tracks(cfg, spawnAtZero, [], [], encode) && Tied(START.world)
    ensures UnsentAreLate(cfg, spawnAtZero, [], R.START, encode)
  {
    assert Tied(START.world) by { Beginnings(); }
    hide Tied;
    var s := R.START;
    forall k: R.Key ensures R.Value(s, k) == Shown(START.world, encode, k) && R.CellAt(s, k).None? {}
  }

  /** Before the extraction of a tick, the unsent cells are the ones that are due. */
  lemma UnsentAreDue(
    cfg: Config, spawnAtZero: bool, ts: seq<TickInput>, r: R.Server, rt: R.Tick, encode: Encoding, k: R.Key)
    requires ts != [] && UnsentAreLate(cfg, spawnAtZero, ts[..|ts| - 1], r, encode)
    requires r.lastExtraction.Some? ==> r.lastExtraction.value < r.changeTick
    requires forall n | n in r.store :: n < r.nextId
    requires Shows(r, Served(cfg, spawnAtZero, ts[..|ts| - 1]).world, encode)
    requires Shows(R.BeforeExtraction(r, rt), Served(cfg, spawnAtZero, ts).world, encode)
    requires var w, w' := Served(cfg, spawnAtZero, ts[..|ts| - 1]).world, Served(cfg, spawnAtZero, ts).world;
             WritesChanged(r, rt, w, w', encode)
    requires R.CellAt(R.BeforeExtraction(r, rt), k).Some?
    ensures R.Unsent(R.BeforeExtraction(r, rt), R.CellAt(R.BeforeExtraction(r, rt), k).value)
       <==> Due(cfg, spawnAtZero, ts, encode, k)
  {
    hide R.MutateAll, R.Written, Served, Shown;
    var r1 := R.Mutate(r, R.AdvanceTick);
    R.UnsentIff(r1, rt.mutations, k);
    assert R.CellAt(r1, k) == R.CellAt(r, k);
    assert R.Value(r, k) == Shown(Served(cfg, spawnAtZero, ts[..|ts| - 1]).world, encode, k);
    assert R.Value(R.BeforeExtraction(r, rt), k) == Shown(Served(cfg, spawnAtZero, ts).world, encode, k);
  }

  /** So a completed tick sends what is due, and a failed one leaves it late. */
  lemma TickSendsDue(cfg: Config, spawnAtZero: bool, ts: seq<TickInput>, r: R.Server, rt: R.Tick, encode: Encoding)
    requires ts != [] && UnsentAreLate(cfg, spawnAtZero, ts[..|ts| - 1], r, encode)
    requires r.lastExtraction.Some? ==> r.lastExtraction.value < r.changeTick
    requires forall n | n in r.store :: n < r.nextId
    requires Shows(r, Served(cfg, spawnAtZero, ts[..|ts| - 1]).world, encode)
    requires Shows(R.BeforeExtraction(r, rt), Served(cfg, spawnAtZero, ts).world, encode)
    requires var w, w' := Served(cfg, spawnAtZero, ts[..|ts| - 1]).world, Served(cfg, spawnAtZero, ts).world;
             WritesChanged(r, rt, w, w', encode)
    requires rt.Completed? <==> ts[|ts| - 1].polled
    requires rt.Completed? ==> R.Extraction(R.BeforeExtraction(r, rt), rt.messages)
    requires rt.Completed? ==> R.AllSent(R.AfterTick(r, rt))
    ensures rt.Completed? ==> SendsDue(cfg, spawnAtZero, ts, rt.messages, encode)
    ensures UnsentAreLate(cfg, spawnAtZero, ts, R.AfterTick(r, rt), encode)
  {
    hide R.BeforeExtraction, R.Written, Served, Shown, Due, Changed;
    var r2 := R.BeforeExtraction(r, rt);
    forall k: R.Key
      ensures R.CellAt(r2, k).Some? ==> (R.Unsent(r2, R.CellAt(r2, k).value) <==> Due(cfg, spawnAtZero, ts, encode, k))
      ensures R.Value(r2, k) == Shown(Served(cfg, spawnAtZero, ts).world, encode, k)
    {
      if R.CellAt(r2, k).Some? { UnsentAreDue(cfg, spawnAtZero, ts, r, rt, encode, k); }
    }
  }

  /** Every run of the scheduler without a clear is replicated tick by tick, whichever polls fail. */
  lemma {:induction false} RunReplicates(cfg: Config, spawnAtZero: bool, ts: seq<TickInput>, encode: Encoding)
    returns (rs: seq<R.Tick>)
    requires SparesServer(cfg.registry) && Lasting(cfg.registry) && Monotone(encode)
    requires forall i | 0 <= i < |ts| :: Clearless(ts[i])
    ensures Tracks(cfg, spawnAtZero, ts, rs, encode) && Tied(Served(cfg, spawnAtZero, ts).world)
    ensures UnsentAreLate(cfg, spawnAtZero, ts, R.AfterTicks(R.START, rs), encode)
    decreases |ts|
  {
    hide SparesServer, Lasting, Monotone, Tied, DoAll, StagesOf, Shows, Clearless, Follows, R.Extraction, R.AfterTick,
         R.BeforeExtraction, R.Replicate, R.Pending, WritesChanged, SendsDue, UnsentAreLate;
    if ts == [] {
      rs := [];
      StartTracks(cfg, spawnAtZero, encode);
    } else {
      var rest, t := ts[..|ts| - 1], ts[|ts| - 1];
      var rs' := RunReplicates(cfg, spawnAtZero, rest, encode);
      var s, r := Served(cfg, spawnAtZero, rest), R.AfterTicks(R.START, rs');
      var rt := TickShown(s, cfg, |rest|, spawnAtZero, t, r, encode);
      rs := rs' + [rt];
      assert rs[..|rs| - 1] == rs';
      RunBounded(rs');
      RunSent(rs);
      TickSendsDue(cfg, spawnAtZero, ts, r, rt, encode);
      if t.polled { ReplicaFollows(rs, Served(cfg, spawnAtZero, ts).world, encode); }
    }
  }

  lemma RunBounded(rs: seq<R.Tick>)
    requires R.Faithful(R.START, rs)
    ensures var r := R.AfterTicks(R.START, rs);
            && (r.lastExtraction.Some? ==> r.lastExtraction.value < r.changeTick)
            && (forall n | n in r.store :: n < r.nextId)
  {
    hide R.Faithful, R.AfterTicks, R.Replicate;
    R.RunSyncs(rs);
  }

  lemma RunSent(rs: seq<R.Tick>)
    requires R.Faithful(R.START, rs) && rs != []
    ensures rs[|rs| - 1].Completed? ==>
              R.AllSent(R.AfterTick(R.AfterTicks(R.START, rs[..|rs| - 1]), rs[|rs| - 1]))
  {
    hide R.AllSent, R.AfterTick, R.Faithful;
    R.RunStamped(rs);
  }
}
