/** Change-tick extraction, and a replica that applies what each tick sends. Between clears no
    network id is used twice. A tick whose poll fails changes the world but extracts nothing. */
module Replication {
  import opened Ecs

  type Kind = nat
  type Payload = seq<nat>

  datatype Cell = Cell(payload: Payload, changed: nat)

  datatype Key = Key(id: NetworkId, kind: Kind)

  /** The networked entities with their replicated components, the change tick, the tick of the
      last extraction, and the despawn events waiting to be sent. */
  datatype Server = Server(
    store: map<NetworkId, map<Kind, Cell>>, nextId: NetworkId,
    changeTick: nat, lastExtraction: Option<nat>, despawned: seq<NetworkId>)

  const START := Server(map[], 1, 0, None, [])

  type Replica = map<Key, Payload>

  datatype Message = Delta(key: Key, payload: Payload) | Gone(id: NetworkId)

  function WithCell(cells: map<Kind, Cell>, kind: Kind, c: Cell): map<Kind, Cell> {
    cells[kind := c]
  }

  function CellAt(s: Server, k: Key): Option<Cell> {
    if k.id in s.store then Get(s.store[k.id], k.kind) else None
  }

  function Value(s: Server, k: Key): Option<Payload> {
    match CellAt(s, k)
    case None => None
    case Some(c) => Some(c.payload)
  }

  /** Written since the last extraction. */
  predicate Unsent(s: Server, c: Cell) {
    s.lastExtraction.None? || c.changed > s.lastExtraction.value
  }

  // ---- What a tick does ----------------------------------------------------

  datatype Mutation = AdvanceTick | Spawn | Insert(key: Key, payload: Payload) | Despawn(id: NetworkId)

  function Mutate(s: Server, m: Mutation): Server {
    match m
    case AdvanceTick => s.(changeTick := s.changeTick + 1)
    case Spawn => s.(store := s.store[s.nextId := map[]], nextId := s.nextId + 1)
    case Insert(k, p) =>
      if k.id !in s.store then s
      else s.(store := s.store[k.id := WithCell(s.store[k.id], k.kind, Cell(p, s.changeTick))])
    case Despawn(n) =>
      if n in s.store then s.(store := s.store - {n}, despawned := s.despawned + [n]) else s
  }

  function MutateAll(s: Server, ms: seq<Mutation>): Server {
    if ms == [] then s else Mutate(MutateAll(s, ms[..|ms| - 1]), ms[|ms| - 1])
  }

  /** A cell that the extraction sends. */
  predicate Sends(s: Server, k: Key, p: Payload) {
    CellAt(s, k).Some? && Unsent(s, CellAt(s, k).value) && CellAt(s, k).value.payload == p
  }

  /** The messages of an extraction, in any order and possibly repeated. */
  ghost predicate Extraction(s: Server, ms: seq<Message>) {
    && (forall k, p :: Delta(k, p) in ms <==> Sends(s, k, p))
    && (forall n :: Gone(n) in ms <==> n in s.despawned)
  }

  function Extracted(s: Server): Server {
    s.(lastExtraction := Some(s.changeTick), despawned := [])
  }

  /** Clearing the engine's change trackers takes a change tick. */
  function PostExtract(s: Server): Server {
    s.(changeTick := s.changeTick + 1)
  }

  /** One tick: what its stages did to the world after the tick advanced and, if the poll did not
      fail, the messages in the order a client applies them. */
  datatype Tick = Completed(mutations: seq<Mutation>, messages: seq<Message>) | Failed(mutations: seq<Mutation>)

  function BeforeExtraction(s: Server, t: Tick): Server {
    MutateAll(Mutate(s, AdvanceTick), t.mutations)
  }

  function AfterTick(s: Server, t: Tick): Server {
    if t.Completed? then PostExtract(Extracted(BeforeExtraction(s, t))) else BeforeExtraction(s, t)
  }

  // ---- The replica ---------------------------------------------------------

  function Apply(r: Replica, m: Message): Replica {
    match m
    case Delta(k, p) => r[k := p]
    case Gone(n) => map k | k in r && k.id != n :: r[k]
  }

  function ApplyAll(r: Replica, ms: seq<Message>): Replica {
    if ms == [] then r else Apply(ApplyAll(r, ms[..|ms| - 1]), ms[|ms| - 1])
  }

  /** The replica is the server's replicated component map. */
  ghost predicate Mirrors(r: Replica, s: Server) {
    forall k: Key :: Get(r, k) == Value(s, k)
  }

  /** Every id known anywhere has been allocated. */
  ghost predicate Allocated(r: Replica, s: Server) {
    && (forall n | n in s.store :: n < s.nextId)
    && (forall k | k in r :: k.id < s.nextId)
  }

  /** The replica differs from the server only where a message will say so. */
  ghost predicate Pending(r: Replica, s: Server) {
    && Allocated(r, s)
    && (s.lastExtraction.Some? ==> s.lastExtraction.value < s.changeTick)
    && (forall n | n in s.despawned :: n !in s.store && n < s.nextId)
    && (forall k: Key | k.id in s.store :: PendingAt(r, s, k))
    && (forall k | k in r && k.id !in s.store :: k.id in s.despawned)
  }

  ghost predicate PendingAt(r: Replica, s: Server, k: Key) {
    (CellAt(s, k).Some? && Unsent(s, CellAt(s, k).value)) || Get(r, k) == Value(s, k)
  }

  lemma MutatePends(r: Replica, s: Server, m: Mutation)
    requires Pending(r, s)
    ensures Pending(r, Mutate(s, m))
  {
    var s' := Mutate(s, m);
    forall k: Key | k.id in s'.store
      ensures PendingAt(r, s', k)
    {
      assert k.id in s.store ==> PendingAt(r, s, k);
      assert m.AdvanceTick? ==> CellAt(s', k) == CellAt(s, k);
      assert m.Insert? && m.key != k ==> CellAt(s', k) == CellAt(s, k);
    }
  }

  lemma {:induction false} MutateAllPends(r: Replica, s: Server, ms: seq<Mutation>)
    requires Pending(r, s)
    ensures Pending(r, MutateAll(s, ms))
    decreases |ms|
  {
    if ms != [] {
      MutateAllPends(r, s, ms[..|ms| - 1]);
      MutatePends(r, MutateAll(s, ms[..|ms| - 1]), ms[|ms| - 1]);
    }
  }

  /** What a message sequence leaves at one key, if it does not both send and drop the entity. */
  lemma {:induction false} ApplyAllAt(r: Replica, ms: seq<Message>, k: Key, p: Payload)
    requires forall i | 0 <= i < |ms| :: ms[i].Delta? && ms[i].key == k ==> ms[i].payload == p
    requires !(Delta(k, p) in ms && Gone(k.id) in ms)
    ensures Get(ApplyAll(r, ms), k)
         == if Delta(k, p) in ms then Some(p) else if Gone(k.id) in ms then None else Get(r, k)
    decreases |ms|
  {
    if ms != [] {
      var m, ms' := ms[|ms| - 1], ms[..|ms| - 1];
      assert ms == ms' + [m];
      ApplyAllAt(r, ms', k, p);
      assert m.Delta? && m.key == k ==> m == Delta(k, p);
      assert m.Gone? && m.id == k.id ==> m == Gone(k.id);
    }
  }

  lemma SyncedAt(r: Replica, s: Server, ms: seq<Message>, k: Key)
    requires Pending(r, s) && Extraction(s, ms)
    ensures Get(ApplyAll(r, ms), k) == Value(s, k)
    ensures k in ApplyAll(r, ms) ==> k.id < s.nextId
  {
    var p: Payload := if Value(s, k).Some? then Value(s, k).value else [];
    forall i | 0 <= i < |ms| && ms[i].Delta? && ms[i].key == k
      ensures ms[i].payload == p
    {
      assert Delta(k, ms[i].payload) in ms;
      assert Sends(s, k, ms[i].payload);
    }
    assert Delta(k, p) in ms <==> Sends(s, k, p);
    assert Gone(k.id) in ms <==> k.id in s.despawned;
    ApplyAllAt(r, ms, k, p);
    assert k.id in s.store ==> PendingAt(r, s, k);
  }

  /** A completed tick makes the replica equal to the server, in whatever order its deltas and
      despawn events are applied, and however many ticks failed before it. */
  lemma TickSyncs(r: Replica, s: Server, t: Tick)
    requires Pending(r, s) && t.Completed? && Extraction(BeforeExtraction(s, t), t.messages)
    ensures Pending(ApplyAll(r, t.messages), AfterTick(s, t)) && Mirrors(ApplyAll(r, t.messages), AfterTick(s, t))
  {
    var s1, s2, r' := BeforeExtraction(s, t), AfterTick(s, t), ApplyAll(r, t.messages);
    MutatePends(r, s, AdvanceTick);
    MutateAllPends(r, Mutate(s, AdvanceTick), t.mutations);
    forall k: Key
      ensures Get(r', k) == Value(s2, k) && PendingAt(r', s2, k)
      ensures k in r' ==> k.id < s2.nextId && k.id in s2.store
    {
      SyncedAt(r, s1, t.messages, k);
      assert CellAt(s2, k) == CellAt(s1, k);
    }
  }

  lemma FailedPends(r: Replica, s: Server, t: Tick)
    requires Pending(r, s) && t.Failed?
    ensures Pending(r, AfterTick(s, t))
  {
    MutatePends(r, s, AdvanceTick);
    MutateAllPends(r, Mutate(s, AdvanceTick), t.mutations);
  }

  // ---- Whole runs ----------------------------------------------------------

  function AfterTicks(s: Server, ts: seq<Tick>): Server {
    if ts == [] then s else AfterTick(AfterTicks(s, ts[..|ts| - 1]), ts[|ts| - 1])
  }

  function Replicate(r: Replica, ts: seq<Tick>): Replica {
    if ts == [] then r
    else
      var r' := Replicate(r, ts[..|ts| - 1]);
      if ts[|ts| - 1].Completed? then ApplyAll(r', ts[|ts| - 1].messages) else r'
  }

  ghost predicate Faithful(s: Server, ts: seq<Tick>) {
    ts == [] ||
    (Faithful(s, ts[..|ts| - 1])
     && (ts[|ts| - 1].Completed? ==>
           Extraction(BeforeExtraction(AfterTicks(s, ts[..|ts| - 1]), ts[|ts| - 1]), ts[|ts| - 1].messages)))
  }

  /** In every run, failed ticks included: after every completed tick a replica that applied
      everything since the first extraction equals the server's replicated component map. */
  lemma {:induction false} RunSyncs(ts: seq<Tick>)
    requires Faithful(START, ts)
    ensures Pending(Replicate(map[], ts), AfterTicks(START, ts))
    ensures ts != [] && ts[|ts| - 1].Completed? ==> Mirrors(Replicate(map[], ts), AfterTicks(START, ts))
    decreases |ts|
  {
    hide Pending, Mirrors, Extraction, AfterTick;
    if ts == [] {
      StartPends();
    } else {
      var s, r, t := AfterTicks(START, ts[..|ts| - 1]), Replicate(map[], ts[..|ts| - 1]), ts[|ts| - 1];
      RunSyncs(ts[..|ts| - 1]);
      if t.Completed? { TickSyncs(r, s, t); } else { FailedPends(r, s, t); }
    }
  }

  lemma StartPends()
    ensures Pending(map[], START)
  {}

  // ---- Nothing unchanged is resent -----------------------------------------

  /** Nothing is stamped later than the change tick. */
  ghost predicate Stamped(s: Server) {
    forall k: Key | CellAt(s, k).Some? :: CellAt(s, k).value.changed <= s.changeTick
  }

  /** Everything is stamped no later than the last extraction, which the change tick has passed. */
  ghost predicate AllSent(s: Server) {
    && s.lastExtraction.Some? && s.lastExtraction.value < s.changeTick
    && (forall n | n in s.store :: n < s.nextId)
    && forall k: Key | CellAt(s, k).Some? :: CellAt(s, k).value.changed <= s.lastExtraction.value
  }

  lemma MutateStamped(s: Server, m: Mutation)
    requires Stamped(s)
    ensures Stamped(Mutate(s, m)) && Mutate(s, m).lastExtraction == s.lastExtraction
    ensures s.changeTick <= Mutate(s, m).changeTick
  {
    forall k: Key | CellAt(Mutate(s, m), k).Some?
      ensures CellAt(Mutate(s, m), k).value.changed <= Mutate(s, m).changeTick
    {
      assert CellAt(Mutate(s, m), k) == CellAt(s, k) || CellAt(Mutate(s, m), k).value.changed == s.changeTick;
    }
  }

  lemma {:induction false} MutateAllStamped(s: Server, ms: seq<Mutation>)
    requires Stamped(s)
    ensures Stamped(MutateAll(s, ms))
    decreases |ms|
  {
    if ms != [] {
      MutateAllStamped(s, ms[..|ms| - 1]);
      MutateStamped(MutateAll(s, ms[..|ms| - 1]), ms[|ms| - 1]);
    }
  }

  /** Along every run the stamps are in order, and after a completed tick everything is sent. */
  lemma {:induction false} RunStamped(ts: seq<Tick>)
    requires Faithful(START, ts)
    ensures Stamped(AfterTicks(START, ts))
    ensures ts != [] && ts[|ts| - 1].Completed? ==> AllSent(AfterTicks(START, ts))
    decreases |ts|
  {
    if ts != [] {
      var s, t := AfterTicks(START, ts[..|ts| - 1]), ts[|ts| - 1];
      RunStamped(ts[..|ts| - 1]);
      RunSyncs(ts[..|ts| - 1]);
      MutateStamped(s, AdvanceTick);
      MutateAllStamped(Mutate(s, AdvanceTick), t.mutations);
      var r := Replicate(map[], ts[..|ts| - 1]);
      MutatePends(r, s, AdvanceTick);
      MutateAllPends(r, Mutate(s, AdvanceTick), t.mutations);
      hide Pending, MutateAll;
      AfterStamped(s, t);
    }
  }

  lemma AfterStamped(s: Server, t: Tick)
    requires Stamped(BeforeExtraction(s, t))
    requires forall n | n in BeforeExtraction(s, t).store :: n < BeforeExtraction(s, t).nextId
    ensures Stamped(AfterTick(s, t)) && (t.Completed? ==> AllSent(AfterTick(s, t)))
  {
    hide BeforeExtraction;
    var s1, s2 := BeforeExtraction(s, t), AfterTick(s, t);
    forall k: Key ensures CellAt(s2, k) == CellAt(s1, k) {}
  }

  /** The keys written by a sequence of mutations. */
  function Written(s: Server, ms: seq<Mutation>): set<Key> {
    if ms == [] then {}
    else
      var m := ms[|ms| - 1];
      Written(s, ms[..|ms| - 1])
      + if m.Insert? && m.key.id in MutateAll(s, ms[..|ms| - 1]).store then {m.key} else {}
  }

  /** What was written stays unsent as long as it exists; what was not is as it was, or gone. */
  lemma {:induction false} WrittenIs(s: Server, ms: seq<Mutation>, k: Key)
    requires s.lastExtraction.Some? ==> s.lastExtraction.value < s.changeTick
    requires forall n | n in s.store :: n < s.nextId
    ensures var s' := MutateAll(s, ms);
            && s'.lastExtraction == s.lastExtraction && s.changeTick <= s'.changeTick && s.nextId <= s'.nextId
            && (forall n | n in s'.store :: n < s'.nextId)
            && (if k in Written(s, ms) then
                  && k.id < s'.nextId
                  && (if CellAt(s', k).Some? then Unsent(s', CellAt(s', k).value) else k.id !in s'.store)
                else
                  CellAt(s', k) == CellAt(s, k) || (CellAt(s', k).None? && k.id !in s'.store && k.id < s'.nextId))
    decreases |ms|
  {
    if ms != [] {
      hide Unsent;
      WrittenIs(s, ms[..|ms| - 1], k);
      WriteStep(MutateAll(s, ms[..|ms| - 1]), ms[|ms| - 1], k);
    }
  }

  lemma WriteStep(s: Server, m: Mutation, k: Key)
    requires s.lastExtraction.Some? ==> s.lastExtraction.value < s.changeTick
    requires forall n | n in s.store :: n < s.nextId
    ensures var s' := Mutate(s, m);
            && s'.lastExtraction == s.lastExtraction && s.changeTick <= s'.changeTick && s.nextId <= s'.nextId
            && (forall n | n in s'.store :: n < s'.nextId)
            && (if m.Insert? && m.key == k && k.id in s.store then
                  CellAt(s', k).Some? && Unsent(s', CellAt(s', k).value)
                else
                  CellAt(s', k) == CellAt(s, k) || (CellAt(s', k).None? && k.id !in s'.store))
            && (forall c :: Unsent(s', c) <==> Unsent(s, c))
            && (k.id in s'.store ==> k.id in s.store || k.id == s.nextId)
  {}

  /** A cell is unsent after some mutations exactly when it was written in them or is one that was
      unsent before. */
  lemma UnsentIff(s: Server, ms: seq<Mutation>, k: Key)
    requires s.lastExtraction.Some? ==> s.lastExtraction.value < s.changeTick
    requires forall n | n in s.store :: n < s.nextId
    requires CellAt(MutateAll(s, ms), k).Some?
    ensures Unsent(MutateAll(s, ms), CellAt(MutateAll(s, ms), k).value)
       <==> k in Written(s, ms) || (CellAt(s, k).Some? && Unsent(s, CellAt(s, k).value))
  {
    WrittenIs(s, ms, k);
    hide Written, MutateAll;
  }

  /** Between one completed tick and the next, failed ones in between or not: a component is sent
      exactly when it was written since the extraction before and still exists. */
  lemma ResentIff(s: Server, ms: seq<Mutation>, k: Key)
    requires AllSent(s)
    ensures (exists p :: Sends(MutateAll(s, ms), k, p)) <==> k in Written(s, ms) && CellAt(MutateAll(s, ms), k).Some?
  {
    hide MutateAll, Written;
    var s' := MutateAll(s, ms);
    if CellAt(s', k).Some? {
      UnsentIff(s, ms, k);
      if k in Written(s, ms) { assert Sends(s', k, CellAt(s', k).value.payload); }
    }
  }

  /** When a write is seen: one made after the trackers were cleared is sent by the next extraction,
      and one made between the extraction and that moment by none, until it is made again. */
  lemma WriteSeenIff(s: Server, k: Key, p: Payload, ms: seq<Mutation>)
    requires Stamped(s) && k.id in s.store && forall n | n in s.store :: n < s.nextId
    ensures Sends(Mutate(PostExtract(Extracted(s)), Insert(k, p)), k, p)
    ensures var s1 := PostExtract(Mutate(Extracted(s), Insert(k, p)));
            k !in Written(s1, ms) ==> !exists q :: Sends(MutateAll(s1, ms), k, q)
  {
    var s0 := Mutate(Extracted(s), Insert(k, p));
    var s1 := PostExtract(s0);
    forall j: Key | CellAt(s1, j).Some?
      ensures CellAt(s1, j).value.changed <= s.changeTick
    {
      assert CellAt(s1, j) == CellAt(s, j) || j == k;
    }
    ResentIff(s1, ms, k);
  }

  // ---- The adapter ---------------------------------------------------------

  class ReplicatedWorld {
    var store: map<NetworkId, map<Kind, Cell>>
    var nextId: NetworkId
    var changeTick: nat
    var lastExtraction: Option<nat>
    var despawned: seq<NetworkId>

    constructor ()
      ensures Model() == START
    {
      store, nextId, changeTick, lastExtraction, despawned := map[], 1, 0, None, [];
    }

    function Model(): Server
      reads this
    {
      Server(store, nextId, changeTick, lastExtraction, despawned)
    }

    method IncrementChangeTick()
      modifies this
      ensures Model() == Mutate(old(Model()), AdvanceTick)
    {
      changeTick := changeTick + 1;
    }

    method SpawnNetworked() returns (id: NetworkId)
      modifies this
      ensures Model() == Mutate(old(Model()), Spawn) && id == old(nextId)
    {
      id := nextId;
      nextId := nextId + 1;
      store := store[id := map[]];
    }

    method InsertComponent(key: Key, payload: Payload)
      modifies this
      ensures Model() == Mutate(old(Model()), Insert(key, payload))
    {
      if key.id in store {
        store := store[key.id := WithCell(store[key.id], key.kind, Cell(payload, changeTick))];
      }
    }

    method DespawnNetworked(id: NetworkId) returns (found: bool)
      modifies this
      ensures Model() == Mutate(old(Model()), Despawn(id)) && found == (id in old(store))
    {
      found := id in store;
      if found {
        store := store - {id};
        despawned := despawned + [id];
      }
    }

    /** The changed components of every networked entity; the iteration order is arbitrary. */
    method ExtractDeltas() returns (deltas: seq<Message>)
      modifies `lastExtraction
      ensures Model() == old(Model()).(lastExtraction := Some(changeTick))
      ensures forall m :: m in deltas <==> m.Delta? && Sends(old(Model()), m.key, m.payload)
      ensures forall i, j | 0 <= i < j < |deltas| :: deltas[i] != deltas[j]
    {
      deltas := [];
      var ids := store.Keys;
      while ids != {}
        invariant ids <= store.Keys && Model() == old(Model())
        invariant forall m :: m in deltas <==> m.Delta? && m.key.id !in ids && Sends(Model(), m.key, m.payload)
        invariant forall i, j | 0 <= i < j < |deltas| :: deltas[i] != deltas[j]
        decreases ids
      {
        var id :| id in ids;
        var more := ExtractEntity(id);
        assert forall i, j | 0 <= i < |deltas| && 0 <= j < |more| :: deltas[i] != more[j] by {
          assert forall i | 0 <= i < |deltas| :: deltas[i] in deltas;
          assert forall j | 0 <= j < |more| :: more[j] in more;
        }
        deltas := deltas + more;
        ids := ids - {id};
      }
      lastExtraction := Some(changeTick);
    }

    method ExtractEntity(id: NetworkId) returns (deltas: seq<Message>)
      requires id in store
      ensures forall m :: m in deltas <==> m.Delta? && m.key.id == id && Sends(Model(), m.key, m.payload)
      ensures forall i, j | 0 <= i < j < |deltas| :: deltas[i] != deltas[j]
    {
      deltas := [];
      var kinds := store[id].Keys;
      while kinds != {}
        invariant kinds <= store[id].Keys
        invariant forall m :: m in deltas <==>
          m.Delta? && m.key.id == id && m.key.kind !in kinds && Sends(Model(), m.key, m.payload)
        invariant forall i, j | 0 <= i < j < |deltas| :: deltas[i] != deltas[j]
        decreases kinds
      {
        var kind :| kind in kinds;
        var cell := store[id][kind];
        if lastExtraction.None? || cell.changed > lastExtraction.value {
          deltas := deltas + [Delta(Key(id, kind), cell.payload)];
        }
        kinds := kinds - {kind};
      }
    }

    method ExtractReliableEvents() returns (gone: seq<NetworkId>)
      modifies `despawned
      ensures Model() == old(Model()).(despawned := []) && gone == old(despawned)
    {
      gone := despawned;
      despawned := [];
    }

    method ClearTrackers()
      modifies `changeTick
      ensures Model() == PostExtract(old(Model()))
    {
      changeTick := changeTick + 1;
    }

    method ApplyMutations(mutations: seq<Mutation>)
      modifies this
      ensures Model() == MutateAll(old(Model()), mutations)
    {
      ghost var s := Model();
      var i := 0;
      while i < |mutations|
        invariant 0 <= i <= |mutations| && Model() == MutateAll(s, mutations[..i])
      {
        assert mutations[..i + 1][..i] == mutations[..i];
        match mutations[i] {
          case AdvanceTick =>
            IncrementChangeTick();
          case Spawn =>
            var _ := SpawnNetworked();
          case Insert(key, payload) =>
            InsertComponent(key, payload);
          case Despawn(id) =>
            var _ := DespawnNetworked(id);
        }
        i := i + 1;
      }
      assert mutations[..i] == mutations;
    }

    /** The stages of a tick as the scheduler runs them; reliable events are sent first. A tick whose
        poll fails ends before the extraction. */
    method TickStep(polled: bool, mutations: seq<Mutation>) returns (messages: seq<Message>)
      modifies this
      ensures var t := if polled then Completed(mutations, messages) else Failed(mutations);
              && Model() == AfterTick(old(Model()), t)
              && (polled ==> Extraction(BeforeExtraction(old(Model()), t), messages))
    {
      hide MutateAll;
      messages := [];
      IncrementChangeTick();
      ApplyMutations(mutations);
      if polled {
        ghost var s := Model();
        var deltas := ExtractDeltas();
        var gone := ExtractReliableEvents();
        ClearTrackers();
        messages := seq(|gone|, j requires 0 <= j < |gone| => Gone(gone[j])) + deltas;
        GoneFirst(s, gone, deltas, messages);
      }
    }
  }

  lemma GoneFirst(s: Server, gone: seq<NetworkId>, deltas: seq<Message>, ms: seq<Message>)
    requires gone == s.despawned && forall m :: m in deltas <==> m.Delta? && Sends(s, m.key, m.payload)
    requires ms == seq(|gone|, j requires 0 <= j < |gone| => Gone(gone[j])) + deltas
    ensures Extraction(s, ms)
  {
    forall n
      ensures Gone(n) in ms <==> n in s.despawned
    {
      if n in gone {
        var j :| 0 <= j < |gone| && gone[j] == n;
        assert ms[j] == Gone(n);
      }
    }
    forall k, p
      ensures Delta(k, p) in ms <==> Sends(s, k, p)
    {
      assert Delta(k, p) in ms <==> Delta(k, p) in deltas;
    }
  }
}
