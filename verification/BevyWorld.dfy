/** The world adapter as the server runs it: an object whose methods update its fields in loops.
    Each method is tied to the function of the state that specifies it. */
module BevyWorld {
  import opened Ecs
  import opened Adapter
  import opened Economy
  import opened Updates
  import opened Coherence

  class BevyWorldAdapter {
    var entities: map<Entity, Components>
    var nextEntity: nat
    var byId: map<NetworkId, Entity>
    var byEntity: map<Entity, NetworkId>
    var owners: map<NetworkId, ClientId>
    var nextId: nat
    var memberships: map<NetworkId, set<Entity>>
    var clientWorkspaces: map<ClientId, NetworkId>
    var serverTick: U64
    const replicators: Registry

    constructor (registry: Registry)
      ensures Model() == EMPTY && replicators == registry
    {
      entities, nextEntity, byId, byEntity, owners := map[], 0, map[], map[], map[];
      nextId, memberships, clientWorkspaces, serverTick := 1, map[], map[], 0;
      replicators := registry;
    }

    function Model(): World
      reads this
    {
      World(entities, Net(nextEntity, byId, byEntity, owners, nextId, memberships, clientWorkspaces), serverTick)
    }

    // ---- Lookups -----------------------------------------------------------

    method FindMaster() returns (r: Option<NetworkId>)
      ensures r == MasterOf(Model())
    {
      r := None;
      var e := 0;
      while e < nextEntity
        invariant 0 <= e <= nextEntity && r == MasterBelow(ShapesOf(entities), byEntity, e)
      {
        if r.None? && e in entities && entities[e].locale.workspace == Some(MASTER) && e in byEntity {
          r := Some(byEntity[e]);
        }
        e := e + 1;
      }
    }

    method GetEntityWorkspace(n: NetworkId) returns (r: Option<NetworkId>)
      ensures r == EntityWorkspace(Model(), n)
    {
      r := None;
      if n in byId && byId[n] in entities {
        r := entities[byId[n]].locale.membership;
      }
    }

    /** The index answers first; the scan is the fallback, and in a coherent world the two agree. */
    method GetClientWorkspace(c: ClientId) returns (r: Option<NetworkId>)
      ensures r == ClientWorkspace(Model(), c)
      ensures Coherent(Model()) ==> r == MasterOf(Model())
    {
      if c in clientWorkspaces {
        r := Some(clientWorkspaces[c]);
        ghost var w := Model();
        if Coherent(w) { IndexedClients(ShapesOf(w.entities), w.net); }
      } else {
        r := FindMaster();
      }
    }

    // ---- Life cycle --------------------------------------------------------

    /** A fresh entity, known to clients under `n`. */
    method SpawnNamed(n: NetworkId, parts: Components)
      modifies this
      ensures Model() == SpawnAs(old(Model()), n, parts)
    {
      entities := entities[nextEntity := parts.(id := parts.id.(networked := Some(n)))];
      byId := byId[n := nextEntity];
      byEntity := byEntity[nextEntity := n];
      nextEntity := nextEntity + 1;
    }

    method SpawnUnnamed(parts: Components)
      modifies this
      ensures Model() == SpawnLocal(old(Model()), parts)
    {
      entities := entities[nextEntity := parts];
      nextEntity := nextEntity + 1;
    }

    method SpawnMasterWorkspace() returns (id: NetworkId)
      modifies this
      ensures Model() == SpawnMaster(old(Model())) && id == old(nextId)
    {
      id := nextId;
      nextId := nextId + 1;
      SpawnNamed(id, MasterParts(id));
    }

    /** Creates the master workspace first when there is none; that nested spawn finds it. */
    method SpawnKind(kind: nat, at: Position) returns (id: NetworkId)
      modifies this
      ensures Model() == Adapter.SpawnKind(old(Model()), kind, at) && id == old(nextId)
      decreases if MasterOf(Model()).None? then 1 else 0
    {
      ghost var before := Model();
      id := nextId;
      nextId := nextId + 1;
      assert Model() == Allocate(before);
      var master := FindMaster();
      assert master == MasterOf(before);
      if master.None? {
        var workspace := SpawnMasterWorkspace();
        SpawnMasterIsFound(Allocate(before));
        var _ := SpawnKind(RESOURCE, Position(30.0, 0.0));
        master := Some(workspace);
      }
      ghost var ready := Model();
      var e := nextEntity;
      SpawnNamed(id, KindAt(kind, at, master.value));
      var members := if master.value in memberships then memberships[master.value] else {};
      memberships := memberships[master.value := members + {e}];
      assert Model() == Place(ready, id, kind, at, master.value);
    }

    method SpawnKindFor(kind: nat, at: Position, client: ClientId) returns (id: NetworkId)
      modifies this
      ensures Model() == Adapter.SpawnKindFor(old(Model()), kind, at, client) && id == old(nextId)
    {
      id := SpawnKind(kind, at);
      if id in byId && byId[id] in entities {
        var e := byId[id];
        entities := entities[e := entities[e].(id := entities[e].id.(owner := Some(client)))];
        owners := owners[id := client];
      }
    }

    method SpawnSessionAgent(kind: nat, at: Position, client: ClientId) returns (id: NetworkId)
      modifies this
      ensures Model() == Adapter.SpawnSessionAgent(old(Model()), kind, at, client) && id == old(nextId)
    {
      id := SpawnKindFor(kind, at, client);
      var workspace := GetEntityWorkspace(id);
      if id in byId && byId[id] in entities && workspace.Some? {
        var e := byId[id];
        entities := entities[e := entities[e].(id := entities[e].id.(session := true))];
        clientWorkspaces := clientWorkspaces[client := workspace.value];
      }
    }

    /** Takes the entity out of every membership set. */
    method LeaveWorkspaces(e: Entity)
      modifies `memberships
      ensures memberships == WithoutMember(old(memberships), e)
    {
      var rest := memberships.Keys;
      while rest != {}
        invariant rest <= memberships.Keys == old(memberships).Keys
        invariant forall ws | ws in memberships ::
                    memberships[ws] == if ws in rest then old(memberships)[ws] else old(memberships)[ws] - {e}
        decreases rest
      {
        var ws :| ws in rest;
        memberships := memberships[ws := memberships[ws] - {e}];
        rest := rest - {ws};
      }
    }

    method DespawnNetworked(n: NetworkId) returns (found: bool)
      modifies this
      ensures Model() == Despawn(old(Model()), n)
      ensures found == (n in old(byId) && old(byId)[n] in old(entities))
    {
      if n !in byId {
        return false;
      }
      var e := byId[n];
      found := e in entities;
      var id := if found then entities[e].id else NO_ID;
      byId, byEntity, owners := byId - {n}, byEntity - {e}, owners - {n};
      LeaveWorkspaces(e);
      if id.session && id.owner.Some? {
        clientWorkspaces := clientWorkspaces - {id.owner.value};
      }
      entities := entities - {e};
    }

    /** Every named entity goes, then every pending resource; the allocator starts again. */
    method ClearWorld()
      requires Tied(Model())
      modifies this
      ensures Model() == Clear(old(Model()))
    {
      hide Tied;
      DespawnEverything();
      DropTrackers();
      nextId := 1;
      memberships, clientWorkspaces := map[], map[];
    }

    method DropTrackers()
      modifies `entities
      ensures entities == map e | e in old(entities) && old(entities)[e].clocks.respawn.None? :: old(entities)[e]
    {
      var rest := entities.Keys;
      while rest != {}
        invariant forall e | e in rest :: e in entities
        invariant forall e ::
                    e in entities <==> e in old(entities) && (e in rest || old(entities)[e].clocks.respawn.None?)
        invariant forall e | e in entities :: entities[e] == old(entities)[e]
        decreases rest
      {
        var e :| e in rest;
        if entities[e].clocks.respawn.Some? {
          entities := entities - {e};
        }
        rest := rest - {e};
      }
    }

    method DespawnEverything()
      requires Tied(Model())
      modifies this
      ensures byId == map[] && byEntity == map[] && owners == map[]
      ensures nextEntity == old(nextEntity) && serverTick == old(serverTick)
      ensures entities == map e | e in old(entities) && e !in old(byEntity) :: old(entities)[e]
    {
      hide Tied, Emptying, Despawn;
      ghost var w := Model();
      EmptyingStarts(w);
      var ids := byId.Keys;
      while ids != {}
        invariant ids == byId.Keys && Emptying(w, Model())
        decreases |ids|
      {
        var n :| n in ids;
        EmptyingStep(w, Model(), n);
        var _ := DespawnNetworked(n);
        ids := ids - {n};
      }
      EmptyingEnds(w, Model());
    }

    // ---- Updates -----------------------------------------------------------

    /** The owner cache and the cached replicator change nothing but the speed: the outcome is that
        of the plain fold. A full cache is left as it was; a missing entry is filled in. */
    method ApplyUpdates(updates: seq<Inbound>)
      requires CacheSound(Model()) && SparesServer(replicators)
      modifies `entities, `owners
      ensures var spec := Updates.ApplyUpdates(old(Model()), replicators, updates);
              Model() == spec.(net := spec.net.(owners := owners))
      ensures CacheSound(Model())
      ensures forall n | n in old(owners) :: n in owners && owners[n] == old(owners)[n]
      ensures CacheFull(old(Model())) ==> Model() == Updates.ApplyUpdates(old(Model()), replicators, updates)
    {
      hide SparesServer, Updates.ApplyUpdates;
      ghost var w := Model();
      var lastKind: Option<nat> := None;
      var lastReplicator: Option<Replicator> := None;
      var i := 0;
      ApplyNone(w, replicators, updates);
      while i < |updates|
        invariant 0 <= i <= |updates|
        invariant lastKind.Some? ==> lastReplicator == Get(replicators, lastKind.value)
        invariant Model() == WithOwners(Updates.ApplyUpdates(w, replicators, updates[..i]), owners)
        invariant CacheSound(Model())
        invariant forall n | n in w.net.owners :: n in owners && owners[n] == w.net.owners[n]
        invariant CacheFull(w) ==> owners == w.net.owners && CacheFull(Model())
      {
        var client, update := updates[i].client, updates[i].update;
        ApplySnoc(w, replicators, updates, i);
        if update.id in byId {
          var ok := IsAuthorized(client, update.id);
          if ok {
            if lastKind != Some(update.kind) {
              lastKind := Some(update.kind);
              lastReplicator := Get(replicators, update.kind);
            }
            if lastReplicator.Some? {
              SparesAt(replicators, update.kind);
              Replicate(byId[update.id], lastReplicator.value, update.payload);
            }
          }
        }
        i := i + 1;
      }
      assert updates[..i] == updates;
      UpdatesSpareServer(w, replicators, updates);
    }

    method Replicate(e: Entity, replicator: Replicator, payload: Payload)
      requires KeepsId(replicator)
      modifies `entities
      ensures entities == if e !in old(entities) then old(entities)
                          else old(entities)[e := replicator(serverTick, old(entities)[e], payload)]
      ensures CacheSound(old(Model())) ==> CacheSound(Model())
      ensures CacheFull(old(Model())) ==> CacheFull(Model())
    {
      if e in entities {
        entities := entities[e := replicator(serverTick, entities[e], payload)];
      }
    }

    /** The cache first, the component as a fallback, which then fills the cache. */
    method IsAuthorized(client: ClientId, n: NetworkId) returns (ok: bool)
      requires CacheSound(Model()) && n in byId
      modifies `owners
      ensures CacheSound(Model())
      ensures byId[n] in entities ==> ok == (entities[byId[n]].id.owner == Some(client))
      ensures forall m | m in old(owners) :: m in owners && owners[m] == old(owners)[m]
      ensures old(CacheFull(Model())) ==> owners == old(owners)
    {
      if n in owners {
        return owners[n] == client;
      }
      ok := false;
      if byId[n] in entities && entities[byId[n]].id.owner.Some? {
        var owner := entities[byId[n]].id.owner.value;
        owners := owners[n := owner];
        ok := owner == client;
      }
    }

    method AdvanceTick()
      modifies `serverTick
      ensures serverTick == if old(serverTick) < U64_MAX then old(serverTick) + 1 else U64_MAX
    {
      if serverTick < U64_MAX {
        serverTick := serverTick + 1;
      } else {
        serverTick := U64_MAX;
      }
    }

    // ---- Gameplay stages ---------------------------------------------------

    /** Rewrites the components of every entity. */
    method Rewrite(f: (Entity, Components) -> Components)
      modifies `entities
      ensures entities == map e | e in old(entities) :: f(e, old(entities)[e])
    {
      var rest := entities.Keys;
      while rest != {}
        invariant rest <= entities.Keys == old(entities).Keys
        invariant forall e | e in entities ::
                  entities[e] == if e in rest then old(entities)[e] else f(e, old(entities)[e])
        decreases rest
      {
        var e :| e in rest;
        entities := entities[e := f(e, entities[e])];
        rest := rest - {e};
      }
    }

    /** Reads the bounds of every named workspace, then wraps every member of one. */
    method EnforceBounds()
      modifies `entities
      ensures Model() == EncloseAll(old(Model()))
    {
      var bounds := CollectBounds();
      ghost var w := Model();
      forall c: Components
        ensures EncloseIn(bounds, c) == Enclose(w, c)
      {
        assert c.locale.membership.Some? ==>
            Get(bounds, c.locale.membership.value) == BoundsFor(w, c.locale.membership.value);
      }
      hide Enclose, EncloseIn;
      Rewrite((e, c) => EncloseIn(bounds, c));
    }

    method CollectBounds() returns (bounds: map<NetworkId, Bounds>)
      ensures forall ws :: Get(bounds, ws) == BoundsFor(Model(), ws)
    {
      bounds := map[];
      var rest := byId.Keys;
      while rest != {}
        invariant rest <= byId.Keys
        invariant forall ws :: Get(bounds, ws) == if ws in rest then None else BoundsFor(Model(), ws)
        decreases rest
      {
        var ws :| ws in rest;
        var e := byId[ws];
        if e in entities && entities[e].locale.bounds.Some? {
          bounds := bounds[ws := entities[e].locale.bounds.value];
        }
        rest := rest - {ws};
      }
    }

    method ProcessInput(i: Inputs)
      modifies `entities
      ensures Model() == InputStage(old(Model()), i)
    {
      hide MoveTo, Enclose, Toggle;
      Rewrite((e, c) => if e in i.moved then MoveTo(c, i.moved[e]) else c);
      assert Model() == MoveAll(old(Model()), i.moved);
      EnforceBounds();
      ghost var w := Model();
      hide MoveAll, EncloseAll;
      Rewrite((e, c) => Toggle(c));
      assert Model() == ToggleAll(w);
    }

    /** What an active beam may do this tick. */
    method ValidateBeam(e: Entity, sqrt: real -> real) returns (v: Verdict)
      ensures v == Validate(Model(), e, sqrt)
    {
      hide DistanceSquared;
      if e !in entities {
        return Idle;
      }
      var c := entities[e];
      if c.gear.extractor.None? || c.locale.position.None? || c.cargo.store.None? || !c.gear.extractor.value.active {
        return Idle;
      }
      var beam, store := c.gear.extractor.value, c.cargo.store.value;
      if beam.target.None? || beam.target.value !in byId {
        return Disable;
      }
      var t := byId[beam.target.value];
      if t !in entities || entities[t].cargo.resource.None? || entities[t].locale.position.None? {
        return Disable;
      }
      var resource := entities[t].cargo.resource.value;
      var distance2 := DistanceSquared(entities[t].locale.position.value, c.locale.position.value);
      if distance2 > beam.range * beam.range {
        return Disable;
      }
      if store.payload >= store.capacity {
        return Disable;
      }
      if resource.remaining > 0 && serverTick % 10 == 0 {
        return Draw(Transfer(e, t, BaseAmount(beam.rate, sqrt(distance2), beam.range)));
      }
      v := Wait;
    }

    method CollectTransfers(order: seq<Entity>, sqrt: real -> real)
      returns (transfers: seq<Transfer>, disabled: seq<Entity>)
      ensures transfers == Transfers(Model(), order, sqrt)
      ensures forall e :: e in disabled <==> e in order && Validate(Model(), e, sqrt).Disable?
    {
      hide Validate;
      transfers, disabled := [], [];
      var i := 0;
      while i < |order|
        invariant 0 <= i <= |order| && transfers == Transfers(Model(), order[..i], sqrt)
        invariant forall e :: e in disabled <==> e in order[..i] && Validate(Model(), e, sqrt).Disable?
      {
        assert order[..i + 1][..i] == order[..i] && order[..i + 1] == order[..i] + [order[i]];
        var v := ValidateBeam(order[i], sqrt);
        if v.Draw? {
          transfers := transfers + [v.transfer];
        } else if v.Disable? {
          disabled := disabled + [order[i]];
        }
        i := i + 1;
      }
      assert order[..i] == order;
    }

    method DisableBeams(disabled: seq<Entity>)
      modifies `entities
      ensures entities == map e | e in old(entities) ::
              if e in disabled then Deactivate(old(entities)[e]) else old(entities)[e]
    {
      var i := 0;
      while i < |disabled|
        invariant 0 <= i <= |disabled|
        invariant entities == map e | e in old(entities) ::
                  if e in disabled[..i] then Deactivate(old(entities)[e]) else old(entities)[e]
      {
        var e := disabled[i];
        assert disabled[..i + 1] == disabled[..i] + [e];
        if e in entities && entities[e].gear.extractor.Some? {
          var gear := entities[e].gear;
          gear := gear.(extractor := Some(gear.extractor.value.(active := false)));
          entities := entities[e := entities[e].(gear := gear)];
        }
        i := i + 1;
      }
      assert disabled[..i] == disabled;
    }

    method TransferPayload(t: Transfer)
      modifies `entities
      ensures Model() == TransferOne(old(Model()), t)
    {
      if t.agent !in entities || entities[t.agent].cargo.store.None? || t.resource !in entities
        || entities[t.resource].cargo.resource.None? {
        return;
      }
      var store, resource := entities[t.agent].cargo.store.value, entities[t.resource].cargo.resource.value;
      var amount := Min(Min(t.amount, resource.remaining), Wrap(store.capacity - store.payload));
      if amount > 0 {
        entities := entities[t.agent := Load(entities[t.agent], amount)];
        entities := entities[t.resource := Deplete(entities[t.resource], amount)];
      }
    }

    method ProcessExtraction(i: Inputs)
      modifies `entities
      ensures Model() == ExtractStage(old(Model()), i)
    {
      hide Validate, TransferOne;
      ghost var w := Model();
      var transfers, disabled := CollectTransfers(i.extractors, i.sqrt);
      DisableBeams(disabled);
      assert Model() == DisableAll(w, i.extractors, i.sqrt);
      ghost var w1 := Model();
      var k := 0;
      while k < |transfers|
        invariant 0 <= k <= |transfers| && Model() == TransferAll(w1, transfers[..k])
      {
        assert transfers[..k + 1][..k] == transfers[..k];
        TransferPayload(transfers[k]);
        k := k + 1;
      }
      assert transfers[..k] == transfers;
    }

    method CollectExhausted(order: seq<Entity>) returns (xs: seq<Entity>)
      ensures xs == Exhausted(Model(), order)
    {
      xs := [];
      var i := 0;
      while i < |order|
        invariant 0 <= i <= |order| && xs == Exhausted(Model(), order[..i])
      {
        assert order[..i + 1][..i] == order[..i];
        var e := order[i];
        if e in entities && entities[e].cargo.resource.Some? && entities[e].locale.position.Some?
           && entities[e].cargo.resource.value.remaining == 0 && e in byEntity {
          xs := xs + [e];
        }
        i := i + 1;
      }
      assert order[..i] == order;
    }

    method HandleResourceExhaustion(i: Inputs)
      modifies this
      ensures Model() == ExhaustStage(old(Model()), i)
    {
      ghost var w := Model();
      var xs := CollectExhausted(i.resources);
      var k := 0;
      while k < |xs|
        invariant 0 <= k <= |xs| && Model() == SpawnTrackers(w, xs[..k])
      {
        assert xs[..k + 1][..k] == xs[..k];
        var e := xs[k];
        if IsExhausted(Model(), e) {
          SpawnUnnamed(TrackerParts(entities[e].locale.position.value, entities[e].cargo.resource.value.total));
        }
        k := k + 1;
      }
      assert xs[..k] == xs;
      DespawnThese(xs);
    }

    method DespawnThese(xs: seq<Entity>)
      modifies this
      ensures Model() == DespawnAll(old(Model()), xs)
    {
      hide Despawn;
      var i := 0;
      while i < |xs|
        invariant 0 <= i <= |xs| && Model() == DespawnAll(old(Model()), xs[..i])
      {
        assert xs[..i + 1][..i] == xs[..i];
        if xs[i] in byEntity {
          var _ := DespawnNetworked(byEntity[xs[i]]);
        }
        i := i + 1;
      }
      assert xs[..i] == xs;
    }

    method FindCollector(d: Entity, agents: seq<Entity>) returns (r: Option<Entity>)
      ensures r == Collector(Model(), d, agents)
    {
      hide DistanceSquared;
      r := None;
      var i := 0;
      while i < |agents|
        invariant 0 <= i <= |agents| && r == Collector(Model(), d, agents[..i])
      {
        assert agents[..i + 1][..i] == agents[..i];
        var a := agents[i];
        if r.None? && a != d && a in entities && entities[a].cargo.store.Some? && entities[a].locale.position.Some?
           && d in entities && entities[d].locale.position.Some? {
          var store := entities[a].cargo.store.value;
          var distance2 := DistanceSquared(entities[d].locale.position.value, entities[a].locale.position.value);
          if distance2 < 100.0 && store.capacity > store.payload {
            r := Some(a);
          }
        }
        i := i + 1;
      }
      assert agents[..i] == agents;
    }

    method CollectClaims(drops: seq<Entity>, agents: seq<Entity>) returns (claims: seq<Claim>)
      ensures claims == Claims(Model(), drops, agents)
    {
      hide Collector;
      claims := [];
      var i := 0;
      while i < |drops|
        invariant 0 <= i <= |drops| && claims == Claims(Model(), drops[..i], agents)
      {
        assert drops[..i + 1][..i] == drops[..i];
        var d := drops[i];
        var a := FindCollector(d, agents);
        if d in entities && entities[d].cargo.drop.Some? && entities[d].locale.position.Some?
           && a.Some? && a.value in entities && entities[a.value].cargo.store.Some? {
          var room := Room(entities[a.value].cargo.store.value);
          claims := claims + [Claim(a.value, d, Min(entities[d].cargo.drop.value, room))];
        }
        i := i + 1;
      }
      assert drops[..i] == drops;
    }

    /** One claim; says whether it empties the drop. */
    method Collect(cl: Claim) returns (emptied: bool)
      modifies `entities
      ensures Model() == ApplyClaim(old(Model()), cl)
      ensures emptied == (cl.amount > 0 && cl.drop in old(entities) && old(entities)[cl.drop].cargo.drop.Some?
                          && cl.amount >= old(entities)[cl.drop].cargo.drop.value)
    {
      emptied := false;
      if cl.amount == 0 {
        return;
      }
      if cl.agent in entities {
        entities := entities[cl.agent := Load(entities[cl.agent], cl.amount)];
      }
      if cl.drop in entities {
        emptied := entities[cl.drop].cargo.drop.Some? && cl.amount >= entities[cl.drop].cargo.drop.value;
        entities := entities[cl.drop := TakeFrom(entities[cl.drop], cl.amount)];
      }
    }

    method ProcessPayloadCollection(i: Inputs)
      modifies this
      ensures Model() == CollectStage(old(Model()), i)
    {
      hide Claims, ApplyClaim;
      ghost var w := Model();
      var claims := CollectClaims(i.drops, i.agents);
      var emptied: seq<Entity> := [];
      var k := 0;
      while k < |claims|
        invariant 0 <= k <= |claims| && Model() == ApplyClaims(w, claims[..k]) && emptied == Emptied(w, claims[..k])
      {
        assert claims[..k + 1][..k] == claims[..k];
        var gone := Collect(claims[k]);
        if gone {
          emptied := emptied + [claims[k].drop];
        }
        k := k + 1;
      }
      assert claims[..k] == claims;
      DespawnThese(emptied);
    }

    method FindTarget(b: Entity, targets: seq<Entity>) returns (r: Option<Entity>)
      requires IsBeam(Model(), b)
      ensures r == FirstTarget(Model(), b, targets)
    {
      hide DistanceSquared;
      r := None;
      var i := 0;
      while i < |targets|
        invariant 0 <= i <= |targets| && r == FirstTarget(Model(), b, targets[..i])
      {
        assert targets[..i + 1][..i] == targets[..i];
        var t := targets[i];
        if r.None? && t != b && t in entities && entities[t].locale.position.Some?
           && (entities[t].pools.priority.Some? || entities[t].pools.integrity.Some? || entities[t].pools.shell.Some?)
           && !(t in byEntity && byEntity[t] == entities[b].gear.beam.value.owner) {
          if DistanceSquared(entities[t].locale.position.value, entities[b].locale.position.value) < 16.0 {
            r := Some(t);
          }
        }
        i := i + 1;
      }
      assert targets[..i] == targets;
    }

    /** One beam flies on, hits or ends; `spent` and `killed` say what is to be removed. */
    method AdvanceBeam(b: Entity, targets: seq<Entity>) returns (spent: bool, killed: Option<Entity>)
      modifies `entities
      ensures Model() == BeamOne(old(Model()), b, targets)
      ensures var w := old(Model());
              spent == (IsBeam(w, b) && (IsSpent(w, b) || BeamTarget(w, b, targets).Some?))
      ensures var t := BeamTarget(old(Model()), b, targets);
              killed == if t.Some? && t.value in old(entities) && Fatal(old(entities)[t.value].pools) then t else None
    {
      hide CanHit, FirstTarget;
      spent, killed := false, None;
      if !IsBeam(Model(), b) {
        return;
      }
      if IsSpent(Model(), b) {
        return true, None;
      }
      var t := FindTarget(b, targets);
      ghost var w := Model();
      FirstTargetHit(w, b, targets);
      entities := entities[b := AgeBeam(entities[b])];
      if t.Some? {
        var pools, terminated := ApplyBeamHit(entities[t.value].pools);
        entities := entities[t.value := entities[t.value].(pools := pools)];
        spent := true;
        killed := if terminated then t else None;
      }
    }

    method ProcessBeams(beams: seq<Entity>, targets: seq<Entity>) returns (spent: seq<Entity>, killed: seq<Entity>)
      modifies `entities
      ensures Model() == BeamAll(old(Model()), beams, targets)
      ensures spent == Spent(old(Model()), beams, targets) && killed == Killed(old(Model()), beams, targets)
    {
      hide BeamOne, BeamTarget, IsSpent, Fatal, IsBeam;
      spent, killed := [], [];
      var i := 0;
      while i < |beams|
        invariant 0 <= i <= |beams| && Model() == BeamAll(old(Model()), beams[..i], targets)
        invariant spent == Spent(old(Model()), beams[..i], targets)
        invariant killed == Killed(old(Model()), beams[..i], targets)
      {
        assert beams[..i + 1][..i] == beams[..i];
        var s, k := AdvanceBeam(beams[i], targets);
        spent := spent + if s then [beams[i]] else [];
        killed := killed + if k.Some? then [k.value] else [];
        i := i + 1;
      }
      assert beams[..i] == beams;
    }

    method DropStore(c: Components)
      modifies this
      ensures Model() == DropPayload(old(Model()), c)
    {
      hide Adapter.SpawnKind;
      if c.cargo.store.Some? && c.cargo.store.value.payload > 0 {
        var id := SpawnKind(DATA_DROP, PositionOr0(c));
        if id in byId && byId[id] in entities && entities[byId[id]].cargo.drop.Some? {
          var e := byId[id];
          var cargo := entities[e].cargo.(drop := Some(c.cargo.store.value.payload));
          entities := entities[e := entities[e].(cargo := cargo)];
        }
      }
    }

    method TerminateEntity(e: Entity)
      modifies this
      ensures Model() == Terminate(old(Model()), e)
    {
      hide DropPayload, Despawn, SpawnLocal;
      if e in byEntity && e in entities {
        var c, n := entities[e], byEntity[e];
        DropStore(c);
        if c.clocks.training {
          SpawnUnnamed(REINIT);
        }
        var _ := DespawnNetworked(n);
      }
    }

    method HandleBeams(i: Inputs)
      modifies this
      ensures Model() == BeamStage(old(Model()), i)
    {
      hide Terminate, BeamAll, Spent, Killed, Despawn, RemoveLocal;
      var spent, killed := ProcessBeams(i.beams, i.targets);
      ghost var w1 := Model();
      var k := 0;
      while k < |killed|
        invariant 0 <= k <= |killed| && Model() == TerminateAll(w1, killed[..k])
      {
        assert killed[..k + 1][..k] == killed[..k];
        TerminateEntity(killed[k]);
        k := k + 1;
      }
      assert killed[..k] == killed;
      ghost var w2 := Model();
      k := 0;
      while k < |spent|
        invariant 0 <= k <= |spent| && Model() == RemoveBeams(w2, spent[..k])
      {
        assert spent[..k + 1][..k] == spent[..k];
        RemoveSpent(spent[k]);
        k := k + 1;
      }
      assert spent[..k] == spent;
    }

    method RemoveSpent(b: Entity)
      modifies this
      ensures Model() == RemoveBeam(old(Model()), b)
    {
      hide Despawn;
      if b in byEntity {
        var _ := DespawnNetworked(byEntity[b]);
      } else {
        entities := entities - {b};
      }
    }

    method SpawnBeams(shots: seq<Shot>)
      modifies this
      ensures Model() == ShootAll(old(Model()), shots)
    {
      hide Shoot;
      var i := 0;
      while i < |shots|
        invariant 0 <= i <= |shots| && Model() == ShootAll(old(Model()), shots[..i])
      {
        assert shots[..i + 1][..i] == shots[..i];
        SpawnBeam(shots[i]);
        i := i + 1;
      }
      assert shots[..i] == shots;
    }

    method SpawnBeam(s: Shot)
      modifies this
      ensures Model() == Shoot(old(Model()), s)
    {
      hide Adapter.SpawnKind;
      var id := SpawnKind(BEAM, s.at);
      if id in byId && byId[id] in entities && entities[byId[id]].gear.beam.Some? {
        var e := byId[id];
        var gear := entities[e].gear;
        entities := entities[e := entities[e].(gear := gear.(beam := Some(gear.beam.value.(owner := s.owner))))];
      }
    }

    method RemoveThese(xs: seq<Entity>)
      modifies `entities
      ensures Model() == RemoveAll(old(Model()), xs)
    {
      var i := 0;
      while i < |xs|
        invariant 0 <= i <= |xs| && Model() == RemoveAll(old(Model()), xs[..i])
      {
        assert xs[..i + 1][..i] == xs[..i];
        entities := entities - {xs[i]};
        i := i + 1;
      }
      assert xs[..i] == xs;
    }

    method ProcessRegen()
      modifies `entities
      ensures Model() == RegenerateAll(old(Model()))
    {
      hide Regenerate;
      Rewrite((e, c) => Regenerate(c));
    }

    method CollectDoneTimers(order: seq<Entity>) returns (done: seq<Entity>, places: seq<Position>)
      ensures done == DoneTimers(Model(), order) && places == TimerPlaces(Model(), done)
    {
      done, places := [], [];
      var k := 0;
      while k < |order|
        invariant 0 <= k <= |order|
        invariant done == DoneTimers(Model(), order[..k]) && places == TimerPlaces(Model(), done)
      {
        assert order[..k + 1][..k] == order[..k];
        var e := order[k];
        if e in entities && entities[e].clocks.timer.Some? && entities[e].clocks.timer.value.delay == 0 {
          done := done + [e];
          places := places + [entities[e].clocks.timer.value.at];
        }
        k := k + 1;
      }
      assert order[..k] == order;
    }

    /** Timers count down; those that reach zero go, and their targets come back. */
    method ProcessTargetReinitialization(i: Inputs)
      modifies this
      ensures Model() == ReinitStage(old(Model()), i)
    {
      hide TickTimer, DoneTimers, TimerPlaces, RemoveAll, Adapter.SpawnKind;
      Rewrite((e, c) => TickTimer(c));
      assert Model() == TickTimers(old(Model()));
      var done, places := CollectDoneTimers(i.timers);
      RemoveThese(done);
      ghost var w2 := Model();
      var k := 0;
      while k < |places|
        invariant 0 <= k <= |places| && Model() == SpawnTargets(w2, places[..k])
      {
        assert places[..k + 1][..k] == places[..k];
        var _ := SpawnKind(TRAINING_TARGET, places[k]);
        k := k + 1;
      }
      assert places[..k] == places;
    }

    method CollectDoneTrackers(order: seq<Entity>) returns (done: seq<Entity>, due: seq<ResourceRespawn>)
      ensures done == DoneTrackers(Model(), order) && due == TrackersAt(Model(), done)
    {
      done, due := [], [];
      var k := 0;
      while k < |order|
        invariant 0 <= k <= |order|
        invariant done == DoneTrackers(Model(), order[..k]) && due == TrackersAt(Model(), done)
      {
        assert order[..k + 1][..k] == order[..k];
        var e := order[k];
        if e in entities && entities[e].clocks.respawn.Some? && entities[e].clocks.respawn.value.remaining == 0 {
          done := done + [e];
          due := due + [entities[e].clocks.respawn.value];
        }
        k := k + 1;
      }
      assert order[..k] == order;
    }

    /** The same for the trackers of exhausted resources. */
    method ProcessRespawn(i: Inputs)
      modifies this
      ensures Model() == RespawnStage(old(Model()), i)
    {
      hide TickTracker, DoneTrackers, TrackersAt, RemoveAll, Respawn;
      Rewrite((e, c) => TickTracker(c));
      assert Model() == TickTrackers(old(Model()));
      var done, due := CollectDoneTrackers(i.trackers);
      RemoveThese(done);
      ghost var w2 := Model();
      var k := 0;
      while k < |due|
        invariant 0 <= k <= |due| && Model() == RespawnAll(w2, due[..k])
      {
        assert due[..k + 1][..k] == due[..k];
        RespawnResource(due[k]);
        k := k + 1;
      }
      assert due[..k] == due;
    }

    method RespawnResource(r: ResourceRespawn)
      modifies this
      ensures Model() == Respawn(old(Model()), r)
    {
      hide Adapter.SpawnKind;
      var id := SpawnKind(RESOURCE, r.at);
      if id in byId && byId[id] in entities && entities[byId[id]].cargo.resource.Some? {
        var e := byId[id];
        var cargo := entities[e].cargo.(resource := Some(Resource(r.capacity, r.capacity)));
        entities := entities[e := entities[e].(cargo := cargo)];
      }
    }

    /** One simulation step: what it does to the world is `Economy.Simulate`. */
    method Simulate(i: Inputs)
      modifies this
      ensures Model() == Economy.Simulate(old(Model()), i)
    {
      hide InputStage, ExtractStage, ExhaustStage, CollectStage, BeamStage, ShootAll, RegenerateAll, ReinitStage,
           RespawnStage;
      ProcessInput(i);
      ProcessExtraction(i);
      HandleResourceExhaustion(i);
      ProcessPayloadCollection(i);
      HandleBeams(i);
      SpawnBeams(i.shots);
      ProcessRegen();
      ProcessTargetReinitialization(i);
      ProcessRespawn(i);
    }
  }

  /** A hit on the pools of a target, and whether it terminates it. */
  method ApplyBeamHit(pools: Pools) returns (p: Pools, terminated: bool)
    ensures p == HitPools(pools) && terminated == Fatal(pools)
  {
    p, terminated := pools, false;
    var remaining := 25;
    if p.priority.Some? {
      var pool := p.priority.value;
      if pool.current >= remaining {
        p := p.(priority := Some(pool.(current := pool.current - remaining)));
        remaining := 0;
      } else {
        remaining := remaining - pool.current;
        p := p.(priority := Some(pool.(current := 0)));
      }
    }
    if remaining > 0 {
      if p.integrity.Some? {
        var pool := p.integrity.value;
        pool := pool.(current := if pool.current >= remaining then pool.current - remaining else 0);
        p := p.(integrity := Some(pool));
        terminated := pool.current == 0;
      } else if p.shell.Some? {
        var pool := p.shell.value;
        pool := pool.(current := if pool.current >= remaining then pool.current - remaining else 0);
        p := p.(shell := Some(pool));
        terminated := pool.current == 0;
      }
    }
  }

  /** A member wrapped into the bounds collected for its workspace. */
  function EncloseIn(bounds: map<NetworkId, Bounds>, c: Components): Components {
    if c.locale.position.Some? && c.locale.membership.Some? && c.locale.membership.value in bounds then
      MoveTo(c, WrapPosition(c.locale.position.value, bounds[c.locale.membership.value]))
    else c
  }

  ghost function WithOwners(w: World, owners: map<NetworkId, ClientId>): World {
    w.(net := w.net.(owners := owners))
  }

  ghost predicate KeepsId(replicator: Replicator) {
    forall t: nat, c: Components, p: Payload :: replicator(t, c, p).id == c.id
  }

  lemma SparesAt(reg: Registry, kind: nat)
    requires SparesServer(reg) && kind in reg
    ensures KeepsId(reg[kind])
  {}

  lemma ApplyNone(w: World, reg: Registry, ms: seq<Inbound>)
    ensures Updates.ApplyUpdates(w, reg, ms[..0]) == w
  {}

  lemma ApplySnoc(w: World, reg: Registry, ms: seq<Inbound>, i: nat)
    requires i < |ms|
    ensures Updates.ApplyUpdates(w, reg, ms[..i + 1]) == ApplyUpdate(Updates.ApplyUpdates(w, reg, ms[..i]), reg, ms[i])
  {
    assert ms[..i + 1][..i] == ms[..i];
  }

  /** `w` is `w0` without some of its named entities. */
  ghost predicate Emptying(w0: World, w: World) {
    && Tied(w) && w.net.nextEntity == w0.net.nextEntity && w.serverTick == w0.serverTick
    && (forall e | e in w.net.byEntity :: e in w0.net.byEntity)
    && (forall e :: e in w.entities <==> e in w0.entities && (e in w0.net.byEntity ==> e in w.net.byEntity))
    && (forall e | e in w.entities :: w.entities[e] == w0.entities[e])
  }

  lemma EmptyingStarts(w: World)
    requires Tied(w)
    ensures Emptying(w, w)
  {
    hide Tied;
  }

  lemma EmptyingStep(w0: World, w: World, n: NetworkId)
    requires Emptying(w0, w) && n in w.net.byId
    ensures Emptying(w0, Despawn(w, n)) && Despawn(w, n).net.byId.Keys == w.net.byId.Keys - {n}
  {
    hide Tied;
    LinkedAt(w, n);
    DespawnKeeps(w, n);
  }

  lemma EmptyingEnds(w0: World, w: World)
    requires Emptying(w0, w) && w.net.byId == map[]
    ensures w.net.byEntity == map[] && w.net.owners == map[]
    ensures w.net.nextEntity == w0.net.nextEntity && w.serverTick == w0.serverTick
    ensures w.entities == map e | e in w0.entities && e !in w0.net.byEntity :: w0.entities[e]
  {
    NothingNamed(w);
    hide Tied;
  }

  lemma FirstTargetHit(w: World, b: Entity, targets: seq<Entity>)
    requires IsBeam(w, b)
    ensures FirstTarget(w, b, targets).Some? ==>
      FirstTarget(w, b, targets).value in w.entities && FirstTarget(w, b, targets).value != b
  {}

  lemma NothingNamed(w: World)
    requires Tied(w) && w.net.byId == map[]
    ensures w.net.byEntity == map[] && w.net.owners == map[]
  {}
}
