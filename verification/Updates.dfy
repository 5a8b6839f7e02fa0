/** Inbound component updates: what they do to the world, stated without any cache, and what they
    keep. */
module Updates {
  import opened Ecs
  import opened Adapter
  import opened Coherence
  import opened Upkeep
  import AntiReplay
  import Economy

  type Payload = seq<nat>

  datatype ComponentUpdate = ComponentUpdate(id: NetworkId, kind: nat, payload: Payload)

  datatype Inbound = Inbound(client: ClientId, update: ComponentUpdate)

  /** What a payload does to an entity's components, at a server tick. */
  type Replicator = (nat, Components, Payload) -> Components

  type Registry = map<nat, Replicator>

  /** The id is live and its NetworkOwner component is the sender. */
  predicate Authorized(w: World, m: Inbound) {
    && m.update.id in w.net.byId && w.net.byId[m.update.id] in w.entities
    && w.entities[w.net.byId[m.update.id]].id.owner == Some(m.client)
  }

  function ApplyUpdate(w: World, reg: Registry, m: Inbound): World {
    if Authorized(w, m) && m.update.kind in reg then
      var e := w.net.byId[m.update.id];
      Put(w, e, reg[m.update.kind](w.serverTick, w.entities[e], m.update.payload))
    else w
  }

  function ApplyUpdates(w: World, reg: Registry, ms: seq<Inbound>): World {
    if ms == [] then w else ApplyUpdate(ApplyUpdates(w, reg, ms[..|ms| - 1]), reg, ms[|ms| - 1])
  }

  // ---- Registries ----------------------------------------------------------

  /** No replicator writes what only the server writes: ids, owners, session markers, respawns. */
  ghost predicate SparesServer(reg: Registry) {
    forall k, t: nat, c: Components, p: Payload | k in reg ::
      reg[k](t, c, p).id == c.id && reg[k](t, c, p).clocks == c.clocks
  }

  predicate InputWrite(c: Components, c': Components) {
    c' == c.(gear := c.gear.(input := c'.gear.input))
  }

  /** The update is of no registered kind, or writes at most the latest input. */
  ghost predicate InputUpdate(reg: Registry, u: ComponentUpdate) {
    u.kind in reg ==> forall t: nat, c: Components :: InputWrite(c, reg[u.kind](t, c, u.payload))
  }

  ghost predicate InputUpdates(reg: Registry, ms: seq<Inbound>) {
    forall i | 0 <= i < |ms| :: InputUpdate(reg, ms[i].update)
  }

  /** The replicator for input commands: only the session agent of an owner takes them. */
  function TakeInput(decode: Payload -> Option<InputCommand>): Replicator {
    (t: nat, c: Components, p: Payload) =>
      if c.id.owner.None? || !c.id.session || decode(p).None? then c
      else c.(gear := c.gear.(input := AntiReplay.ApplyCommand(c.gear.input, t, decode(p).value)))
  }

  /** Updates of this kind carry input commands. */
  ghost predicate TakesInputs(reg: Registry, kind: nat, decode: Payload -> Option<InputCommand>) {
    && kind in reg
    && (forall t: nat, c: Components, p: Payload :: reg[kind](t, c, p) == TakeInput(decode)(t, c, p))
  }

  /** Whatever else is registered, a command is an input update. */
  lemma CommandIsInput(reg: Registry, kind: nat, decode: Payload -> Option<InputCommand>, u: ComponentUpdate)
    requires TakesInputs(reg, kind, decode) && u.kind == kind
    ensures InputUpdate(reg, u)
  {
    forall t: nat, c: Components
      ensures InputWrite(c, reg[u.kind](t, c, u.payload))
    {
      assert reg[kind](t, c, u.payload) == TakeInput(decode)(t, c, u.payload);
    }
  }

  /** An agent's input and beam change as the anti-replay runs say: a command that arrives, and a
      simulate call that acts on the latest one. */
  lemma InputIsCommand(c: Components, t: nat, p: Payload, decode: Payload -> Option<InputCommand>)
    requires c.id.owner.Some? && c.id.session && decode(p).Some? && c.gear.extractor.Some?
    ensures var m := AntiReplay.Memory(c.gear.input, c.gear.extractor.value);
            && TakeInput(decode)(t, c, p).gear.input
            == AntiReplay.Step(m, AntiReplay.Command(t, decode(p).value)).latest
            && Economy.Toggle(c).gear.extractor == Some(AntiReplay.Step(m, AntiReplay.Simulated).beam)
  {}

  // ---- What updates keep ---------------------------------------------------

  /** The same identities and pending respawns. */
  ghost predicate SameServerSide(s: Shapes, s': Shapes) {
    && s.Keys == s'.Keys
    && forall e | e in s :: s'[e].id == s[e].id && s'[e].tracker == s[e].tracker && s'[e].timer == s[e].timer
  }

  lemma LinkedSame(s: Shapes, s': Shapes, net: Net)
    requires Linked(s, net) && SameServerSide(s, s')
    ensures Linked(s', net) && Ages(s, net, s', net)
  {
    assert Bijective(s', net);
    assert OwnersCached(s', net);
  }

  lemma {:induction false} UpdatesSpareServer(w: World, reg: Registry, ms: seq<Inbound>)
    requires SparesServer(reg)
    ensures var w' := ApplyUpdates(w, reg, ms);
            && w'.net == w.net && w'.serverTick == w.serverTick && w'.entities.Keys == w.entities.Keys
            && forall e | e in w.entities ::
               w'.entities[e].id == w.entities[e].id && w'.entities[e].clocks == w.entities[e].clocks
    decreases |ms|
  {
    if ms != [] {
      UpdatesSpareServer(w, reg, ms[..|ms| - 1]);
    }
  }

  /** An entity that none of the senders owns is left exactly as it was. */
  lemma {:induction false} UpdatesTouchOwn(w: World, reg: Registry, ms: seq<Inbound>, e: Entity)
    requires SparesServer(reg) && e in w.entities
    requires forall k | 0 <= k < |ms| :: w.entities[e].id.owner != Some(ms[k].client)
    ensures e in ApplyUpdates(w, reg, ms).entities && ApplyUpdates(w, reg, ms).entities[e] == w.entities[e]
    decreases |ms|
  {
    if ms != [] {
      UpdatesSpareServer(w, reg, ms[..|ms| - 1]);
      hide SparesServer;
      UpdatesTouchOwn(w, reg, ms[..|ms| - 1], e);
    }
  }

  /** Whatever clients send, ids, owners and the bimap stay tied together. */
  lemma UpdatesTied(w: World, reg: Registry, ms: seq<Inbound>)
    requires Tied(w) && SparesServer(reg)
    ensures Tied(ApplyUpdates(w, reg, ms)) && Succeeds(w, ApplyUpdates(w, reg, ms))
  {
    UpdatesSpareServer(w, reg, ms);
    hide Linked, Ages;
    LinkedSame(ShapesOf(w.entities), ShapesOf(ApplyUpdates(w, reg, ms).entities), w.net);
  }

  lemma {:induction false} InputsRetouch(w: World, reg: Registry, ms: seq<Inbound>)
    requires InputUpdates(reg, ms)
    ensures Retouched(w, ApplyUpdates(w, reg, ms))
    decreases |ms|
  {
    if ms != [] {
      var w1, m := ApplyUpdates(w, reg, ms[..|ms| - 1]), ms[|ms| - 1];
      InputsRetouch(w, reg, ms[..|ms| - 1]);
      if Authorized(w1, m) && m.update.kind in reg {
        var e := w1.net.byId[m.update.id];
        var c := reg[m.update.kind](w1.serverTick, w1.entities[e], m.update.payload);
        assert InputWrite(w1.entities[e], c);
        assert ShapeOf(c) == ShapeOf(w1.entities[e]);
        PutRetouches(w, w1, e, c);
      }
    }
  }

  /** If they write inputs only, updates keep the whole of the adapter's coherence. */
  lemma InputsKeep(w: World, reg: Registry, ms: seq<Inbound>)
    requires Tied(w) && InputUpdates(reg, ms)
    ensures Keeps(w, ApplyUpdates(w, reg, ms))
  {
    InputsRetouch(w, reg, ms);
    RetouchedKeeps(w, ApplyUpdates(w, reg, ms));
  }

  // ---- The owner cache -----------------------------------------------------

  /** What the cache says, the NetworkOwner components say. */
  ghost predicate CacheSound(w: World) {
    forall n | n in w.net.owners && n in w.net.byId && w.net.byId[n] in w.entities ::
      w.entities[w.net.byId[n]].id.owner == Some(w.net.owners[n])
  }

  /** Every owner is cached. */
  ghost predicate CacheFull(w: World) {
    forall n | n in w.net.byId && w.net.byId[n] in w.entities && w.entities[w.net.byId[n]].id.owner.Some? ::
      n in w.net.owners
  }

  lemma TiedCache(w: World)
    requires Tied(w)
    ensures CacheSound(w) && CacheFull(w)
  {
    forall n | n in w.net.byId && w.net.byId[n] in w.entities
      ensures w.entities[w.net.byId[n]].id.owner == Get(w.net.owners, n)
    {
      var e := w.net.byId[n];
      assert ShapesOf(w.entities)[e] == ShapeOf(w.entities[e]);
    }
  }
}
