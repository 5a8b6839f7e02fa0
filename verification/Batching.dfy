/** Grouping the deltas of a tick by client, against the filter a client should see. */
module Batching {
  import opened Ecs
  import opened Adapter
  import opened Coherence

  datatype Delta = Delta(id: NetworkId, kind: nat, payload: seq<nat>)

  datatype DeltaTargets = Broadcast | Recipients(ids: seq<ClientId>) | NoRecipients

  type Batches = map<ClientId, seq<Delta>>

  /** A client sees an entity that has no workspace, or shares the client's. */
  predicate Visible(w: World, c: ClientId, n: NetworkId) {
    EntityWorkspace(w, n).None? || EntityWorkspace(w, n) == ClientWorkspace(w, c)
  }

  /** The deltas a client sees, in order. */
  function Seen(w: World, c: ClientId, ds: seq<Delta>): seq<Delta> {
    if ds == [] then []
    else
      var d := ds[|ds| - 1];
      Seen(w, c, ds[..|ds| - 1]) + if Visible(w, c, d.id) then [d] else []
  }

  /** Every visible delta as often as it was produced, and no other. */
  lemma {:induction false} SeenCounts(w: World, c: ClientId, ds: seq<Delta>, d: Delta)
    ensures multiset(Seen(w, c, ds))[d] == if Visible(w, c, d.id) then multiset(ds)[d] else 0
    decreases |ds|
  {
    if ds != [] {
      var last, ds' := ds[|ds| - 1], ds[..|ds| - 1];
      SeenCounts(w, c, ds', d);
      assert ds == ds' + [last];
    }
  }

  /** The live entity with this id and the workspace it belongs to. */
  predicate LivesIn(w: World, n: NetworkId, ws: NetworkId) {
    n in w.net.byId && w.net.byId[n] in w.entities && w.entities[w.net.byId[n]].locale.membership == Some(ws)
  }

  /** A delta is withheld from a client exactly when the entity lives in another workspace than the
      client's: the one the index has for it, or else the master. */
  lemma {:induction false} WithheldIff(w: World, c: ClientId, ds: seq<Delta>, d: Delta)
    requires d in ds
    ensures d !in Seen(w, c, ds) <==>
              exists ws: NetworkId :: LivesIn(w, d.id, ws)
                && (if c in w.net.clientWorkspaces then w.net.clientWorkspaces[c] != ws else MasterOf(w) != Some(ws))
  {
    hide MasterOf;
    SeenCounts(w, c, ds, d);
    if EntityWorkspace(w, d.id).Some? { assert LivesIn(w, d.id, EntityWorkspace(w, d.id).value); }
  }

  /** In a coherent world the index and the scan name the one workspace there is. */
  lemma CoherentVisible(w: World, c: ClientId, n: NetworkId)
    requires Coherent(w)
    ensures ClientWorkspace(w, c) == MasterOf(w) && Visible(w, c, n)
  {
    IndexedClients(ShapesOf(w.entities), w.net);
    hide Linked, Indexed, AllKinded, MasterIn;
    if n in w.net.byId && w.net.byId[n] in w.entities {
      var e := w.net.byId[n];
      assert ShapesOf(w.entities)[e] == ShapeOf(w.entities[e]);
    }
  }

  /** So every client is sent every delta. */
  lemma {:induction false} CoherentSeesAll(w: World, c: ClientId, ds: seq<Delta>)
    requires Coherent(w)
    ensures Seen(w, c, ds) == ds
    decreases |ds|
  {
    hide Coherent, Visible;
    if ds != [] {
      CoherentSeesAll(w, c, ds[..|ds| - 1]);
      CoherentVisible(w, c, ds[|ds| - 1].id);
    }
  }

  function BatchOf(batches: Batches, c: ClientId): seq<Delta> {
    if c in batches then batches[c] else []
  }

  /** One delta appended to the batch of everyone it is addressed to. */
  ghost predicate Extends(batches: Batches, batches': Batches, to: seq<ClientId>, d: Delta) {
    forall c: ClientId :: Get(batches', c) == if c in to then Some(BatchOf(batches, c) + [d]) else Get(batches, c)
  }

  /** A client's batch: its filter, if it is authenticated and the filter is not empty. */
  function Due(w: World, clients: seq<ClientId>, ds: seq<Delta>, c: ClientId): Option<seq<Delta>> {
    if c in clients && Seen(w, c, ds) != [] then Some(Seen(w, c, ds)) else None
  }

  ghost predicate Grouped(w: World, clients: seq<ClientId>, ds: seq<Delta>, batches: Batches) {
    forall c: ClientId :: Get(batches, c) == Due(w, clients, ds, c)
  }

  method GetDeltaTargets(w: World, clients: seq<ClientId>, n: NetworkId) returns (targets: DeltaTargets)
    ensures targets.Broadcast? ==> forall c | c in clients :: Visible(w, c, n)
    ensures targets.Recipients? ==>
      && (forall c :: c in targets.ids <==> c in clients && Visible(w, c, n))
      && (Distinct(clients) ==> Distinct(targets.ids))
    ensures targets.NoRecipients? ==> forall c | c in clients :: !Visible(w, c, n)
  {
    var workspace := EntityWorkspace(w, n);
    if workspace.None? {
      return Broadcast;
    }
    var recipients := [];
    var i := 0;
    while i < |clients|
      invariant 0 <= i <= |clients|
      invariant forall c :: c in recipients <==> c in clients[..i] && Visible(w, c, n)
      invariant Distinct(clients) ==> Distinct(recipients)
    {
      assert clients[..i + 1] == clients[..i] + [clients[i]];
      if ClientWorkspace(w, clients[i]) == workspace {
        assert Distinct(clients) ==> clients[i] !in clients[..i];
        recipients := recipients + [clients[i]];
      }
      i := i + 1;
    }
    assert clients[..i] == clients;
    targets := if recipients == [] then NoRecipients else Recipients(recipients);
    assert recipients != [] ==> recipients[0] in recipients;
  }

  method Append(batches: Batches, to: seq<ClientId>, d: Delta) returns (r: Batches)
    requires Distinct(to)
    ensures Extends(batches, r, to, d)
  {
    r := batches;
    var i := 0;
    while i < |to|
      invariant 0 <= i <= |to|
      invariant Extends(batches, r, to[..i], d)
    {
      var c := to[i];
      assert c !in to[..i] && to[..i + 1] == to[..i] + [c];
      assert Get(r, c) == Get(batches, c);
      r := r[c := BatchOf(r, c) + [d]];
      i := i + 1;
    }
    assert to[..i] == to;
  }

  lemma ExtendsGroups(
    w: World, clients: seq<ClientId>, ds: seq<Delta>, d: Delta, batches: Batches, batches': Batches, to: seq<ClientId>)
    requires Grouped(w, clients, ds, batches) && Extends(batches, batches', to, d)
    requires forall c :: c in to <==> c in clients && Visible(w, c, d.id)
    ensures Grouped(w, clients, ds + [d], batches')
  {
    hide Visible;
    forall c: ClientId
      ensures Get(batches', c) == Due(w, clients, ds + [d], c)
    {
      SeenSnoc(w, c, ds, d);
      assert Get(batches, c) == Due(w, clients, ds, c);
      assert c in to <==> c in clients && Visible(w, c, d.id);
      assert c in clients ==> BatchOf(batches, c) == Seen(w, c, ds);
      assert Get(batches', c) == if c in to then Some(BatchOf(batches, c) + [d]) else Get(batches, c);
      assert Seen(w, c, ds) + [] == Seen(w, c, ds);
    }
  }

  lemma SeenSnoc(w: World, c: ClientId, ds: seq<Delta>, d: Delta)
    ensures Seen(w, c, ds + [d]) == Seen(w, c, ds) + if Visible(w, c, d.id) then [d] else []
  {
    hide Visible;
    var all := ds + [d];
    assert all[..|all| - 1] == ds && all[|all| - 1] == d;
  }

  /** Each authenticated client's batch is its filter of the deltas, in order; a client with an
      empty filter gets no batch, and nobody else does. */
  method GroupByClient(w: World, clients: seq<ClientId>, deltas: seq<Delta>) returns (batches: Batches)
    requires Distinct(clients)
    ensures Grouped(w, clients, deltas, batches)
  {
    batches := map[];
    var i := 0;
    while i < |deltas|
      invariant 0 <= i <= |deltas|
      invariant Grouped(w, clients, deltas[..i], batches)
    {
      var d := deltas[i];
      var targets := GetDeltaTargets(w, clients, d.id);
      var to := match targets
        case Broadcast => clients
        case Recipients(ids) => ids
        case NoRecipients => [];
      var extended := Append(batches, to, d);
      ExtendsGroups(w, clients, deltas[..i], d, batches, extended, to);
      assert deltas[..i + 1] == deltas[..i] + [d];
      batches := extended;
      i := i + 1;
    }
    assert deltas[..i] == deltas;
  }
}
