/** ClearWorld resets the id allocator but only the issuer's record, so a record can come to name
    somebody else's entity. When exactly that can happen. */
module Aliasing {
  import opened Ecs
  import opened Adapter
  import opened Coherence
  import opened Upkeep
  import opened Updates
  import opened Session
  import opened Custody

  /** After a run without a clear, removing client `d` despawns an entity that is not its own. */
  ghost predicate Strikes(s: Server, cfg: Config, run: seq<Stage>, d: ClientId) {
    && (forall i | 0 <= i < |run| :: !Clears(run[i]))
    && exists e | e in DoAll(s, cfg, run).world.entities && e !in Drop(DoAll(s, cfg, run), d).world.entities ::
         DoAll(s, cfg, run).world.entities[e].id.owner != Some(d)
  }

  function SpawnRequest(c: ClientId): Stage {
    Receive(Message(c, true, Spawn(AGENT, ORIGIN)))
  }

  function Spawns(c: ClientId, k: nat): seq<Stage> {
    seq(k, _ => SpawnRequest(c))
  }

  lemma SpawnStage(s: Server, cfg: Config, c: ClientId)
    requires Tied(s.world) && Founded(s.world) && c in s.clients && Privileged(cfg, s.clients[c])
    ensures var s' := Do(s, cfg, SpawnRequest(c));
            && s' == s.(world := SpawnKindFor(s.world, AGENT, ORIGIN, c))
            && Tied(s'.world) && Founded(s'.world)
            && s'.world.net.nextId == s.world.net.nextId + if s.world.net.nextId == 1 then 3 else 1
  {
    hide Tied, Coherent, SpawnKind;
    SpawnForKeeps(s.world, AGENT, ORIGIN, c);
    SpawnKindTakes(s.world, AGENT, ORIGIN);
    hide MasterOf;
  }

  /** The ids that spawns take after a clear: 1, and from then on 4, 5, and so on. */
  lemma {:induction false} SpawnRun(s: Server, cfg: Config, c: ClientId, k: nat)
    requires Tied(s.world) && Founded(s.world) && s.world.net.nextId == 1
    requires c in s.clients && Privileged(cfg, s.clients[c])
    ensures var s' := DoAll(s, cfg, Spawns(c, k));
            && s'.clients == s.clients && Tied(s'.world) && Founded(s'.world)
            && s'.world.net.nextId == if k == 0 then 1 else 3 + k
    decreases k
  {
    hide Tied, Founded, Do;
    if k > 0 {
      var run := Spawns(c, k);
      assert run[..k - 1] == Spawns(c, k - 1) && run[k - 1] == SpawnRequest(c);
      SpawnRun(s, cfg, c, k - 1);
      SpawnStage(DoAll(s, cfg, run[..k - 1]), cfg, c);
    }
  }

  /** The entity that takes the id on `d`'s record is despawned when `d` leaves. */
  lemma LastSpawned(s: Server, cfg: Config, c: ClientId, d: ClientId)
    requires Tied(s.world) && Founded(s.world) && c in s.clients
    requires d in s.clients && c != d && Privileged(cfg, s.clients[c])
    requires s.clients[d].agent == Some(s.world.net.nextId)
    ensures var s' := Do(s, cfg, SpawnRequest(c));
            && NewEntity(s.world) in s'.world.entities && s'.world.entities[NewEntity(s.world)].id.owner == Some(c)
            && NewEntity(s.world) !in Drop(s', d).world.entities
  {
    hide Tied, Founded, SpawnKindFor, KindAt, HomeOf;
    SpawnStage(s, cfg, c);
    SpawnForKeeps(s.world, AGENT, ORIGIN, c);
  }

  lemma CanStrike(s: Server, cfg: Config, c: ClientId, d: ClientId)
    requires Tied(s.world) && Settled(s) && s.world.net.nextId == 1
    requires c in s.clients && Privileged(cfg, s.clients[c]) && d in s.clients && c != d && s.clients[d].agent.Some?
    ensures exists run :: Strikes(s, cfg, run, d)
  {
    hide Tied, Founded, Do, Drop, NewEntity;
    var n := s.clients[d].agent.value;
    var k := if n == 1 then 0 else n - 3;
    assert n == 1 || n >= 4;
    SpawnRun(s, cfg, c, k);
    var s1, run := DoAll(s, cfg, Spawns(c, k)), Spawns(c, k + 1);
    assert run[..k] == Spawns(c, k) && run[k] == SpawnRequest(c);
    assert DoAll(s, cfg, run) == Do(s1, cfg, SpawnRequest(c));
    LastSpawned(s1, cfg, c, d);
    assert Strikes(s, cfg, run, d);
  }

  lemma ClearedSettled(s: Server, c: ClientId)
    requires Tied(s.world) && Settled(s) && c in s.clients
    ensures Tied(ClearBy(s, c).world) && Settled(ClearBy(s, c)) && ClearBy(s, c).world.net.nextId == 1
  {
    hide Tied, Settled;
    ClearByKeeps(s, c);
  }

  lemma ClearedClients(s: Server, cfg: Config, c: ClientId)
    requires c in s.clients
    ensures c in ClearBy(s, c).clients && Privileged(cfg, ClearBy(s, c).clients[c]) == Privileged(cfg, s.clients[c])
    ensures forall d | d in s.clients && d != c ::
            d in ClearBy(s, c).clients && ClearBy(s, c).clients[d] == s.clients[d]
  {}

  lemma NoStrike(s: Server, cfg: Config, run: seq<Stage>, d: ClientId)
    requires SparesServer(cfg.registry) && Tied(s.world) && Exclusive(s.world, s.clients)
    ensures !Strikes(s, cfg, run, d)
  {
    if forall i | 0 <= i < |run| :: !Clears(run[i]) {
      RunExclusive(s, cfg, run);
      hide Tied, Exclusive, SparesServer, Drop;
      var s' := DoAll(s, cfg, run);
      forall e | e in s'.world.entities && e !in Drop(s', d).world.entities
        ensures s'.world.entities[e].id.owner == Some(d)
      {
        DropSparesOthers(s', d, e);
      }
    }
  }

  /** After a clear, some continuation lets the removal of a client despawn an entity that is not
      its own, exactly when a client other than the issuer had an agent on record. */
  lemma ClearAliasIff(s: Server, cfg: Config, c: ClientId)
    requires SparesServer(cfg.registry) && Tied(s.world) && Settled(s)
    requires c in s.clients && Privileged(cfg, s.clients[c])
    ensures (exists run, d :: Strikes(ClearBy(s, c), cfg, run, d))
       <==> exists d | d in s.clients && d != c :: s.clients[d].agent.Some?
  {
    hide Tied, Settled, Exclusive, SparesServer, Strikes, Clear, ClearBy, Drop, DoAll;
    var s1 := ClearBy(s, c);
    ClearedSettled(s, c);
    ClearExclusiveIff(s, c);
    ClearedClients(s, cfg, c);
    if d :| d in s.clients && d != c && s.clients[d].agent.Some? {
      CanStrike(s1, cfg, c, d);
    } else {
      forall run, d ensures !Strikes(s1, cfg, run, d) {
        NoStrike(s1, cfg, run, d);
      }
    }
  }

  /** Such a state is reachable: an administrator and a second client with an agent. */
  lemma AliasingReachable(cfg: Config)
    requires SparesServer(cfg.registry)
    ensures exists before, run, d :: Strikes(ClearBy(DoAll(START, cfg, before), 1), cfg, run, d)
  {
    hide Tied, Settled, SparesServer, InputUpdate, Strikes, DoAll, ClearBy;
    var s := DoAll(START, cfg, ADMIN_AND_AGENT);
    RunSettled(cfg, ADMIN_AND_AGENT);
    TwoClients(cfg);
    ClearAliasIff(s, cfg, 1);
    var run, d :| Strikes(ClearBy(s, 1), cfg, run, d);
  }

  const ADMIN_AND_AGENT: seq<Stage> := [
    Receive(Message(1, true, Auth(Some(Credentials(1, "admin"))))),
    Receive(Message(2, true, Auth(Some(Credentials(2, ""))))),
    Receive(Message(2, true, StartSession))]

  lemma ThreeStages(s: Server, cfg: Config, run: seq<Stage>)
    requires |run| == 3
    ensures DoAll(s, cfg, run) == Do(Do(Do(s, cfg, run[0]), cfg, run[1]), cfg, run[2])
  {
    hide Do;
    assert run[..2][..1][..0] == [];
    assert DoAll(s, cfg, run[..2][..1]) == Do(s, cfg, run[0]);
    assert DoAll(s, cfg, run[..2]) == Do(Do(s, cfg, run[0]), cfg, run[1]);
  }

  lemma LoginStage(s: Server, cfg: Config, c: ClientId, who: Credentials)
    requires c !in s.clients && forall d | d in s.clients :: s.clients[d].player != who.player
    ensures Do(s, cfg, Receive(Message(c, true, Auth(Some(who))))).clients
            == s.clients[c := Client(who.player, who.jti, None)]
  {
    hide DespawnSet;
    assert Ghosts(s.clients, c, who.player) == {};
  }

  lemma BeginStage(s: Server, cfg: Config, c: ClientId)
    requires c in s.clients && s.clients[c].agent.None?
    ensures Do(s, cfg, Receive(Message(c, true, StartSession))).clients
         == s.clients[c := s.clients[c].(agent := Some(s.world.net.nextId))]
  {
    hide SpawnSessionAgent;
  }

  lemma TwoClients(cfg: Config)
    ensures var cs := DoAll(START, cfg, ADMIN_AND_AGENT).clients;
            1 in cs && 2 in cs && Privileged(cfg, cs[1]) && cs[2].agent.Some?
  {
    hide DoAll, Do;
    ThreeStages(START, cfg, ADMIN_AND_AGENT);
    var s1 := Do(START, cfg, ADMIN_AND_AGENT[0]);
    LoginStage(START, cfg, 1, Credentials(1, "admin"));
    LoginStage(s1, cfg, 2, Credentials(2, ""));
    BeginStage(Do(s1, cfg, ADMIN_AND_AGENT[1]), cfg, 2);
  }
}
