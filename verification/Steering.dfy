/** The commands and simulate calls of a server run, as one session agent sees them: the run acts on
    the agent's latest input and extraction beam exactly as the anti-replay runs do. */
module Steering {
  import opened Ecs
  import opened Adapter
  import opened Coherence
  import opened Economy
  import opened Upkeep
  import opened Updates
  import opened Session
  import opened Custody
  import opened Frames
  import opened AntiReplay

  /** A session agent with an extraction beam. */
  predicate Steerable(w: World, e: Entity) {
    && e in w.entities && w.entities[e].id.session && w.entities[e].id.owner.Some?
    && w.entities[e].gear.extractor.Some?
  }

  function MemoryOf(w: World, e: Entity): Memory
    requires Steerable(w, e)
  {
    Memory(w.entities[e].gear.input, w.entities[e].gear.extractor.value)
  }

  /** The validation pass of a simulate call switches the beam off. */
  predicate Fails(w: World, i: Inputs, e: Entity) {
    e in i.extractors && Validate(InputStage(w, i), e, i.sqrt).Disable?
  }

  function CallEvents(w: World, i: Inputs, e: Entity): seq<AntiReplay.Event> {
    [Simulated] + if Fails(w, i, e) then [Disabled] else []
  }

  lemma InputControls(w: World, i: Inputs, e: Entity)
    requires Steerable(w, e)
    ensures var w' := InputStage(w, i);
            && w'.net == w.net && Steerable(w', e) && w'.entities[e].id == w.entities[e].id
            && MemoryOf(w', e) == AntiReplay.Step(MemoryOf(w, e), Simulated)
  {
    hide BoundsFor, WrapPosition, ToggleBeam;
    var w1 := MoveAll(w, i.moved);
    assert SameControls(w.entities[e], w1.entities[e]);
    assert SameControls(w1.entities[e], EncloseAll(w1).entities[e]);
  }

  lemma DisableControls(w: World, order: seq<Entity>, sqrt: real -> real, e: Entity)
    requires Steerable(w, e)
    ensures var w' := DisableAll(w, order, sqrt);
            && w'.net == w.net && Steerable(w', e) && w'.entities[e].id == w.entities[e].id
            && MemoryOf(w', e)
            == if e in order && Validate(w, e, sqrt).Disable? then AntiReplay.Step(MemoryOf(w, e), Disabled)
               else MemoryOf(w, e)
  {
    hide Validate;
  }

  /** A simulate call that the agent survives acts on its controls as its events say. */
  lemma SimulateSteers(w: World, i: Inputs, e: Entity)
    requires Steerable(w, e) && e < w.net.nextEntity && e in Simulate(w, i).entities
    ensures Steerable(Simulate(w, i), e) && Simulate(w, i).entities[e].id == w.entities[e].id
    ensures MemoryOf(Simulate(w, i), e) == StepAll(MemoryOf(w, e), CallEvents(w, i, e))
  {
    hide InputStage, DisableAll, Validate, Simulate, AntiReplay.Step;
    var w1 := InputStage(w, i);
    InputControls(w, i, e);
    DisableControls(w1, i.extractors, i.sqrt, e);
    RestFrame(ControlPart, w, i, e);
    var es := CallEvents(w, i, e);
    assert es[0] == Simulated && es[1..] == if Fails(w, i, e) then [Disabled] else [];
    assert [Disabled][1..] == [];
    assert StepAll(MemoryOf(w1, e), [Disabled]) == StepAll(AntiReplay.Step(MemoryOf(w1, e), Disabled), []);
  }

  // ---- Inbound updates -----------------------------------------------------

  /** The update is of the kind of commands, of no registered kind, or leaves the controls alone. */
  ghost predicate ControlUpdate(reg: Registry, kind: nat, u: ComponentUpdate) {
    u.kind in reg && u.kind != kind ==> forall t: nat, c: Components :: SameControls(c, reg[u.kind](t, c, u.payload))
  }

  ghost predicate ControlUpdates(reg: Registry, kind: nat, ms: seq<Inbound>) {
    forall i | 0 <= i < |ms| :: ControlUpdate(reg, kind, ms[i].update)
  }

  /** The update is a command for `e` from its owner. */
  predicate Commands(w: World, kind: nat, decode: Payload -> Option<InputCommand>, m: Inbound, e: Entity) {
    && Authorized(w, m) && w.net.byId[m.update.id] == e
    && m.update.kind == kind && decode(m.update.payload).Some?
  }

  function CommandEvents(w: World, kind: nat, decode: Payload -> Option<InputCommand>, ms: seq<Inbound>, e: Entity)
    : seq<AntiReplay.Event>
  {
    if ms == [] then []
    else
      var m := ms[|ms| - 1];
      CommandEvents(w, kind, decode, ms[..|ms| - 1], e)
      + if Commands(w, kind, decode, m, e) then [Command(w.serverTick, decode(m.update.payload).value)] else []
  }

  lemma UpdateSteers(w: World, reg: Registry, kind: nat, decode: Payload -> Option<InputCommand>, m: Inbound, e: Entity)
    requires SparesServer(reg) && TakesInputs(reg, kind, decode) && ControlUpdate(reg, kind, m.update)
    requires Steerable(w, e)
    ensures Steerable(ApplyUpdate(w, reg, m), e)
    ensures MemoryOf(ApplyUpdate(w, reg, m), e)
         == if Commands(w, kind, decode, m, e)
            then AntiReplay.Step(MemoryOf(w, e), Command(w.serverTick, decode(m.update.payload).value))
            else MemoryOf(w, e)
  {
    hide ApplyCommand;
  }

  lemma {:induction false} UpdatesSteer(
    w: World, reg: Registry, kind: nat, decode: Payload -> Option<InputCommand>, ms: seq<Inbound>, e: Entity)
    requires SparesServer(reg) && TakesInputs(reg, kind, decode) && ControlUpdates(reg, kind, ms) && Steerable(w, e)
    ensures Steerable(ApplyUpdates(w, reg, ms), e)
    ensures MemoryOf(ApplyUpdates(w, reg, ms), e) == StepAll(MemoryOf(w, e), CommandEvents(w, kind, decode, ms, e))
    decreases |ms|
  {
    hide SparesServer, TakesInputs, ControlUpdate, ApplyUpdate, AntiReplay.Step;
    if ms != [] {
      var w1, m := ApplyUpdates(w, reg, ms[..|ms| - 1]), ms[|ms| - 1];
      UpdatesSteer(w, reg, kind, decode, ms[..|ms| - 1], e);
      UpdatesSpareServer(w, reg, ms[..|ms| - 1]);
      UpdateSteers(w1, reg, kind, decode, m, e);
      assert Commands(w1, kind, decode, m, e) == Commands(w, kind, decode, m, e);
      OneMoreEvent(MemoryOf(w, e), CommandEvents(w, kind, decode, ms[..|ms| - 1], e),
                   Command(w.serverTick, if decode(m.update.payload).Some? then decode(m.update.payload).value
                                         else InputCommand(0, [])));
    }
  }

  lemma OneMoreEvent(m: Memory, es: seq<AntiReplay.Event>, v: AntiReplay.Event)
    ensures StepAll(m, es + [v]) == AntiReplay.Step(StepAll(m, es), v)
    ensures es + [] == es
  {
    hide AntiReplay.Step;
    StepAllMore(m, es, [v]);
    assert [v][1..] == [];
  }

  /** No replicator takes a component away. */
  ghost predicate Lasting(reg: Registry) {
    forall k, t: nat, c: Components, p: Payload | k in reg :: Wears(c, reg[k](t, c, p))
  }

  /** The server's registry: one replicator for input commands, and others that insert a component
      which is not server-only. It takes nothing away and writes nothing that is server-only. */
  lemma PlatformRegistry(reg: Registry, kind: nat, decode: Payload -> Option<InputCommand>)
    requires TakesInputs(reg, kind, decode)
    requires forall k, t: nat, c: Components, p: Payload | k in reg && k != kind :: AddsOnly(c, reg[k](t, c, p))
    ensures SparesServer(reg) && Lasting(reg)
  {
    hide Wears;
    forall k, t: nat, c: Components, p: Payload | k in reg
      ensures AddsOnly(c, reg[k](t, c, p))
    {
      if k == kind {
        CommandInserts(decode, t, c, p);
        assert reg[k](t, c, p) == TakeInput(decode)(t, c, p);
      }
    }
  }

  /** What inserting a component does that is not server-only. */
  predicate AddsOnly(c: Components, c': Components) {
    Wears(c, c') && c'.id == c.id && c'.clocks == c.clocks
  }

  lemma CommandInserts(decode: Payload -> Option<InputCommand>, t: nat, c: Components, p: Payload)
    ensures AddsOnly(c, TakeInput(decode)(t, c, p))
  {
    hide ApplyCommand;
    if c.id.owner.None? || !c.id.session || decode(p).None? {
      assert TakeInput(decode)(t, c, p) == c;
    } else {
      var input := ApplyCommand(c.gear.input, t, decode(p).value);
      assert TakeInput(decode)(t, c, p) == c.(gear := c.gear.(input := input));
    }
  }

  lemma {:induction false} UpdatesWear(w: World, reg: Registry, ms: seq<Inbound>, e: Entity)
    requires SparesServer(reg) && Lasting(reg) && e in w.entities
    ensures e in ApplyUpdates(w, reg, ms).entities && Wears(w.entities[e], ApplyUpdates(w, reg, ms).entities[e])
    decreases |ms|
  {
    hide SparesServer;
    if ms != [] {
      var w1, m := ApplyUpdates(w, reg, ms[..|ms| - 1]), ms[|ms| - 1];
      UpdatesWear(w, reg, ms[..|ms| - 1], e);
      UpdateWears(w1, reg, m, e);
      WearsStill(w.entities[e], w1.entities[e], ApplyUpdate(w1, reg, m).entities[e]);
    }
  }

  lemma UpdateWears(w: World, reg: Registry, m: Inbound, e: Entity)
    requires Lasting(reg) && e in w.entities
    ensures e in ApplyUpdate(w, reg, m).entities && Wears(w.entities[e], ApplyUpdate(w, reg, m).entities[e])
  {
    WearsItself(w.entities[e]);
    hide Wears;
  }

  lemma WearsItself(c: Components)
    ensures Wears(c, c)
  {}

  lemma WearsStill(c: Components, c': Components, c'': Components)
    requires Wears(c, c') && Wears(c', c'')
    ensures Wears(c, c'')
  {}

  // ---- Whole runs ----------------------------------------------------------

  function StageEvents(s: Server, kind: nat, decode: Payload -> Option<InputCommand>, a: Stage, e: Entity)
    : seq<AntiReplay.Event>
  {
    match a
    case ApplyPending => CommandEvents(s.world, kind, decode, s.pending, e)
    case SimulateStep(i) => CallEvents(s.world, i, e)
    case _ => []
  }

  /** What a run brings for the entity `e`. */
  function RunEvents(
    s: Server, cfg: Config, kind: nat, decode: Payload -> Option<InputCommand>, run: seq<Stage>, e: Entity)
    : seq<AntiReplay.Event>
  {
    if run == [] then []
    else
      RunEvents(s, cfg, kind, decode, run[..|run| - 1], e)
      + StageEvents(DoAll(s, cfg, run[..|run| - 1]), kind, decode, run[|run| - 1], e)
  }

  /** Handles and the server's tick never go back, and what is gone stays gone. */
  lemma StageAges(s: Server, cfg: Config, a: Stage, e: Entity)
    requires SparesServer(cfg.registry) && Tied(s.world)
    ensures s.world.net.nextEntity <= Do(s, cfg, a).world.net.nextEntity
    ensures s.world.serverTick <= Do(s, cfg, a).world.serverTick
    ensures e < s.world.net.nextEntity && e in Do(s, cfg, a).world.entities ==> e in s.world.entities
  {
    hide Tied, SparesServer, ApplyUpdates, Simulate, DisableAll, InputStage, SamePart, Wears;
    if a.ApplyPending? {
      UpdatesSpareServer(s.world, cfg.registry, s.pending);
    } else if a.SimulateStep? {
      RestFrame(ControlPart, s.world, a.inputs, e);
      SameWorldSize(s.world, a.inputs);
    } else if !a.AdvanceTick? {
      OtherFrame(ControlPart, s, cfg, a, e);
    }
  }

  lemma ToggleWears(c: Components)
    ensures Wears(c, Toggle(c)) && Wears(c, Deactivate(c))
  {
    hide ToggleBeam;
  }

  lemma MoveWears(c: Components, p: Position)
    ensures Wears(c, MoveTo(c, p))
  {}

  lemma OpeningWears(w: World, i: Inputs, e: Entity)
    requires e in w.entities
    ensures var w' := DisableAll(InputStage(w, i), i.extractors, i.sqrt);
            e in w'.entities && Wears(w.entities[e], w'.entities[e])
  {
    hide Validate, BoundsFor, WrapPosition, Toggle, Deactivate, MoveTo, Wears;
    var w1 := MoveAll(w, i.moved);
    var w2 := EncloseAll(w1);
    var w3 := InputStage(w, i);
    WearsItself(w.entities[e]);
    if e in i.moved { MoveWears(w.entities[e], i.moved[e]); }
    WearsItself(w1.entities[e]);
    var c := w1.entities[e];
    if c.locale.position.Some? && c.locale.membership.Some? && BoundsFor(w1, c.locale.membership.value).Some? {
      MoveWears(c, WrapPosition(c.locale.position.value, BoundsFor(w1, c.locale.membership.value).value));
    }
    ToggleWears(w2.entities[e]);
    ToggleWears(w3.entities[e]);
    WearsItself(w3.entities[e]);
    var w4 := DisableAll(w3, i.extractors, i.sqrt);
    WearsStill(w.entities[e], w1.entities[e], w2.entities[e]);
    WearsStill(w.entities[e], w2.entities[e], w3.entities[e]);
    WearsStill(w.entities[e], w3.entities[e], w4.entities[e]);
  }

  /** A stage takes no component away from what it leaves alive. */
  lemma StageWears(s: Server, cfg: Config, a: Stage, e: Entity)
    requires SparesServer(cfg.registry) && Lasting(cfg.registry) && Tied(s.world)
    requires e < s.world.net.nextEntity && e in Do(s, cfg, a).world.entities
    ensures e in s.world.entities && Wears(s.world.entities[e], Do(s, cfg, a).world.entities[e])
  {
    hide Tied, SparesServer, Lasting, ApplyUpdates, Simulate, DisableAll, InputStage, SamePart, Wears, Handle,
         DropSet, SpawnMany;
    StageAges(s, cfg, a, e);
    if a.ApplyPending? {
      UpdatesWear(s.world, cfg.registry, s.pending, e);
    } else if a.SimulateStep? {
      var w1 := DisableAll(InputStage(s.world, a.inputs), a.inputs.extractors, a.inputs.sqrt);
      OpeningWears(s.world, a.inputs, e);
      SameWorldSize(s.world, a.inputs);
      RestFrame(ControlPart, s.world, a.inputs, e);
      WearsStill(s.world.entities[e], w1.entities[e], Simulate(s.world, a.inputs).entities[e]);
    } else if !a.AdvanceTick? {
      OtherFrame(ControlPart, s, cfg, a, e);
    } else {
      WearsItself(s.world.entities[e]);
    }
  }

  lemma SameWorldSize(w: World, i: Inputs)
    ensures var w' := DisableAll(InputStage(w, i), i.extractors, i.sqrt);
            w'.net == w.net && w'.serverTick == w.serverTick && w'.entities.Keys == w.entities.Keys
  {
    hide Validate, Enclose, Toggle, MoveTo, Deactivate;
  }

  lemma StageSteers(s: Server, cfg: Config, kind: nat, decode: Payload -> Option<InputCommand>, a: Stage, e: Entity)
    requires SparesServer(cfg.registry) && TakesInputs(cfg.registry, kind, decode) && Tied(s.world)
    requires ControlUpdates(cfg.registry, kind, s.pending)
    requires Steerable(s.world, e) && e < s.world.net.nextEntity && e in Do(s, cfg, a).world.entities
    ensures Steerable(Do(s, cfg, a).world, e)
    ensures MemoryOf(Do(s, cfg, a).world, e) == StepAll(MemoryOf(s.world, e), StageEvents(s, kind, decode, a, e))
  {
    hide Tied, SparesServer, TakesInputs, ApplyUpdates, Simulate, AntiReplay.Step;
    if a.ApplyPending? {
      UpdatesSteer(s.world, cfg.registry, kind, decode, s.pending, e);
    } else if a.SimulateStep? {
      SimulateSteers(s.world, a.inputs, e);
    } else if !a.AdvanceTick? {
      OtherFrame(ControlPart, s, cfg, a, e);
    }
  }

  lemma TiedAfter(s: Server, cfg: Config, a: Stage)
    requires SparesServer(cfg.registry) && Tied(s.world)
    ensures Tied(Do(s, cfg, a).world)
  {
    hide Tied, SparesServer, Do;
    DoKeeps(s, cfg, a);
  }

  lemma {:induction false} RunAges(s: Server, cfg: Config, run: seq<Stage>, e: Entity)
    requires SparesServer(cfg.registry) && Tied(s.world)
    ensures var w' := DoAll(s, cfg, run).world;
            && Tied(w') && s.world.net.nextEntity <= w'.net.nextEntity && s.world.serverTick <= w'.serverTick
            && (e < s.world.net.nextEntity && e in w'.entities ==> e in s.world.entities)
    decreases |run|
  {
    hide SparesServer, Tied, Do;
    if run != [] {
      RunAges(s, cfg, run[..|run| - 1], e);
      StageAges(DoAll(s, cfg, run[..|run| - 1]), cfg, run[|run| - 1], e);
      TiedAfter(DoAll(s, cfg, run[..|run| - 1]), cfg, run[|run| - 1]);
    }
  }

  lemma {:induction false} RunWears(s: Server, cfg: Config, run: seq<Stage>, e: Entity)
    requires SparesServer(cfg.registry) && Lasting(cfg.registry) && Tied(s.world)
    requires e < s.world.net.nextEntity && e in DoAll(s, cfg, run).world.entities
    ensures e in s.world.entities && Wears(s.world.entities[e], DoAll(s, cfg, run).world.entities[e])
    decreases |run|
  {
    hide SparesServer, Lasting, Tied, Do, Wears;
    if run == [] {
      WearsItself(s.world.entities[e]);
    } else {
      var s1 := DoAll(s, cfg, run[..|run| - 1]);
      RunAges(s, cfg, run[..|run| - 1], e);
      StageWears(s1, cfg, run[|run| - 1], e);
      RunWears(s, cfg, run[..|run| - 1], e);
      WearsStill(s.world.entities[e], s1.world.entities[e], DoAll(s, cfg, run).world.entities[e]);
    }
  }

  /** Nothing that a client sends in this stage writes controls otherwise than as a command. */
  ghost predicate SendsControls(cfg: Config, kind: nat, a: Stage) {
    a.Receive? && a.event.Message? && a.event.authorized && a.event.request.Send? ==>
      forall i | 0 <= i < |a.event.request.updates| ::
        ControlUpdate(cfg.registry, kind, a.event.request.updates[i])
  }

  ghost predicate ControlRun(cfg: Config, kind: nat, run: seq<Stage>) {
    forall i | 0 <= i < |run| :: SendsControls(cfg, kind, run[i])
  }

  lemma {:induction false} RunKeepsControls(s: Server, cfg: Config, kind: nat, run: seq<Stage>)
    requires ControlUpdates(cfg.registry, kind, s.pending) && ControlRun(cfg, kind, run)
    ensures ControlUpdates(cfg.registry, kind, DoAll(s, cfg, run).pending)
    decreases |run|
  {
    hide ControlUpdate, Do;
    if run != [] {
      var rest, a := run[..|run| - 1], run[|run| - 1];
      assert forall i | 0 <= i < |rest| :: rest[i] == run[i];
      RunKeepsControls(s, cfg, kind, rest);
      PendingAfter(DoAll(s, cfg, rest), cfg, a);
    }
  }

  /** A session agent that outlives a run has exactly the input and the beam that the run's events,
      taken as an anti-replay run, leave it with. */
  lemma {:induction false} RunSteers(
    s: Server, cfg: Config, kind: nat, decode: Payload -> Option<InputCommand>, run: seq<Stage>, e: Entity)
    requires SparesServer(cfg.registry) && TakesInputs(cfg.registry, kind, decode) && Tied(s.world)
    requires ControlUpdates(cfg.registry, kind, s.pending) && ControlRun(cfg, kind, run)
    requires Steerable(s.world, e) && e < s.world.net.nextEntity && e in DoAll(s, cfg, run).world.entities
    ensures Steerable(DoAll(s, cfg, run).world, e)
    ensures MemoryOf(DoAll(s, cfg, run).world, e)
         == StepAll(MemoryOf(s.world, e), RunEvents(s, cfg, kind, decode, run, e))
    decreases |run|
  {
    hide SparesServer, TakesInputs, ControlUpdates, SendsControls, Tied, Do, AntiReplay.Step, StageEvents, Steerable;
    if run != [] {
      var rest, a := run[..|run| - 1], run[|run| - 1];
      var s1 := DoAll(s, cfg, rest);
      assert forall i | 0 <= i < |rest| :: rest[i] == run[i];
      RunKeepsControls(s, cfg, kind, rest);
      RunAges(s, cfg, rest, e);
      StageAges(s1, cfg, a, e);
      RunSteers(s, cfg, kind, decode, rest, e);
      StageSteers(s1, cfg, kind, decode, a, e);
      StepAllMore(MemoryOf(s.world, e), RunEvents(s, cfg, kind, decode, rest, e), StageEvents(s1, kind, decode, a, e));
    }
  }

  // ---- The server's clock --------------------------------------------------

  /** Every command of the run was taken at or before server tick `t`. */
  ghost predicate NoLater(es: seq<AntiReplay.Event>, t: nat) {
    forall j | 0 <= j < |es| :: es[j].Command? ==> es[j].server <= t
  }

  lemma {:induction false} ClockedMore(server: nat, es: seq<AntiReplay.Event>, t: nat, more: seq<AntiReplay.Event>)
    requires Clocked(server, es) && NoLater(es, t) && server <= t && Clocked(t, more)
    ensures Clocked(server, es + more)
    decreases |es|
  {
    if es == [] {
      assert es + more == more;
      ClockedEarlier(server, t, more);
    } else {
      assert (es + more)[1..] == es[1..] + more;
      ClockedMore(if es[0].Command? then es[0].server else server, es[1..], t, more);
    }
  }

  lemma {:induction false} ClockedEarlier(server: nat, t: nat, es: seq<AntiReplay.Event>)
    requires server <= t && Clocked(t, es)
    ensures Clocked(server, es)
    decreases |es|
  {
    if es != [] && !es[0].Command? { ClockedEarlier(server, t, es[1..]); }
  }

  lemma {:induction false} CommandsClocked(
    w: World, kind: nat, decode: Payload -> Option<InputCommand>, ms: seq<Inbound>, e: Entity)
    ensures Clocked(w.serverTick, CommandEvents(w, kind, decode, ms, e))
    ensures NoLater(CommandEvents(w, kind, decode, ms, e), w.serverTick)
    decreases |ms|
  {
    if ms != [] {
      CommandsClocked(w, kind, decode, ms[..|ms| - 1], e);
      var m := ms[|ms| - 1];
      if Commands(w, kind, decode, m, e) {
        var v := Command(w.serverTick, decode(m.update.payload).value);
        assert Clocked(w.serverTick, [v]);
        ClockedMore(w.serverTick, CommandEvents(w, kind, decode, ms[..|ms| - 1], e), w.serverTick, [v]);
      } else {
        assert CommandEvents(w, kind, decode, ms, e) == CommandEvents(w, kind, decode, ms[..|ms| - 1], e);
      }
    }
  }

  lemma StageClocked(s: Server, kind: nat, decode: Payload -> Option<InputCommand>, a: Stage, e: Entity)
    ensures Clocked(s.world.serverTick, StageEvents(s, kind, decode, a, e))
    ensures NoLater(StageEvents(s, kind, decode, a, e), s.world.serverTick)
  {
    hide Fails;
    if a.ApplyPending? {
      CommandsClocked(s.world, kind, decode, s.pending, e);
    } else if a.SimulateStep? {
      var es, t := CallEvents(s.world, a.inputs, e), s.world.serverTick;
      assert es[1..] == [] || es[1..] == [Disabled];
      assert Clocked(t, []) && Clocked(t, [Disabled]);
    }
  }

  /** The commands of a run reach the agent in the order of the server's ticks. */
  lemma {:induction false} RunClocked(
    s: Server, cfg: Config, kind: nat, decode: Payload -> Option<InputCommand>, run: seq<Stage>, e: Entity)
    requires SparesServer(cfg.registry) && Tied(s.world)
    ensures Clocked(s.world.serverTick, RunEvents(s, cfg, kind, decode, run, e))
    ensures NoLater(RunEvents(s, cfg, kind, decode, run, e), DoAll(s, cfg, run).world.serverTick)
    decreases |run|
  {
    hide SparesServer, Tied, Do, StageEvents;
    if run != [] {
      var rest, a := run[..|run| - 1], run[|run| - 1];
      var s1 := DoAll(s, cfg, rest);
      RunClocked(s, cfg, kind, decode, rest, e);
      RunAges(s, cfg, rest, e);
      StageAges(s1, cfg, a, e);
      StageClocked(s1, kind, decode, a, e);
      ClockedMore(s.world.serverTick, RunEvents(s, cfg, kind, decode, rest, e), s1.world.serverTick,
                  StageEvents(s1, kind, decode, a, e));
    }
  }

  // ---- What the anti-replay results say of the server ----------------------

  /** A new session agent has an idle beam and has taken no command. */
  lemma FreshAgent(s: Server, cfg: Config, c: ClientId)
    requires Tied(s.world) && c in s.clients && s.clients[c].agent.None?
    ensures var w', e := Do(s, cfg, Receive(Message(c, true, StartSession))).world, NewEntity(s.world);
            && Tied(w') && Steerable(w', e) && e < w'.net.nextEntity
            && MemoryOf(w', e).latest.None? && !MemoryOf(w', e).beam.active && InStep(MemoryOf(w', e), false)
  {
    hide Tied, Succeeds, Founded, SpawnKindFor, HomeOf, OwnOrDead, Ready;
    var w := s.world;
    SpawnForKeeps(w, AGENT, Position(0.0, 0.0), c);
    AgentSpawned(w, Position(0.0, 0.0), c);
    HandlesBounded(SpawnSessionAgent(w, AGENT, Position(0.0, 0.0), c));
    KindIsAnonymous(AGENT, Position(0.0, 0.0), HomeOf(w));
    hide NewEntity;
  }

  lemma BeginPending(s: Server, cfg: Config, c: ClientId)
    ensures Do(s, cfg, Receive(Message(c, true, StartSession))).pending == s.pending
  {
    hide SpawnSessionAgent, Login;
  }

  /** From its spawn on, as long as it lives, a session agent's beam flips on command at most once per
      toggle taken; exactly once per toggle that a simulate call finds, if no resync steps back; and the
      ticks taken increase strictly exactly then. Clients send what they like, except that only
      commands write inputs and beams. */
  lemma SessionFlips(
    s: Server, cfg: Config, kind: nat, decode: Payload -> Option<InputCommand>, c: ClientId, run: seq<Stage>)
    requires SparesServer(cfg.registry) && TakesInputs(cfg.registry, kind, decode)
    requires ControlUpdates(cfg.registry, kind, s.pending) && ControlRun(cfg, kind, run)
    requires Tied(s.world) && c in s.clients && s.clients[c].agent.None?
    requires NewEntity(s.world) in DoAll(Do(s, cfg, Receive(Message(c, true, StartSession))), cfg, run).world.entities
    ensures var s1, e := Do(s, cfg, Receive(Message(c, true, StartSession))), NewEntity(s.world);
            var es := RunEvents(s1, cfg, kind, decode, run, e);
            && Steerable(s1.world, e) && Steerable(DoAll(s1, cfg, run).world, e)
            && MemoryOf(DoAll(s1, cfg, run).world, e) == StepAll(MemoryOf(s1.world, e), es)
            && Flips(MemoryOf(s1.world, e), es) <= AcceptedToggles(MemoryOf(s1.world, e), es)
            && (Increasing(AcceptedTicks(MemoryOf(s1.world, e), es)) <==> !StepsBack(MemoryOf(s1.world, e), es))
            && (!StepsBack(MemoryOf(s1.world, e), es) ==>
                  Flips(MemoryOf(s1.world, e), es) == SeenToggles(MemoryOf(s1.world, e), false, es))
            && (NeverAhead(MemoryOf(s1.world, e), es) ==> !StepsBack(MemoryOf(s1.world, e), es))
  {
    hide SparesServer, TakesInputs, ControlUpdates, ControlRun, Tied, Do, NewEntity, RunEvents, DoAll;
    hide AntiReplay.Step, Clocked, StepsBack, Flips, AcceptedToggles, SeenToggles, NeverAhead, AcceptedTicks;
    hide Increasing;
    FreshAgent(s, cfg, c);
    BeginPending(s, cfg, c);
    var s1, e := Do(s, cfg, Receive(Message(c, true, StartSession))), NewEntity(s.world);
    RunSteers(s1, cfg, kind, decode, run, e);
    RunClocked(s1, cfg, kind, decode, run, e);
    var m, es := MemoryOf(s1.world, e), RunEvents(s1, cfg, kind, decode, run, e);
    FlipsAtMostOnce(m, es);
    IncreasingIff(m, es);
    if !StepsBack(m, es) { FlipsExactly(m, false, es); }
    if NeverAhead(m, es) { NeverAheadHoldsSteady(m, s1.world.serverTick, es); }
  }
}
