/** The anti-replay window for input commands, over whole runs of commands and simulate
    calls for one session agent, whose beam a simulate call may also switch off. */
module AntiReplay {
  import opened Ecs
  import opened Economy

  const MAX_JUMP: nat := 600

  function SatAdd(a: nat, b: nat): nat {
    if a + b <= U64_MAX then a + b else U64_MAX
  }

  function SatSub(a: nat, b: nat): nat {
    if a >= b then a - b else 0
  }

  // ---- One command ---------------------------------------------------------

  /** A progression of at most 600 from the last client tick. */
  predicate ValidJump(last: nat, tick: nat) {
    last < tick <= SatAdd(last, MAX_JUMP)
  }

  predicate InWindow(server: nat, tick: nat) {
    SatSub(server, MAX_JUMP) <= tick <= SatAdd(server, MAX_JUMP)
  }

  /** A valid progression, or a resync of a client whose last tick left the server's window. */
  predicate Accepts(last: nat, server: nat, tick: nat) {
    ValidJump(last, tick) || (InWindow(server, tick) && !InWindow(server, last))
  }

  function ApplyCommand(latest: Option<LatestInput>, server: nat, command: InputCommand): (r: Option<LatestInput>)
    ensures r.Some?
  {
    match latest
    case None =>
      var tick := Min(command.tick, SatAdd(server, MAX_JUMP));
      Some(LatestInput(command.(tick := tick), tick))
    case Some(l) =>
      if Accepts(l.lastClientTick, server, command.tick) then Some(LatestInput(command, command.tick)) else latest
  }

  /** The first command is recorded at its own tick, or 600 ticks ahead of the server if that is
      earlier. A later one replaces it if its tick is at most 600 further on, or if it is within 600
      of the server's and the recorded one is not; otherwise the recorded one stays. */
  lemma CommandRecorded(latest: Option<LatestInput>, server: nat, command: InputCommand)
    requires server + 600 <= U64_MAX && (latest.Some? ==> latest.value.lastClientTick + 600 <= U64_MAX)
    ensures var l := ApplyCommand(latest, server, command).value;
            match latest
            case None =>
              && l.command.actions == command.actions && l.command.tick == l.lastClientTick
              && l.lastClientTick == (if command.tick <= server + 600 then command.tick else server + 600)
            case Some(before) =>
              var last, tick := before.lastClientTick, command.tick;
              var near, wasNear := server - 600 <= tick <= server + 600, server - 600 <= last <= server + 600;
              l == if last < tick <= last + 600 || (near && !wasNear) then LatestInput(command, tick) else before
  {}

  predicate Taken(latest: Option<LatestInput>, server: nat, command: InputCommand) {
    latest.None? || Accepts(latest.value.lastClientTick, server, command.tick)
  }

  /** A command is taken although its tick is not new exactly when the recorded tick is beyond the
      server's window and the command is inside it. */
  lemma StepBackIff(last: nat, server: nat, tick: nat)
    ensures Accepts(last, server, tick) && tick <= last <==> last > SatAdd(server, MAX_JUMP) && InWindow(server, tick)
  {}

  // ---- Runs ----------------------------------------------------------------

  /** A command that reaches the entity, a simulate call acting on the latest one, and that call
      switching the beam off because its extraction is no longer possible. */
  datatype Event = Command(server: nat, command: InputCommand) | Simulated | Disabled

  /** What the entity remembers of its inputs. */
  datatype Memory = Memory(latest: Option<LatestInput>, beam: ExtractionBeam)

  function Step(m: Memory, e: Event): Memory {
    match e
    case Command(server, command) => m.(latest := ApplyCommand(m.latest, server, command))
    case Simulated =>
      if m.latest.Some? then m.(beam := ToggleBeam(m.beam, m.latest.value.command)) else m
    case Disabled => m.(beam := m.beam.(active := false))
  }

  function StepAll(m: Memory, es: seq<Event>): Memory
    decreases |es|
  {
    if es == [] then m else StepAll(Step(m, es[0]), es[1..])
  }

  lemma {:induction false} StepAllMore(m: Memory, es: seq<Event>, more: seq<Event>)
    ensures StepAll(m, es + more) == StepAll(StepAll(m, es), more)
    decreases |es|
  {
    if es == [] {
      assert es + more == more;
    } else {
      StepAllMore(Step(m, es[0]), es[1..], more);
      assert (es + more)[1..] == es[1..] + more;
    }
  }

  predicate Accepted(m: Memory, e: Event) {
    e.Command? && Taken(m.latest, e.server, e.command)
  }

  /** The server's tick never goes back along the run. */
  predicate Clocked(server: nat, es: seq<Event>)
    decreases |es|
  {
    if es == [] then true
    else if es[0].Command? then server <= es[0].server && Clocked(es[0].server, es[1..])
    else Clocked(server, es[1..])
  }

  /** The client ticks recorded along a run. */
  function AcceptedTicks(m: Memory, es: seq<Event>): seq<nat>
    decreases |es|
  {
    if es == [] then []
    else
      var m' := Step(m, es[0]);
      (if Accepted(m, es[0]) then [m'.latest.value.lastClientTick] else []) + AcceptedTicks(m', es[1..])
  }

  ghost predicate Increasing(xs: seq<nat>) {
    forall i, j | 0 <= i < j < |xs| :: xs[i] < xs[j]
  }

  ghost predicate Above(xs: seq<nat>, latest: Option<LatestInput>) {
    forall i | 0 <= i < |xs| :: latest.None? || latest.value.lastClientTick < xs[i]
  }

  /** Some command is taken in a resync from beyond the server's window. */
  predicate StepsBack(m: Memory, es: seq<Event>)
    decreases |es|
  {
    && es != []
    && (|| (es[0].Command? && m.latest.Some? && m.latest.value.lastClientTick > SatAdd(es[0].server, MAX_JUMP)
            && InWindow(es[0].server, es[0].command.tick))
        || StepsBack(Step(m, es[0]), es[1..]))
  }

  /** The recorded ticks of a run increase strictly exactly when no resync steps back. */
  lemma {:induction false} IncreasingIff(m: Memory, es: seq<Event>)
    ensures Increasing(AcceptedTicks(m, es)) && Above(AcceptedTicks(m, es), m.latest) <==> !StepsBack(m, es)
    decreases |es|
  {
    if es != [] {
      var m', rest := Step(m, es[0]), AcceptedTicks(Step(m, es[0]), es[1..]);
      IncreasingIff(m', es[1..]);
      var xs := AcceptedTicks(m, es);
      if Accepted(m, es[0]) {
        assert xs == [m'.latest.value.lastClientTick] + rest;
        if m.latest.Some? { StepBackIff(m.latest.value.lastClientTick, es[0].server, es[0].command.tick); }
        IncreasingCons(m'.latest.value.lastClientTick, rest);
        if Above(rest, m'.latest) {
          assert m.latest.Some? && m.latest.value.lastClientTick < xs[0] ==> Above(xs, m.latest);
        }
        assert Above(xs, m.latest) ==> m.latest.None? || m.latest.value.lastClientTick < xs[0];
      } else {
        assert xs == rest;
        assert m'.latest == m.latest;
        if es[0].Command? { StepBackIff(m.latest.value.lastClientTick, es[0].server, es[0].command.tick); }
      }
    }
  }

  lemma IncreasingCons(x: nat, xs: seq<nat>)
    ensures Increasing([x] + xs) <==> Increasing(xs) && forall i | 0 <= i < |xs| :: x < xs[i]
  {
    var ys := [x] + xs;
    if Increasing(ys) {
      forall i, j | 0 <= i < j < |xs| ensures xs[i] < xs[j] { assert ys[i + 1] < ys[j + 1]; }
      forall i | 0 <= i < |xs| ensures x < xs[i] { assert ys[0] < ys[i + 1]; }
    }
  }

  /** No command is taken more than 600 ticks ahead of the server. */
  predicate NeverAhead(m: Memory, es: seq<Event>)
    decreases |es|
  {
    es == []
    || (&& (Accepted(m, es[0]) ==> Step(m, es[0]).latest.value.lastClientTick <= SatAdd(es[0].server, MAX_JUMP))
        && NeverAhead(Step(m, es[0]), es[1..]))
  }

  /** A client that is never far ahead cannot replay: from its first command on, the recorded
      ticks increase strictly, for the whole run. */
  lemma {:induction false} NeverAheadIncreases(m: Memory, server: nat, es: seq<Event>)
    requires Clocked(server, es) && NeverAhead(m, es)
    requires m.latest.Some? ==> m.latest.value.lastClientTick <= SatAdd(server, MAX_JUMP)
    ensures Increasing(AcceptedTicks(m, es)) && Above(AcceptedTicks(m, es), m.latest)
    decreases |es|
  {
    NeverAheadHoldsSteady(m, server, es);
    IncreasingIff(m, es);
  }

  lemma {:induction false} NeverAheadHoldsSteady(m: Memory, server: nat, es: seq<Event>)
    requires Clocked(server, es) && NeverAhead(m, es)
    requires m.latest.Some? ==> m.latest.value.lastClientTick <= SatAdd(server, MAX_JUMP)
    ensures !StepsBack(m, es)
    decreases |es|
  {
    if es != [] {
      NeverAheadHoldsSteady(Step(m, es[0]), if es[0].Command? then es[0].server else server, es[1..]);
    }
  }

  /** A client that runs ahead by valid jumps can resync and have a tick taken twice. */
  lemma ReplayWitness(actions: seq<Action>, beam: ExtractionBeam)
    ensures var replayed := Command(100, InputCommand(700, actions));
      var es := [replayed, Command(100, InputCommand(1300, [])), replayed];
      Clocked(100, es) && AcceptedTicks(Memory(None, beam), es) == [700, 1300, 700]
  {
    var replayed := Command(100, InputCommand(700, actions));
    var ahead := Command(100, InputCommand(1300, []));
    var es := [replayed, ahead, replayed];
    assert es[1..] == [ahead, replayed] && es[1..][1..] == [replayed] && es[1..][1..][1..] == [];
    var m0 := Memory(None, beam);
    var m1 := Step(m0, replayed);
    var m2 := Step(m1, ahead);
    assert Clocked(100, [replayed]) && Clocked(100, [ahead, replayed]);
    assert AcceptedTicks(m2, [replayed]) == [700];
    assert AcceptedTicks(m1, [ahead, replayed]) == [1300, 700];
  }

  // ---- Toggles -------------------------------------------------------------

  predicate IsToggle(latest: Option<LatestInput>) {
    latest.Some? && FirstToggle(latest.value.command.actions).Some?
  }

  /** How often a simulate call flips the beam on behalf of a command. */
  function Flips(m: Memory, es: seq<Event>): nat
    decreases |es|
  {
    if es == [] then 0
    else
      (if es[0].Simulated? && Step(m, es[0]).beam.active != m.beam.active then 1 else 0)
      + Flips(Step(m, es[0]), es[1..])
  }

  function AcceptedToggles(m: Memory, es: seq<Event>): nat
    decreases |es|
  {
    if es == [] then 0
    else
      (if Accepted(m, es[0]) && IsToggle(Step(m, es[0]).latest) then 1 else 0)
      + AcceptedToggles(Step(m, es[0]), es[1..])
  }

  /** The current command is a toggle that the beam has not seen. */
  predicate Unseen(m: Memory) {
    IsToggle(m.latest) && m.beam.lastSeen != Some(m.latest.value.command.tick)
  }

  /** However many simulate calls hold a command, it flips the beam at most once. */
  lemma {:induction false} FlipsAtMostOnce(m: Memory, es: seq<Event>)
    ensures Flips(m, es) <= AcceptedToggles(m, es) + if Unseen(m) then 1 else 0
    decreases |es|
  {
    if es != [] {
      FlipsAtMostOnce(Step(m, es[0]), es[1..]);
    }
  }

  /** The toggles that some simulate call finds current; `due` tells whether the current one
      is still to be found. */
  function SeenToggles(m: Memory, due: bool, es: seq<Event>): nat
    decreases |es|
  {
    if es == [] then 0
    else if es[0].Simulated? then
      (if due && IsToggle(m.latest) then 1 else 0) + SeenToggles(Step(m, es[0]), false, es[1..])
    else SeenToggles(Step(m, es[0]), due || Accepted(m, es[0]), es[1..])
  }

  /** What the beam has seen is older than a due command and equal to a stale one. */
  predicate InStep(m: Memory, due: bool) {
    match m.latest
    case None => m.beam.lastSeen.None? && !due
    case Some(l) =>
      && l.command.tick == l.lastClientTick
      && (if due then m.beam.lastSeen.None? || m.beam.lastSeen.value < l.lastClientTick
          else m.beam.lastSeen == Some(l.lastClientTick))
  }

  /** In a run that never steps back, the beam flips exactly once per toggle that a simulate
      call finds. */
  lemma {:induction false} FlipsExactly(m: Memory, due: bool, es: seq<Event>)
    requires InStep(m, due) && !StepsBack(m, es)
    ensures Flips(m, es) == SeenToggles(m, due, es)
    decreases |es|
  {
    if es != [] {
      var m' := Step(m, es[0]);
      if es[0].Simulated? {
        FlipsExactly(m', false, es[1..]);
      } else {
        if m.latest.Some? && es[0].Command? {
          StepBackIff(m.latest.value.lastClientTick, es[0].server, es[0].command.tick);
        }
        FlipsExactly(m', due || Accepted(m, es[0]), es[1..]);
      }
    }
  }

  // ---- Lockout -------------------------------------------------------------

  /** How long a client that sends the server's own tick, tick after tick, has to wait. */
  function Wait(last: nat, server: nat): nat {
    if server <= last <= server + MAX_JUMP then last + 1 - server else 0
  }

  lemma WaitIsExact(last: nat, server: nat, k: nat)
    requires server + k + MAX_JUMP <= U64_MAX && k <= Wait(last, server)
    ensures Accepts(last, server + k, server + k) <==> k == Wait(last, server)
  {}

  /** `n` commands, one per server tick, each with the server's own tick. */
  function Synced(server: nat, n: nat): seq<Event>
    decreases n
  {
    if n == 0 then [] else [Command(server, InputCommand(server, []))] + Synced(server + 1, n - 1)
  }

  /** From any recorded tick, such a client is taken at exactly its waiting time, at most 601 ticks on. */
  lemma {:induction false} LockoutIsBounded(m: Memory, server: nat)
    requires m.latest.Some? && server + Wait(m.latest.value.lastClientTick, server) + MAX_JUMP <= U64_MAX
    ensures var w := Wait(m.latest.value.lastClientTick, server);
      w <= MAX_JUMP + 1 && AcceptedTicks(m, Synced(server, w + 1)) == [server + w]
    decreases Wait(m.latest.value.lastClientTick, server)
  {
    var last := m.latest.value.lastClientTick;
    var w := Wait(last, server);
    var es := Synced(server, w + 1);
    assert es[0] == Command(server, InputCommand(server, [])) && es[1..] == Synced(server + 1, w);
    WaitIsExact(last, server, 0);
    if w > 0 {
      assert Step(m, es[0]) == m;
      LockoutIsBounded(m, server + 1);
    } else {
      assert es[1..] == [];
    }
  }
}
