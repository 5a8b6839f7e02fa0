/** The gameplay stages of one simulate call, as functions of the adapter's state.
    A query visits the entities in some order: each stage takes that order as a
    sequence and skips the entries that do not match. The square root is a parameter. */
module Economy {
  import opened Ecs
  import opened Adapter
  import Motion

  // ---- Physics and input ---------------------------------------------------

  function MoveTo(c: Components, p: Position): Components {
    if c.locale.position.Some? then c.(locale := c.locale.(position := Some(p))) else c
  }

  /** The positions after the physics stage. */
  function MoveAll(w: World, moved: map<Entity, Position>): World {
    w.(entities := map e | e in w.entities :: if e in moved then MoveTo(w.entities[e], moved[e]) else w.entities[e])
  }

  /** The bounds of the live workspace with this id. */
  function BoundsFor(w: World, ws: NetworkId): Option<Bounds> {
    if ws in w.net.byId && w.net.byId[ws] in w.entities then w.entities[w.net.byId[ws]].locale.bounds else None
  }

  function WrapPosition(p: Position, b: Bounds): Position {
    Position(Motion.WrapAxis(p.x, b.min.x, b.max.x), Motion.WrapAxis(p.y, b.min.y, b.max.y))
  }

  function Enclose(w: World, c: Components): Components {
    if c.locale.position.Some? && c.locale.membership.Some? && BoundsFor(w, c.locale.membership.value).Some? then
      MoveTo(c, WrapPosition(c.locale.position.value, BoundsFor(w, c.locale.membership.value).value))
    else c
  }

  /** Toroidal wrapping of every member into the bounds of its workspace. */
  function EncloseAll(w: World): World {
    w.(entities := map e | e in w.entities :: Enclose(w, w.entities[e]))
  }

  /** The target of the first toggle among the actions. */
  function FirstToggle(actions: seq<Action>): Option<NetworkId> {
    if actions == [] then None
    else if actions[0].ToggleExtraction? then Some(actions[0].target)
    else FirstToggle(actions[1..])
  }

  /** A command takes effect on the extraction beam once per client tick. */
  function ToggleBeam(b: ExtractionBeam, command: InputCommand): ExtractionBeam {
    if b.lastSeen == Some(command.tick) then b
    else
      match FirstToggle(command.actions)
      case None => b.(lastSeen := Some(command.tick))
      case Some(t) => b.(active := !b.active, target := Some(t), lastSeen := Some(command.tick))
  }

  function Toggle(c: Components): Components {
    if c.gear.input.Some? && c.gear.extractor.Some? then
      c.(gear := c.gear.(extractor := Some(ToggleBeam(c.gear.extractor.value, c.gear.input.value.command))))
    else c
  }

  function ToggleAll(w: World): World {
    w.(entities := map e | e in w.entities :: Toggle(w.entities[e]))
  }

  // ---- Extraction ----------------------------------------------------------

  datatype Transfer = Transfer(agent: Entity, resource: Entity, amount: U16)

  datatype Verdict = Idle | Disable | Wait | Draw(transfer: Transfer)

  /** Rounds half away from zero and saturates, as a float to u16 cast does. */
  function RoundToU16(r: real): U16 {
    if r <= 0.0 then 0 else if r >= 65535.0 then 65535 else (r + 0.5).Floor
  }

  /** Linear falloff with the distance, at least a tenth. A range of zero divides zero by zero. */
  function Efficiency(distance: real, range: real): real {
    if range == 0.0 || 1.0 - distance / range < 0.1 then 0.1 else 1.0 - distance / range
  }

  function Scaled(rate: U16, efficiency: real): real {
    rate as real * efficiency
  }

  function BaseAmount(rate: U16, distance: real, range: real): (r: U16)
    ensures r >= 1
  {
    Max(1, RoundToU16(Scaled(rate, Efficiency(distance, range))))
  }

  /** What the validation pass decides for one entity. */
  function Validate(w: World, e: Entity, sqrt: real -> real): Verdict {
    if e !in w.entities || w.entities[e].gear.extractor.None? || w.entities[e].locale.position.None?
       || w.entities[e].cargo.store.None? || !w.entities[e].gear.extractor.value.active then Idle
    else
      var c := w.entities[e];
      var b := c.gear.extractor.value;
      if b.target.None? || b.target.value !in w.net.byId then Disable
      else
        var t := w.net.byId[b.target.value];
        if t !in w.entities || w.entities[t].cargo.resource.None? || w.entities[t].locale.position.None? then Disable
        else
          var d2 := DistanceSquared(w.entities[t].locale.position.value, c.locale.position.value);
          if d2 > b.range * b.range then Disable
          else if c.cargo.store.value.payload >= c.cargo.store.value.capacity then Disable
          else if w.entities[t].cargo.resource.value.remaining > 0 && w.serverTick % 10 == 0 then
            Draw(Transfer(e, t, BaseAmount(b.rate, sqrt(d2), b.range)))
          else Wait
  }

  function Transfers(w: World, order: seq<Entity>, sqrt: real -> real): seq<Transfer> {
    if order == [] then []
    else
      var v := Validate(w, order[|order| - 1], sqrt);
      Transfers(w, order[..|order| - 1], sqrt) + if v.Draw? then [v.transfer] else []
  }

  function Deactivate(c: Components): Components {
    if c.gear.extractor.Some? then
      c.(gear := c.gear.(extractor := Some(c.gear.extractor.value.(active := false))))
    else c
  }

  /** Switches off the beams that failed validation. */
  function DisableAll(w: World, order: seq<Entity>, sqrt: real -> real): World {
    w.(entities := map e | e in w.entities ::
         if e in order && Validate(w, e, sqrt).Disable? then Deactivate(w.entities[e]) else w.entities[e])
  }

  predicate Holds(w: World, t: Transfer) {
    && t.agent in w.entities && w.entities[t.agent].cargo.store.Some?
    && t.resource in w.entities && w.entities[t.resource].cargo.resource.Some?
  }

  function Granted(amount: U16, s: DataStore, r: Resource): U16 {
    Min(Min(amount, r.remaining), Wrap(s.capacity - s.payload))
  }

  function Load(c: Components, amount: U16): Components {
    if c.cargo.store.Some? then
      var s := c.cargo.store.value;
      c.(cargo := c.cargo.(store := Some(s.(payload := Wrap(s.payload + amount)))))
    else c
  }

  function Deplete(c: Components, amount: U16): Components {
    if c.cargo.resource.Some? then
      var r := c.cargo.resource.value;
      c.(cargo := c.cargo.(resource := Some(r.(remaining := Wrap(r.remaining - amount)))))
    else c
  }

  function TransferOne(w: World, t: Transfer): World {
    if !Holds(w, t) then w
    else
      var a := Granted(t.amount, w.entities[t.agent].cargo.store.value, w.entities[t.resource].cargo.resource.value);
      if a == 0 then w
      else
        var w1 := Put(w, t.agent, Load(w.entities[t.agent], a));
        Put(w1, t.resource, Deplete(w1.entities[t.resource], a))
  }

  function TransferAll(w: World, ts: seq<Transfer>): World {
    if ts == [] then w else TransferOne(TransferAll(w, ts[..|ts| - 1]), ts[|ts| - 1])
  }

  // ---- Exhaustion ----------------------------------------------------------

  predicate IsExhausted(w: World, e: Entity) {
    && e in w.entities && w.entities[e].cargo.resource.Some? && w.entities[e].locale.position.Some?
    && w.entities[e].cargo.resource.value.remaining == 0 && e in w.net.byEntity
  }

  function Exhausted(w: World, order: seq<Entity>): seq<Entity> {
    if order == [] then []
    else
      var e := order[|order| - 1];
      Exhausted(w, order[..|order| - 1]) + if IsExhausted(w, e) then [e] else []
  }

  function TrackerParts(at: Position, capacity: U16): Components {
    BARE.(clocks := NO_CLOCKS.(respawn := Some(ResourceRespawn(301, at, capacity))))
  }

  /** One tracker per exhausted resource, remembering where it was and how much it held. */
  function SpawnTrackers(w: World, xs: seq<Entity>): World {
    if xs == [] then w
    else
      var w1 := SpawnTrackers(w, xs[..|xs| - 1]);
      var e := xs[|xs| - 1];
      if IsExhausted(w1, e) then
        SpawnLocal(w1, TrackerParts(w1.entities[e].locale.position.value, w1.entities[e].cargo.resource.value.total))
      else w1
  }

  function DespawnEntity(w: World, e: Entity): World {
    if e in w.net.byEntity then Despawn(w, w.net.byEntity[e]) else w
  }

  function DespawnAll(w: World, xs: seq<Entity>): World {
    if xs == [] then w else DespawnEntity(DespawnAll(w, xs[..|xs| - 1]), xs[|xs| - 1])
  }

  // ---- Collection ----------------------------------------------------------

  datatype Claim = Claim(agent: Entity, drop: Entity, amount: U16)

  function Room(s: DataStore): U16 {
    Max(0, s.capacity - s.payload)
  }

  predicate CanCollect(w: World, d: Entity, a: Entity) {
    && a != d && a in w.entities && w.entities[a].cargo.store.Some? && w.entities[a].locale.position.Some?
    && d in w.entities && w.entities[d].locale.position.Some?
    && DistanceSquared(w.entities[d].locale.position.value, w.entities[a].locale.position.value) < 100.0
    && Room(w.entities[a].cargo.store.value) > 0
  }

  /** The first agent in the order that can take from the drop. */
  function Collector(w: World, d: Entity, agents: seq<Entity>): Option<Entity> {
    if agents == [] then None
    else
      var r := Collector(w, d, agents[..|agents| - 1]);
      var a := agents[|agents| - 1];
      if r.None? && CanCollect(w, d, a) then Some(a) else r
  }

  predicate IsDrop(w: World, d: Entity) {
    d in w.entities && w.entities[d].cargo.drop.Some? && w.entities[d].locale.position.Some?
  }

  /** Claims read the stores as they were before any of them is applied. */
  function Claims(w: World, drops: seq<Entity>, agents: seq<Entity>): seq<Claim> {
    if drops == [] then []
    else
      var d := drops[|drops| - 1];
      var a := Collector(w, d, agents);
      Claims(w, drops[..|drops| - 1], agents)
      + if IsDrop(w, d) && a.Some? && a.value in w.entities && w.entities[a.value].cargo.store.Some? then
          [Claim(a.value, d, Min(w.entities[d].cargo.drop.value, Room(w.entities[a.value].cargo.store.value)))]
        else []
  }

  function TakeFrom(c: Components, amount: U16): Components {
    if c.cargo.drop.Some? then
      var left: U16 := if amount >= c.cargo.drop.value then 0 else c.cargo.drop.value - amount;
      c.(cargo := c.cargo.(drop := Some(left)))
    else c
  }

  function ApplyClaim(w: World, cl: Claim): World {
    if cl.amount == 0 then w
    else
      var w1 := if cl.agent in w.entities then Put(w, cl.agent, Load(w.entities[cl.agent], cl.amount)) else w;
      if cl.drop in w1.entities then Put(w1, cl.drop, TakeFrom(w1.entities[cl.drop], cl.amount)) else w1
  }

  function ApplyClaims(w: World, cs: seq<Claim>): World {
    if cs == [] then w else ApplyClaim(ApplyClaims(w, cs[..|cs| - 1]), cs[|cs| - 1])
  }

  /** The drops that the claims leave empty. */
  function Emptied(w: World, cs: seq<Claim>): seq<Entity> {
    if cs == [] then []
    else
      var w1 := ApplyClaims(w, cs[..|cs| - 1]);
      var cl := cs[|cs| - 1];
      Emptied(w, cs[..|cs| - 1])
      + if cl.amount > 0 && cl.drop in w1.entities && w1.entities[cl.drop].cargo.drop.Some?
           && cl.amount >= w1.entities[cl.drop].cargo.drop.value then [cl.drop] else []
  }

  // ---- Beams ---------------------------------------------------------------

  const HIT: U16 := 25

  function Drain(p: Pool, amount: U16): Pool {
    p.(current := if p.current >= amount then p.current - amount else 0)
  }

  /** What of a hit gets past the priority pool. */
  function PastPriority(p: Option<Pool>): U16 {
    if p.Some? then (if p.value.current >= HIT then 0 else HIT - p.value.current) else HIT
  }

  function HitPools(p: Pools): Pools {
    var rest := PastPriority(p.priority);
    var p1 := if p.priority.Some? then p.(priority := Some(Drain(p.priority.value, HIT))) else p;
    if rest == 0 then p1
    else if p.integrity.Some? then p1.(integrity := Some(Drain(p.integrity.value, rest)))
    else if p.shell.Some? then p1.(shell := Some(Drain(p.shell.value, rest)))
    else p1
  }

  /** Whether a hit terminates its target. */
  predicate Fatal(p: Pools) {
    var rest := PastPriority(p.priority);
    && rest > 0
    && if p.integrity.Some? then p.integrity.value.current <= rest
       else p.shell.Some? && p.shell.value.current <= rest
  }

  predicate HasPool(c: Components) {
    c.pools.priority.Some? || c.pools.integrity.Some? || c.pools.shell.Some?
  }

  predicate IsBeam(w: World, b: Entity) {
    b in w.entities && w.entities[b].gear.beam.Some? && w.entities[b].locale.position.Some?
  }

  predicate CanHit(w: World, b: Entity, t: Entity)
    requires IsBeam(w, b)
  {
    && t != b && t in w.entities && HasPool(w.entities[t]) && w.entities[t].locale.position.Some?
    && !(t in w.net.byEntity && w.net.byEntity[t] == w.entities[b].gear.beam.value.owner)
    && DistanceSquared(w.entities[t].locale.position.value, w.entities[b].locale.position.value) < 16.0
  }

  function FirstTarget(w: World, b: Entity, targets: seq<Entity>): (r: Option<Entity>)
    requires IsBeam(w, b)
    ensures r.Some? ==> CanHit(w, b, r.value)
  {
    if targets == [] then None
    else
      var r := FirstTarget(w, b, targets[..|targets| - 1]);
      var t := targets[|targets| - 1];
      if r.None? && CanHit(w, b, t) then Some(t) else r
  }

  predicate IsSpent(w: World, b: Entity)
    requires IsBeam(w, b)
  {
    var m := w.entities[b].gear.beam.value;
    m.lifetime == 0 || DistanceSquared(w.entities[b].locale.position.value, m.origin) > m.maxRange * m.maxRange
  }

  function AgeBeam(c: Components): Components {
    if c.gear.beam.Some? && c.gear.beam.value.lifetime > 0 then
      c.(gear := c.gear.(beam := Some(c.gear.beam.value.(lifetime := c.gear.beam.value.lifetime - 1))))
    else c
  }

  function BeamTarget(w: World, b: Entity, targets: seq<Entity>): Option<Entity> {
    if IsBeam(w, b) && !IsSpent(w, b) then FirstTarget(w, b, targets) else None
  }

  function BeamOne(w: World, b: Entity, targets: seq<Entity>): World {
    if !IsBeam(w, b) || IsSpent(w, b) then w
    else
      var w1 := Put(w, b, AgeBeam(w.entities[b]));
      match FirstTarget(w, b, targets)
      case None => w1
      case Some(t) => Put(w1, t, w.entities[t].(pools := HitPools(w.entities[t].pools)))
  }

  function BeamAll(w: World, beams: seq<Entity>, targets: seq<Entity>): World {
    if beams == [] then w else BeamOne(BeamAll(w, beams[..|beams| - 1], targets), beams[|beams| - 1], targets)
  }

  /** The beams to remove: out of life or range, or used up by a hit. */
  function Spent(w: World, beams: seq<Entity>, targets: seq<Entity>): seq<Entity> {
    if beams == [] then []
    else
      var w1 := BeamAll(w, beams[..|beams| - 1], targets);
      var b := beams[|beams| - 1];
      Spent(w, beams[..|beams| - 1], targets)
      + if IsBeam(w1, b) && (IsSpent(w1, b) || BeamTarget(w1, b, targets).Some?) then [b] else []
  }

  /** The targets terminated, one entry per fatal hit. */
  function Killed(w: World, beams: seq<Entity>, targets: seq<Entity>): seq<Entity> {
    if beams == [] then []
    else
      var w1 := BeamAll(w, beams[..|beams| - 1], targets);
      var t := BeamTarget(w1, beams[|beams| - 1], targets);
      Killed(w, beams[..|beams| - 1], targets)
      + if t.Some? && t.value in w1.entities && Fatal(w1.entities[t.value].pools) then [t.value] else []
  }

  // ---- Terminations --------------------------------------------------------

  /** Overwrites the drop amount of the entity known as `n`. */
  function SetDrop(w: World, n: NetworkId, amount: U16): World {
    if n in w.net.byId && w.net.byId[n] in w.entities && w.entities[w.net.byId[n]].cargo.drop.Some? then
      var c := w.entities[w.net.byId[n]];
      Put(w, w.net.byId[n], c.(cargo := c.cargo.(drop := Some(amount))))
    else w
  }

  function PositionOr0(c: Components): Position {
    if c.locale.position.Some? then c.locale.position.value else Position(0.0, 0.0)
  }

  function DropPayload(w: World, c: Components): World {
    if c.cargo.store.Some? && c.cargo.store.value.payload > 0 then
      SetDrop(SpawnKind(w, DATA_DROP, PositionOr0(c)), w.net.nextId, c.cargo.store.value.payload)
    else w
  }

  const REINIT := BARE.(clocks := Clocks(true, None, Some(RespawnTimer(600, Position(50.0, 50.0)))))

  function Mourn(w: World, c: Components): World {
    if c.clocks.training then SpawnLocal(w, REINIT) else w
  }

  function Terminate(w: World, e: Entity): World {
    if e in w.net.byEntity && e in w.entities then
      var c := w.entities[e];
      Despawn(Mourn(DropPayload(w, c), c), w.net.byEntity[e])
    else w
  }

  function TerminateAll(w: World, xs: seq<Entity>): World {
    if xs == [] then w else Terminate(TerminateAll(w, xs[..|xs| - 1]), xs[|xs| - 1])
  }

  function RemoveBeam(w: World, b: Entity): World {
    if b in w.net.byEntity then Despawn(w, w.net.byEntity[b]) else RemoveLocal(w, b)
  }

  function RemoveBeams(w: World, xs: seq<Entity>): World {
    if xs == [] then w else RemoveBeam(RemoveBeams(w, xs[..|xs| - 1]), xs[|xs| - 1])
  }

  // ---- Shots, regeneration, respawns ---------------------------------------

  datatype Shot = Shot(at: Position, owner: NetworkId)

  function SetBeamOwner(w: World, n: NetworkId, owner: NetworkId): World {
    if n in w.net.byId && w.net.byId[n] in w.entities && w.entities[w.net.byId[n]].gear.beam.Some? then
      var c := w.entities[w.net.byId[n]];
      Put(w, w.net.byId[n], c.(gear := c.gear.(beam := Some(c.gear.beam.value.(owner := owner)))))
    else w
  }

  function Shoot(w: World, s: Shot): World {
    SetBeamOwner(SpawnKind(w, BEAM, s.at), w.net.nextId, s.owner)
  }

  function ShootAll(w: World, shots: seq<Shot>): World {
    if shots == [] then w else Shoot(ShootAll(w, shots[..|shots| - 1]), shots[|shots| - 1])
  }

  function Regenerate(c: Components): Components {
    if c.pools.priority.Some? && c.pools.regen.Some? then
      var p := c.pools.priority.value;
      if c.pools.regen.value > 0 then c.(pools := c.pools.(regen := Some(c.pools.regen.value - 1)))
      else if p.current < p.max then c.(pools := c.pools.(priority := Some(p.(current := p.current + 1))))
      else c
    else c
  }

  function RegenerateAll(w: World): World {
    w.(entities := map e | e in w.entities :: Regenerate(w.entities[e]))
  }

  function SatDec(n: nat): nat {
    if n == 0 then 0 else n - 1
  }

  function TickTimer(c: Components): Components {
    if c.clocks.timer.Some? then
      c.(clocks := c.clocks.(timer := Some(c.clocks.timer.value.(delay := SatDec(c.clocks.timer.value.delay)))))
    else c
  }

  function TickTimers(w: World): World {
    w.(entities := map e | e in w.entities :: TickTimer(w.entities[e]))
  }

  predicate TimerDone(w: World, e: Entity) {
    e in w.entities && w.entities[e].clocks.timer.Some? && w.entities[e].clocks.timer.value.delay == 0
  }

  function DoneTimers(w: World, order: seq<Entity>): seq<Entity> {
    if order == [] then []
    else
      var e := order[|order| - 1];
      DoneTimers(w, order[..|order| - 1]) + if TimerDone(w, e) then [e] else []
  }

  function RemoveAll(w: World, xs: seq<Entity>): World {
    if xs == [] then w else RemoveLocal(RemoveAll(w, xs[..|xs| - 1]), xs[|xs| - 1])
  }

  function SpawnTargets(w: World, ps: seq<Position>): World {
    if ps == [] then w else SpawnKind(SpawnTargets(w, ps[..|ps| - 1]), TRAINING_TARGET, ps[|ps| - 1])
  }

  function TimerPlaces(w: World, xs: seq<Entity>): (ps: seq<Position>)
    ensures |ps| == |xs|
  {
    seq(|xs|, i requires 0 <= i < |xs| =>
      if xs[i] in w.entities && w.entities[xs[i]].clocks.timer.Some? then w.entities[xs[i]].clocks.timer.value.at
      else Position(0.0, 0.0))
  }

  function TickTracker(c: Components): Components {
    if c.clocks.respawn.Some? then
      var r := c.clocks.respawn.value;
      c.(clocks := c.clocks.(respawn := Some(r.(remaining := SatDec(r.remaining)))))
    else c
  }

  function TickTrackers(w: World): World {
    w.(entities := map e | e in w.entities :: TickTracker(w.entities[e]))
  }

  predicate TrackerDone(w: World, e: Entity) {
    e in w.entities && w.entities[e].clocks.respawn.Some? && w.entities[e].clocks.respawn.value.remaining == 0
  }

  /** The trackers that have run out, in query order. */
  function DoneTrackers(w: World, order: seq<Entity>): seq<Entity> {
    if order == [] then []
    else
      var e := order[|order| - 1];
      DoneTrackers(w, order[..|order| - 1]) + if TrackerDone(w, e) then [e] else []
  }

  function SetResource(w: World, n: NetworkId, capacity: U16): World {
    if n in w.net.byId && w.net.byId[n] in w.entities && w.entities[w.net.byId[n]].cargo.resource.Some? then
      var c := w.entities[w.net.byId[n]];
      Put(w, w.net.byId[n], c.(cargo := c.cargo.(resource := Some(Resource(capacity, capacity)))))
    else w
  }

  function Respawn(w: World, r: ResourceRespawn): World {
    SetResource(SpawnKind(w, RESOURCE, r.at), w.net.nextId, r.capacity)
  }

  function RespawnAll(w: World, rs: seq<ResourceRespawn>): World {
    if rs == [] then w else Respawn(RespawnAll(w, rs[..|rs| - 1]), rs[|rs| - 1])
  }

  function TrackersAt(w: World, xs: seq<Entity>): (rs: seq<ResourceRespawn>)
    ensures |rs| == |xs|
  {
    seq(|xs|, i requires 0 <= i < |xs| =>
      if xs[i] in w.entities && w.entities[xs[i]].clocks.respawn.Some? then w.entities[xs[i]].clocks.respawn.value
      else ResourceRespawn(0, Position(0.0, 0.0), 0))
  }

  // ---- The whole call ------------------------------------------------------

  /** What one simulate call takes from outside the model: the positions that physics
      computes, the order in which each query visits the entities, and the shots fired. */
  datatype Inputs = Inputs(
    moved: map<Entity, Position>, extractors: seq<Entity>, resources: seq<Entity>, drops: seq<Entity>,
    agents: seq<Entity>, beams: seq<Entity>, targets: seq<Entity>, shots: seq<Shot>,
    timers: seq<Entity>, trackers: seq<Entity>, sqrt: real -> real)

  function InputStage(w: World, i: Inputs): World {
    ToggleAll(EncloseAll(MoveAll(w, i.moved)))
  }

  function ExtractStage(w: World, i: Inputs): World {
    TransferAll(DisableAll(w, i.extractors, i.sqrt), Transfers(w, i.extractors, i.sqrt))
  }

  function ExhaustStage(w: World, i: Inputs): World {
    DespawnAll(SpawnTrackers(w, Exhausted(w, i.resources)), Exhausted(w, i.resources))
  }

  function CollectStage(w: World, i: Inputs): World {
    var cs := Claims(w, i.drops, i.agents);
    DespawnAll(ApplyClaims(w, cs), Emptied(w, cs))
  }

  function BeamStage(w: World, i: Inputs): World {
    RemoveBeams(TerminateAll(BeamAll(w, i.beams, i.targets), Killed(w, i.beams, i.targets)),
                Spent(w, i.beams, i.targets))
  }

  function ReinitStage(w: World, i: Inputs): World {
    var w1 := TickTimers(w);
    var xs := DoneTimers(w1, i.timers);
    SpawnTargets(RemoveAll(w1, xs), TimerPlaces(w1, xs))
  }

  function RespawnStage(w: World, i: Inputs): World {
    var w1 := TickTrackers(w);
    var xs := DoneTrackers(w1, i.trackers);
    RespawnAll(RemoveAll(w1, xs), TrackersAt(w1, xs))
  }

  function ThroughCollection(w: World, i: Inputs): World {
    CollectStage(ExhaustStage(ExtractStage(InputStage(w, i), i), i), i)
  }

  function ThroughReinit(w: World, i: Inputs): World {
    ReinitStage(RegenerateAll(ShootAll(BeamStage(ThroughCollection(w, i), i), i.shots)), i)
  }

  function Simulate(w: World, i: Inputs): World {
    RespawnStage(ThroughReinit(w, i), i)
  }
}
