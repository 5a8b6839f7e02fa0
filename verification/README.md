# Aetheris server core, verified in Dafny

A model of the authoritative core of the Aetheris engine: the tick scheduler with its client
sessions, the Bevy world adapter with its payload economy, the anti-replay window for input, the
replication and delivery of deltas, the rate limiters, and the session idle window.
`dafny verify dfyconfig.toml` covers the whole project.

## How it is organised

Each part of the server that changes state in place is a class (or a method with loops) whose
contracts tie the new state to a function of the old one. The functions say what one call does; the
theorems are about those functions, over every input, every run or every reachable state.

| module | what it holds |
|---|---|
| `Ecs`, `Adapter` | entities and components; the adapter's life-cycle operations and lookups |
| `Coherence`, `Upkeep` | what spawns, despawns, clears and every simulate stage keep |
| `Economy` | the stages of `simulate`, as functions |
| `Totals`, `Ledger`, `LedgerRuns` | conservation of payload and of resource slots, per call and per run |
| `Crowding` | reachable worlds in which collection overfills or wraps a store |
| `Respawns`, `Lineage`, `RespawnRuns` | respawns: when, how many, and over scheduler runs |
| `Updates`, `AntiReplay` | inbound updates without caches; the anti-replay window over runs |
| `BevyWorld` | the adapter as a class: fields, caches and loops, refining the functions above |
| `Session`, `Custody`, `Aliasing` | the scheduler as a state machine; who holds which session agent |
| `Privileges`, `Admission` | what each request, event and stage does, and who may ask for it; the clock over ticks |
| `Frames`, `Steering` | what stages leave alone; what a server run does to one session agent's input and extraction beam |
| `Scheduler` | the tick scheduler as a class, refining that state machine |
| `Replication`, `Mirroring` | change-tick extraction and a replica; the replica follows the adapter through scheduler runs |
| `Batching`, `Fragmentation` | grouping deltas per client; splitting and restoring payloads |
| `TokenBucket`, `FixedWindow`, `IdleWindow` | the limiters and the session idle window |
| `Interaction`, `Barrage` | hits, choice of targets and collectors; what the beams of a call cost, by counting hits |
| `Extraction`, `Gathering` | toggles, what each beam draws in its turn; shares of drops, what runs out, positions after a call |
| `Motion`, `Reals` | speed limit, turning and toroidal bounds over the reals |

## Conventions

- A Bevy query visits its entities in some order: stages take that order as a sequence. Where a
  result needs it, the sequence is assumed to have no duplicates or to be complete, as a query is
  (`RespawnRuns.UndisturbedRuns`: such runs exist from every state).
- Network ids come from a counter that starts at 1 and is reset only by `clear_world`.
- `f32` and `f64` are reals, clocks do not go back, and each call of a limiter or of the
  authentication service is one step.
- `u16` arithmetic wraps, as it does in a build without overflow checks; it is written out (`Wrap`).
  Saturating `u64` arithmetic is written out too.
- Positions after the physics stage (before the bounds are enforced), the shots fired, random positions, the clock, the square root
  and the answers of the authentication service are inputs.
- Replicators are arbitrary functions of an entity's components that write nothing server-only
  (`SparesServer`), as those that the server registers (`Steering.PlatformRegistry`). Most insert the
  component that the owner of an entity sends. Results about agents, owners and replication hold
  whatever clients send; results about the economy and the workspace index are for runs in which they
  send input commands (`Custody.InputRun`), and results about beams for runs in which nothing else
  writes inputs and beams (`Steering.ControlRun`), whatever is registered.

## What turned out not to hold

- Payload collection can overfill a store, and can wrap it: several drops may claim the same room
  (`Crowding.TwoClaimsOverfill`, `Crowding.ManyClaimsWrap`). `Ledger.CollectionFitsIff` and
  `Ledger.CollectionConservesIff` say exactly when it does not, and `Ledger.ClaimedOnceFits` that it
  does not where each agent is claimed by one drop.
- The anti-replay window accepts a tick twice for a client whose recorded tick is more than 600
  ahead of the server (`AntiReplay.ReplayWitness`); `AntiReplay.IncreasingIff` says exactly when the
  accepted ticks increase.
- `ClearWorld` leaves the records of other clients pointing at ids that will be given out again
  (`Aliasing.AliasingReachable`); `Aliasing.ClearAliasIff` says exactly when that can bite.
- Pruning the token buckets never removes anything for rates of two and more
  (`TokenBucket.PruneFiresIff`).
- The scheduler's periodic session check refreshes only sessions whose jitter is a multiple of 60
  (`IdleWindow.PeriodicRefreshIff`), so a silent session otherwise expires.
- A cleanup of the authentication limiter changes the answer to a check at the very instant an
  exhausted window ends, and at no other (`FixedWindow.SweepChangesAnswerIff`,
  `FixedWindow.SweepLetsThrough`).
- A component written between an extraction and the clearing of the change trackers is not sent
  until it is written again (`Replication.WriteSeenIff`); no stage of a tick writes there.
- Where comments and code differ, the model follows the code: the extraction beam's efficiency falls
  to a tenth rather than to zero (`extraction.rs`), and the telemetry limiter's window is fixed rather
  than sliding (`telemetry.rs`).

## Model

| member | source | states |
|---|---|---|
| `Coherence.SpawnKindKeeps` | crates/aetheris-ecs-bevy/src/adapter.rs:870-1198 | a spawn keeps bimap, owner cache, index and kinds coherent, founds the one master workspace if there is none, and renames nothing |
| `Coherence.DespawnKeeps` | crates/aetheris-ecs-bevy/src/adapter.rs:793-841 | a despawn keeps ids, owners and bimap tied; despawning a non-workspace entity keeps the index and the master |
| `Coherence.SetOwnerKeeps` | crates/aetheris-ecs-bevy/src/adapter.rs:1200-1214 | giving an entity an owner keeps the owner cache equal to the NetworkOwner components |
| `Coherence.MarkSessionCoherent` | crates/aetheris-ecs-bevy/src/adapter.rs:1225-1258 | marking a session agent keeps the adapter coherent and the client index equal to the master |
| `Coherence.ClearKeeps` | crates/aetheris-ecs-bevy/src/adapter.rs:1282-1315 | a clear leaves a tied world without named entities, session agents or master |
| `Coherence.FoundMaster` | crates/aetheris-ecs-bevy/src/adapter.rs:892-923 | the lazily created workspace is the only master and is the one found |
| `Adapter.SpawnMasterIsFound` | crates/aetheris-ecs-bevy/src/adapter.rs:877-921 | after the workspace is created a master is found, so the recursion of a spawn nests once |
| `Upkeep.SpawnKindNew` | crates/aetheris-ecs-bevy/src/adapter.rs:924-1198 | the new entity is the newest, under the id that was next, with the parts of its kind; everything older is unchanged |
| `Upkeep.SpawnKindTakes` | crates/aetheris-ecs-bevy/src/adapter.rs:870-923 | a spawn takes one id, or three when it founds the master workspace |
| `Upkeep.SimulateKeeps` | crates/aetheris-ecs-bevy/src/adapter.rs:301-713 | one simulate call, whatever its inputs, keeps the adapter tied and coherent, keeps the master, and changes no identity |
| `Ledger.PayloadLedger` | crates/aetheris-ecs-bevy/src/adapter.rs:524-687 | one simulate call changes stores plus resources plus drops by the capacities that come due, minus the resources destroyed by beams, minus 65536 per wrapped store, under any contention |
| `Ledger.SlotLedger` | crates/aetheris-ecs-bevy/src/adapter.rs:524-687 | live resources plus pending trackers change only by the resources that beams destroy |
| `Ledger.ExtractionSafe` | crates/aetheris-ecs-bevy/src/extraction.rs:46-139 | every transfer is safe: no subtraction underflows, no store passes its capacity, payload is conserved |
| `Ledger.ExhaustStageWorth` | crates/aetheris-ecs-bevy/src/extraction.rs:148-204 | exhaustion exchanges each empty resource for one tracker: slots and payload stay |
| `Ledger.CollectStageWorth` | crates/aetheris-ecs-bevy/src/extraction.rs:228-297 | collection changes payload by exactly the wraps of the stores it loads |
| `Ledger.CollectionConservesIff` | crates/aetheris-ecs-bevy/src/extraction.rs:263-293 | collection conserves payload exactly when no store that is claimed wraps |
| `Ledger.CollectionFitsIff` | crates/aetheris-ecs-bevy/src/extraction.rs:235-293 | a store ends within its capacity exactly when its payload plus all it claimed, wrapped to 16 bits, is at most the capacity |
| `Ledger.ClaimedOnceFits` | crates/aetheris-ecs-bevy/src/extraction.rs:235-293 | an agent that at most one drop of the tick goes to stays within its capacity and gains exactly its claim |
| `Crowding.HeapFitsIff` | crates/aetheris-ecs-bevy/src/extraction.rs:235-293 | in a coherent world with one empty agent and n drops of 500 around it, built by spawns and dropped payloads, the agent ends within its capacity exactly when 500 n wraps to at most 500 |
| `Crowding.TwoClaimsOverfill` | crates/aetheris-ecs-bevy/src/extraction.rs:235-293 | two such drops overfill the agent |
| `Crowding.ManyClaimsWrap` | crates/aetheris-ecs-bevy/src/extraction.rs:263-293 | 132 of them wrap its store: payload is lost and the store looks as if all had fitted |
| `Ledger.TerminateAllWorth` | crates/aetheris-ecs-bevy/src/adapter.rs:556-616 | terminations turn carried payload into drops once per entity, also when several beams kill it |
| `Ledger.BeamStageWorth` | crates/aetheris-ecs-bevy/src/interaction.rs:116-256 | beams change the totals only by the resources they destroy |
| `Ledger.RespawnStageWorth` | crates/aetheris-ecs-bevy/src/extraction.rs:207-225 | the respawn stage adds exactly the capacities of the trackers that run out |
| `LedgerRuns.RunLedger` | crates/aetheris-ecs-bevy/src/adapter.rs:524-687 | over every run without a clear in which clients send input commands, payload and slots end at the start, plus what was spawned, minus what departing clients' agents carried, plus what each simulate call yields |
| `Respawns.TrackerCountsDown` | crates/aetheris-ecs-bevy/src/extraction.rs:207-225 | one simulate call counts a tracker down by one or brings its resource back, full and in place |
| `Respawns.TimerCountsDown` | crates/aetheris-ecs-bevy/src/interaction.rs:274-294 | one simulate call counts a target's timer down by one or spawns the target anew |
| `Respawns.AllAreBack` | crates/aetheris-ecs-bevy/src/adapter.rs:677-687 | every resource that comes due gets an entity of its own |
| `Lineage.ExhaustExactly` | crates/aetheris-ecs-bevy/src/extraction.rs:148-204 | the exhaustion stage removes exactly the exhausted resources, and its k-th new entity is the tracker of the k-th of them, with its place and capacity; it adds nothing else |
| `Lineage.NewResources` | crates/aetheris-ecs-bevy/src/extraction.rs:207-225 | the new resources of a call match the trackers that run out in it one to one: each is fresh, full and in place, its tracker is gone, and there is no other |
| `Lineage.NewTargets` | crates/aetheris-ecs-bevy/src/interaction.rs:274-294 | the new training targets of a call match the timers that run out in it one to one |
| `Lineage.OneTimerEach` | crates/aetheris-ecs-bevy/src/adapter.rs:556-616 | after a whole call the new timers, at 599, are paired one to one with the training targets killed in it, however many beams hit one |
| `RespawnRuns.ResourceReturns` | crates/aetheris-ecs-bevy/src/extraction.rs:148-225 | a resource exhausted in simulate k is gone from then on, its tracker waits through k+299, and in k+300 it is back as a fresh entity, in place, with full capacity, one for one with the trackers that run out, whatever else happens short of a clear and of client updates other than commands |
| `RespawnRuns.TargetReturns` | crates/aetheris-ecs-bevy/src/interaction.rs:274-294 | a training target terminated in simulate k is gone from then on and back in k+599 as a fresh entity, one for one with the timers that run out, under the same conditions |
| `RespawnRuns.SteadyFromStart` | crates/aetheris-server/src/tick.rs:180-700 | the states from which these results start are those that every run from the start reaches in which clients send input commands |
| `RespawnRuns.StageSparesLocal` | crates/aetheris-server/src/tick.rs:235-680 | no stage of a tick but a clear or a simulate call touches a pending respawn |
| `Updates.UpdatesTied` | crates/aetheris-ecs-bevy/src/adapter.rs:203-280 | whatever clients send, updates keep ids, owners and bimap tied |
| `Updates.UpdatesTouchOwn` | crates/aetheris-ecs-bevy/src/adapter.rs:222-262 | an entity that none of the senders owns is left exactly as it was |
| `Updates.InputsKeep` | crates/aetheris-ecs-bevy/src/adapter.rs:203-280 | updates that write inputs only keep the adapter coherent, whatever else is registered |
| `Updates.CommandIsInput` | crates/aetheris-ecs-bevy/src/registry.rs:176-349 | an update of the kind registered for input commands writes inputs only, whatever else is registered |
| `Updates.InputIsCommand` | crates/aetheris-ecs-bevy/src/registry.rs:176-349 | the input replicator, behind its gate, and the toggle stage act on an agent as one command and one simulate call of an anti-replay run |
| `Updates.TiedCache` | crates/aetheris-ecs-bevy/src/adapter.rs:771-791 | in a tied world the owner cache is sound and complete |
| `BevyWorld.BevyWorldAdapter.constructor` | crates/aetheris-ecs-bevy/src/adapter.rs:54-82 | a new adapter is empty |
| `BevyWorld.BevyWorldAdapter.GetClientWorkspace` | crates/aetheris-ecs-bevy/src/adapter.rs:1323-1345 | the index first, then the scan; in a coherent world both are the master |
| `BevyWorld.BevyWorldAdapter.GetEntityWorkspace` | crates/aetheris-ecs-bevy/src/adapter.rs:1317-1321 | the membership of the live entity, if any |
| `BevyWorld.BevyWorldAdapter.FindMaster` | crates/aetheris-ecs-bevy/src/adapter.rs:876-891 | the scan finds the first master workspace known to the bimap |
| `BevyWorld.BevyWorldAdapter.SpawnKind` | crates/aetheris-ecs-bevy/src/adapter.rs:870-1198 | the recursive method does what `Adapter.SpawnKind` says and returns the id that was next |
| `BevyWorld.BevyWorldAdapter.SpawnKindFor` | crates/aetheris-ecs-bevy/src/adapter.rs:1200-1223 | a spawn with an owner, in the component and in the cache |
| `BevyWorld.BevyWorldAdapter.SpawnSessionAgent` | crates/aetheris-ecs-bevy/src/adapter.rs:1225-1258 | a spawn with an owner, a session marker and an index entry |
| `BevyWorld.BevyWorldAdapter.DespawnNetworked` | crates/aetheris-ecs-bevy/src/adapter.rs:793-841 | the entity leaves store, bimap, owner cache, every membership set and, for a session agent, the client index; unknown ids are reported |
| `BevyWorld.BevyWorldAdapter.ClearWorld` | crates/aetheris-ecs-bevy/src/adapter.rs:1282-1315 | despawning in any order and dropping trackers leaves exactly the local entities that are no trackers, and a fresh allocator |
| `BevyWorld.BevyWorldAdapter.ApplyUpdates` | crates/aetheris-ecs-bevy/src/adapter.rs:203-280 | the cached path has the effect of the plain fold "live id, owner is the sender, replicator registered"; the cache stays sound, and unchanged if it was complete |
| `BevyWorld.BevyWorldAdapter.AdvanceTick` | crates/aetheris-ecs-bevy/src/adapter.rs:290-296 | the server tick grows by one and saturates |
| `BevyWorld.BevyWorldAdapter.EnforceBounds` | crates/aetheris-ecs-bevy/src/adapter.rs:472-502 | collecting the workspaces' bounds and wrapping each member in loops is the bounds stage |
| `BevyWorld.BevyWorldAdapter.ProcessInput` | crates/aetheris-ecs-bevy/src/adapter.rs:472-522 | refines `InputStage`: positions move and are wrapped into their workspaces (`Gathering.CallPlace`), and beams obey the first toggle of a new command (`Extraction.CommandToggles`) |
| `BevyWorld.BevyWorldAdapter.ValidateBeam` | crates/aetheris-ecs-bevy/src/extraction.rs:26-97 | refines the verdict on one extraction beam: idle, off, wait or draw, and how much (what comes of it: `Extraction.DrawsInTurn`, `MissesAreOff`, `IdleStays`) |
| `BevyWorld.BevyWorldAdapter.ProcessExtraction` | crates/aetheris-ecs-bevy/src/extraction.rs:17-139 | collecting, disabling and transferring in loops is the extraction stage |
| `BevyWorld.BevyWorldAdapter.HandleResourceExhaustion` | crates/aetheris-ecs-bevy/src/extraction.rs:148-204 | trackers spawned and resources despawned in loops is the exhaustion stage |
| `BevyWorld.BevyWorldAdapter.ProcessPayloadCollection` | crates/aetheris-ecs-bevy/src/extraction.rs:228-297 | claims against the snapshot, then loads and despawns, is the collection stage |
| `BevyWorld.BevyWorldAdapter.ProcessBeams` | crates/aetheris-ecs-bevy/src/interaction.rs:116-213 | refines `BeamAll`, `Spent` and `Killed`: what the hits cost (`Barrage.BeamsCost`), the targets killed (`Barrage.KilledIff`) and the beams to remove (`Barrage.SpentIff`) |
| `BevyWorld.BevyWorldAdapter.HandleBeams` | crates/aetheris-ecs-bevy/src/adapter.rs:556-634 | terminations with their drops and timers, then beam removal, is the beam stage |
| `BevyWorld.BevyWorldAdapter.SpawnBeams` | crates/aetheris-ecs-bevy/src/adapter.rs:644-670 | every shot becomes a beam owned by its shooter |
| `BevyWorld.BevyWorldAdapter.ProcessRegen` | crates/aetheris-ecs-bevy/src/interaction.rs:259-271 | priority pools wait, then grow by one up to their maximum |
| `BevyWorld.BevyWorldAdapter.ProcessTargetReinitialization` | crates/aetheris-ecs-bevy/src/interaction.rs:274-294 | timers count down and those at zero are exchanged for targets |
| `BevyWorld.BevyWorldAdapter.ProcessRespawn` | crates/aetheris-ecs-bevy/src/extraction.rs:207-225 | trackers count down and those at zero are exchanged for resources |
| `BevyWorld.BevyWorldAdapter.Simulate` | crates/aetheris-ecs-bevy/src/adapter.rs:301-713 | the loops together are `Economy.Simulate`, of which the ledger speaks |
| `BevyWorld.ApplyBeamHit` | crates/aetheris-ecs-bevy/src/interaction.rs:216-256 | the branches of a hit give the pools and the verdict that `Interaction` speaks of |
| `Extraction.CommandToggles` | crates/aetheris-ecs-bevy/src/adapter.rs:504-522 | the input stage acts on a command once per client tick: its first toggle, by index among the actions, turns the beam over and names the target; without a toggle only the tick is noted |
| `Extraction.NoCommandNoToggle` | crates/aetheris-ecs-bevy/src/adapter.rs:504-522 | without a command the beam stays as it is |
| `Extraction.DrawsInTurn` | crates/aetheris-ecs-bevy/src/extraction.rs:46-139 | an agent of the query that aims at a live resource draws in its turn, on every tenth tick, the rate with linear falloff to a tenth, rounded to the nearest and at least 1, as far as the agents before it left that much and it has room; out of range or full, its beam is switched off, otherwise it stays on |
| `Extraction.LeftInTurn` | crates/aetheris-ecs-bevy/src/extraction.rs:101-139 | a resource ends with what the agents of the query, each in its turn, left of it |
| `Extraction.MissesAreOff` | crates/aetheris-ecs-bevy/src/extraction.rs:46-101 | a beam whose target is missing or no resource is switched off and draws nothing |
| `Extraction.IdleStays` | crates/aetheris-ecs-bevy/src/extraction.rs:26-45 | a beam that is off stays off and draws nothing |
| `Barrage.BeamsCost` | crates/aetheris-ecs-bevy/src/interaction.rs:116-256 | a target that n beams of a call strike (each the first in its query within four metres, not its shooter) has lost 25 n, from its priority pool first and then from the pool behind it; struck by none it keeps its pools |
| `Barrage.KilledIff` | crates/aetheris-ecs-bevy/src/interaction.rs:216-256 | it is on the list of terminations exactly when those hits cover all it had and a pool lies behind its priority pool |
| `Barrage.DiesIff` | crates/aetheris-ecs-bevy/src/adapter.rs:556-634 | in the beam stage a named target dies exactly then; if it lives, it has the pools that the hits left |
| `Barrage.DiesInCall` | crates/aetheris-ecs-bevy/src/interaction.rs:116-256 | over successive calls without regeneration a target dies in exactly the call whose hits, with those of the calls before, cover its strength |
| `Barrage.SpentIff` | crates/aetheris-ecs-bevy/src/interaction.rs:145-200 | exactly those beams are to be removed that have no life or range left or strike something |
| `Barrage.BeamFate` | crates/aetheris-ecs-bevy/src/interaction.rs:145-200 | a named beam outlives the stage exactly when it has life and range left and strikes nothing (and is not itself shot), and is then one tick older |
| `Barrage.CallPools` | crates/aetheris-ecs-bevy/src/interaction.rs:116-271 | over a whole call the pools of a survivor are those before, less 25 for each beam that struck it, and then mended by one tick of regeneration |
| `Interaction.HitSpends` | crates/aetheris-ecs-bevy/src/interaction.rs:216-256 | a hit takes 25 from the priority pool first and the rest from the pool behind it, never below zero, and touches nothing else |
| `Interaction.FatalIff` | crates/aetheris-ecs-bevy/src/interaction.rs:216-256 | a hit kills exactly when it covers all the target has left |
| `Interaction.KillingHit` | crates/aetheris-ecs-bevy/src/interaction.rs:216-256 | over any number of hits, the one that kills is the one that covers the initial strength |
| `Interaction.RegenerationIs` | crates/aetheris-ecs-bevy/src/interaction.rs:259-271 | after n ticks a pool has waited out its timer and grown by the rest, up to its maximum |
| `Interaction.TargetIsFirst` | crates/aetheris-ecs-bevy/src/interaction.rs:161-198 | a beam hits the first target of the query that it can hit, and none only if there is none |
| `Interaction.CollectorIsFirst` | crates/aetheris-ecs-bevy/src/extraction.rs:240-262 | a drop goes to the first agent of the query in reach with room, and to none only if there is none |
| `Gathering.GatherGains` | crates/aetheris-ecs-bevy/src/extraction.rs:228-293 | after collection an agent holds what it held and, of every drop it is the first within ten metres with room for, the smaller of the drop and its room, modulo 65536 |
| `Gathering.DropTaken` | crates/aetheris-ecs-bevy/src/extraction.rs:228-297 | a named drop loses that share, and is gone exactly when that is all it held |
| `Gathering.DropStays` | crates/aetheris-ecs-bevy/src/extraction.rs:228-297 | what no agent takes from stays, with as much in it as before |
| `Gathering.RunsOutIff` | crates/aetheris-ecs-bevy/src/extraction.rs:148-204 | of the named resources visited exactly the empty ones are despawned, and nothing else is |
| `Gathering.CallStore` | crates/aetheris-ecs-bevy/src/adapter.rs:524-687 | over a whole call an agent that lives carries what extraction left it with and its share of every drop it is then the first to reach |
| `Gathering.CallPlace` | crates/aetheris-ecs-bevy/src/adapter.rs:472-502 | an entity that lives through a whole call is where physics put it, or inside the 500 by 500 bounds, whole widths and heights from there |
| `Gathering.ShotsFly` | crates/aetheris-ecs-bevy/src/adapter.rs:644-670 | every shot becomes a beam of its own, at its place, with range 200, life 300 and its owner; nothing older changes |
| `Frames.RestFrame` | crates/aetheris-ecs-bevy/src/adapter.rs:524-687 | after the input stage and the switching off of beams no stage of a call changes the identity, the input, the extraction beam or the place of what it leaves alive, or takes a component from it |
| `Interaction.AmountFalls` | crates/aetheris-ecs-bevy/src/extraction.rs:79-87 | a beam draws at least one, at most its rate, and no more from farther away |
| `Interaction.MembersInside` | crates/aetheris-ecs-bevy/src/adapter.rs:472-502 | wherever physics put it, after the bounds stage every member lies inside its workspace, whole widths and heights away, and is not moved if it was inside |
| `Interaction.DropLeft` | crates/aetheris-ecs-bevy/src/adapter.rs:571-595 | a terminated carrier leaves its whole payload in a drop where it was |
| `Interaction.ShotLeft` | crates/aetheris-ecs-bevy/src/adapter.rs:644-670 | a shot becomes a beam in its place, with its shooter's id and a full life |
| `Interaction.BeamAges` | crates/aetheris-ecs-bevy/src/interaction.rs:150-161 | in one call a beam is removed or has one tick less to live, whatever the other beams do |
| `Session.DropSetStep` | crates/aetheris-server/src/tick.rs:235-256 | dropping a set of clients does not depend on the order |
| `Privileges.Refused` | crates/aetheris-server/src/tick.rs:1032-1036 | outside development mode a ClearWorld, Spawn or StressTest of a client whose id is not "admin" leaves the server exactly as it was |
| `Privileges.OrdinaryRun` | crates/aetheris-server/src/tick.rs:477-590 | a run in which no login is answered with "admin" ends in exactly the state of the run without those requests |
| `Privileges.ClearEmpties` | crates/aetheris-server/src/tick.rs:571-590 | an administrator's clear leaves no named entity, empty indices and a fresh id allocator; exactly the nameless entities that are no resource trackers stay, and only the administrator's own record is reset |
| `Privileges.SpawnPlaces` | crates/aetheris-server/src/tick.rs:510-531 | an administrator's spawn puts an entity of that kind, with the parts of a literal table, where it asked, under the id that was next and owned by the sender; everything older stays |
| `Privileges.StressSpawns` | crates/aetheris-server/src/tick.rs:477-509 | a stress test spawns as many as it asks for, at most 1000, founding the world first if need be, and changes nothing older |
| `Privileges.ManySpawned` | crates/aetheris-ecs-bevy/src/adapter.rs:843-867 | the k-th of many spawns is of the kind 1, 3, 4, 5, 6 in rotation, at the k-th place |
| `Privileges.KindIs` | crates/aetheris-ecs-bevy/src/adapter.rs:930-1198 | the parts of every kind of entity, as a table of literals |
| `Admission.Leaves` | crates/aetheris-server/src/tick.rs:299-375 | a lost connection, or a message of a client the service no longer authorises, removes that client, its agent and nothing else |
| `Admission.LeavesNoTrace` | crates/aetheris-ecs-bevy/src/adapter.rs:793-841 | where records are exclusive, the names, the owner, the memberships and the client's indexed workspace go with the agent, and no other entry changes |
| `Admission.Refuses` | crates/aetheris-server/src/tick.rs:234-256 | the periodic check removes exactly the refused clients and their agents |
| `Admission.LogsIn` | crates/aetheris-server/src/tick.rs:389-418 | a verified login removes the player's other clients with their agents and records the new one without an agent |
| `Admission.Unheard` | crates/aetheris-server/src/tick.rs:330-460 | who is not logged in is ignored unless it logs in, and who is logged in need not log in again |
| `Admission.Starts` | crates/aetheris-server/src/tick.rs:532-548 | a client without an agent gets a session agent of kind 1 at the origin, under the next id, owned and indexed for it; nothing older changes |
| `Admission.StartsOnce` | crates/aetheris-server/src/tick.rs:532-548 | a client that has an agent on record gets no other |
| `Admission.Waits` | crates/aetheris-server/src/tick.rs:612-624 | what a client sends waits in order under its own name |
| `Admission.TakesEffect` | crates/aetheris-ecs-bevy/src/adapter.rs:203-280 | of the waiting updates each in order takes effect exactly when its entity is live and owned by the sender and its kind is registered, and on that entity only; none waits on |
| `Admission.TickShape` | crates/aetheris-server/src/tick.rs:180-700 | the stages of a tick by index: clock, population of the first tick, the check every 60 ticks, the events in order, the updates, the simulation |
| `Admission.ClockIsTick` | crates/aetheris-server/src/tick.rs:190-198 | after n ticks the clock of the world shows n, whatever happened in them |
| `Custody.RunSound` | crates/aetheris-server/src/tick.rs:235-582 | in every state of every run, clears included: each live session agent is owned by an authenticated client whose record names it, and authenticated clients are different players |
| `Custody.OneAgentEach` | crates/aetheris-server/src/tick.rs:389-418 | two session agents have different owners and different players |
| `Custody.RunExclusive` | crates/aetheris-server/src/tick.rs:299-548 | along every run without a clear a recorded id is a live session agent of that client or not live |
| `Custody.RunDeadStay` | crates/aetheris-server/src/tick.rs:180-700 | along every run without a clear, an id or entity that is dead stays dead |
| `Custody.RecordLiveOrDead` | crates/aetheris-server/src/tick.rs:299-548 | so a recorded id is a live session agent of that client, or dead for good |
| `Custody.DropSparesOthers` | crates/aetheris-server/src/tick.rs:299-327 | a disconnect, kick or revocation despawns nothing but the client's own session agent |
| `Custody.RunSettled` | crates/aetheris-server/src/tick.rs:180-700 | in every state of every run in which clients send input commands, clears included and whatever is registered, the adapter is coherent and the master workspace is there under id 2 |
| `Custody.CommandRun` | crates/aetheris-ecs-bevy/src/registry.rs:176-349 | a run whose updates are all of the kind registered for input commands is such a run |
| `Custody.ClearExclusiveIff` | crates/aetheris-server/src/tick.rs:570-590 | after a clear the records are exclusive exactly when nobody else had one |
| `Aliasing.ClearAliasIff` | crates/aetheris-server/src/tick.rs:570-590 | after a clear, some run lets a removal despawn an entity that is not the client's own exactly when another client had an agent on record |
| `Aliasing.AliasingReachable` | crates/aetheris-server/src/tick.rs:570-590 | such a state is reached by an administrator and one other client, whatever is registered |
| `Scheduler.TickScheduler.constructor` | crates/aetheris-server/src/tick.rs:54-79 | nobody is authenticated at tick zero |
| `Scheduler.TickScheduler.DropClient` | crates/aetheris-server/src/tick.rs:299-305 | the record goes and its agent with it |
| `Scheduler.TickScheduler.DropClients` | crates/aetheris-server/src/tick.rs:400-415 | dropping one by one in any order drops the set |
| `Scheduler.TickScheduler.RevokeSessions` | crates/aetheris-server/src/tick.rs:234-256 | exactly the clients the service refuses are dropped |
| `Scheduler.TickScheduler.LogIn` | crates/aetheris-server/src/tick.rs:389-418 | other sessions of the player are dropped and a record without agent is made |
| `Scheduler.TickScheduler.StartSessionFor` | crates/aetheris-server/src/tick.rs:532-548 | an agent is spawned only for a record without one |
| `Scheduler.TickScheduler.ServeRequest` | crates/aetheris-server/src/tick.rs:460-640 | refines the requests of an authenticated client: playground commands change nothing unless privileged (`Privileges.Refused`), and then do what they say (`Privileges.ClearEmpties`, `SpawnPlaces`, `StressSpawns`) |
| `Scheduler.TickScheduler.HandleEvent` | crates/aetheris-server/src/tick.rs:265-460 | lost connections, refused sessions, logins and requests |
| `Scheduler.TickScheduler.ApplyCollected` | crates/aetheris-server/src/tick.rs:641-644 | the collected updates are applied with the effect of the plain fold |
| `Scheduler.TickScheduler.TickStep` | crates/aetheris-server/src/tick.rs:180-700 | one tick is the sequence of its stages, so it keeps every agent with its client and, if clients send input commands, the adapter coherent |
| `AntiReplay.StepBackIff` | crates/aetheris-ecs-bevy/src/registry.rs:284-306 | a tick that is not new is taken exactly when the recorded one is beyond the server's window and it is inside |
| `AntiReplay.CommandRecorded` | crates/aetheris-ecs-bevy/src/registry.rs:279-349 | which tick and command are recorded, by the literal window of 600: the first command at most 600 ahead of the server, a later one if it is at most 600 further on or resynchronises |
| `AntiReplay.IncreasingIff` | crates/aetheris-ecs-bevy/src/registry.rs:279-349 | over a whole run the accepted ticks increase exactly when no resync steps back |
| `AntiReplay.NeverAheadIncreases` | crates/aetheris-ecs-bevy/src/registry.rs:279-349 | if nothing was accepted more than 600 ahead of the server, accepted ticks increase for the whole run |
| `AntiReplay.ReplayWitness` | crates/aetheris-ecs-bevy/src/registry.rs:284-306 | a run in which the same tick is accepted twice |
| `AntiReplay.FlipsAtMostOnce` | crates/aetheris-ecs-bevy/src/adapter.rs:504-522 | commands flip the extraction beam at most as often as toggles are accepted, however many simulate calls hold them and however often validation switches the beam off |
| `AntiReplay.FlipsExactly` | crates/aetheris-ecs-bevy/src/adapter.rs:504-522 | the flips of a run are exactly the accepted toggles that a simulate call saw, whatever validation switches off |
| `Steering.PlatformRegistry` | crates/aetheris-ecs-bevy/src/registry.rs:364-627 | a registry with the input replicator and others that insert a component which is not server-only writes nothing server-only and takes no component away |
| `Steering.SimulateSteers` | crates/aetheris-ecs-bevy/src/extraction.rs:46-101 | a simulate call that an agent survives toggles its beam as its latest command says, then switches it off exactly if validation fails, and changes neither otherwise |
| `Steering.UpdatesSteer` | crates/aetheris-ecs-bevy/src/adapter.rs:203-280 | of inbound updates that leave inputs and beams to commands, exactly the decodable commands from its owner reach an agent's input, in order |
| `Steering.RunSteers` | crates/aetheris-server/src/tick.rs:180-700 | over every such run of the server that it outlives, a session agent has exactly the input and beam that the run's events leave it with |
| `Steering.RunClocked` | crates/aetheris-server/src/tick.rs:190-198 | those commands come in the order of the server's tick, which never goes back |
| `Steering.SessionFlips` | crates/aetheris-ecs-bevy/src/registry.rs:279-349 | from its spawn on, a session agent's beam flips at most once per accepted toggle, exactly once per toggle seen if no resync steps back, and its accepted ticks increase exactly then |
| `AntiReplay.WaitIsExact` | crates/aetheris-ecs-bevy/src/registry.rs:284-306 | how long a client that follows the server tick is locked out, exactly |
| `AntiReplay.LockoutIsBounded` | crates/aetheris-ecs-bevy/src/registry.rs:284-306 | from any recorded tick such a client is accepted within 601 ticks |
| `Replication.TickSyncs` | crates/aetheris-ecs-bevy/src/adapter.rs:146-188 | a completed tick makes the replica equal to the server, in whatever order its messages are applied and however many ticks failed before it |
| `Replication.RunSyncs` | crates/aetheris-server/src/tick.rs:190-733 | in every run, failed polls included, the replica equals the replicated component map after every completed tick |
| `Replication.RunStamped` | crates/aetheris-ecs-bevy/src/adapter.rs:715-720 | along every run nothing is stamped later than the change tick, and after a completed tick everything stamped has been sent |
| `Replication.UnsentIff` | crates/aetheris-ecs-bevy/src/registry.rs:113-141 | after any mutations a component is unsent exactly when it was written in them or is one that was unsent before |
| `Replication.ResentIff` | crates/aetheris-ecs-bevy/src/registry.rs:113-141 | between completed ticks, failed ones in between or not, a component is sent exactly when it was written since the last extraction and still exists |
| `Replication.WriteSeenIff` | crates/aetheris-ecs-bevy/src/adapter.rs:715-720 | a write after the trackers are cleared is sent by the next extraction; one between the extraction and that moment by none until it is made again |
| `Replication.ReplicatedWorld.IncrementChangeTick` | crates/aetheris-ecs-bevy/src/adapter.rs:282-289 | the change tick grows before anything is written |
| `Replication.ReplicatedWorld.DespawnNetworked` | crates/aetheris-ecs-bevy/src/adapter.rs:793-834 | the components go and one despawn event is queued |
| `Replication.ReplicatedWorld.ExtractDeltas` | crates/aetheris-ecs-bevy/src/adapter.rs:146-188 | the loops send each changed component once and nothing else |
| `Replication.ReplicatedWorld.ClearTrackers` | crates/aetheris-ecs-bevy/src/adapter.rs:715-720 | clearing the trackers takes a change tick |
| `Replication.ReplicatedWorld.TickStep` | crates/aetheris-server/src/tick.rs:190-733 | advance and mutate; if the poll succeeded also extract, drain the despawn events and clear the trackers |
| `Mirroring.Expressible` | crates/aetheris-ecs-bevy/src/adapter.rs:146-188 | whatever a stage does to the world while dead ids stay dead and no component is taken away, some spawns, despawns and writes do to the replicated store, and they write exactly the components that show otherwise |
| `Mirroring.ChangedIsWritten` | crates/aetheris-ecs-bevy/src/adapter.rs:146-188 | any mutations that lead from one world to the other write at least those |
| `Mirroring.StagesKeepKinds` | crates/aetheris-server/src/tick.rs:180-700 | no run of stages takes a component away from an entity it leaves alive, so replicated kinds stay |
| `Mirroring.ReplicaFollows` | crates/aetheris-ecs-bevy/src/adapter.rs:146-188 | whenever the replicated store is the adapter's world, after a completed tick the replica is that world |
| `Mirroring.RunReplicates` | crates/aetheris-server/src/tick.rs:180-733 | every run of the scheduler without a clear, whichever polls fail, is replicated tick by tick: where a poll succeeds, exactly the components that changed since the last success are sent, as the world shows them, and the replica is what the adapter's world shows |
| `Batching.GetDeltaTargets` | crates/aetheris-server/src/tick.rs:906-926 | the targets are exactly the clients that see the entity |
| `Batching.GroupByClient` | crates/aetheris-server/src/tick.rs:776-808 | each authenticated client's batch is its order-preserving filter; empty filters and strangers get none |
| `Batching.SeenCounts` | crates/aetheris-server/src/tick.rs:776-808 | a client is sent each visible delta as often as it was produced, and no other |
| `Batching.CoherentSeesAll` | crates/aetheris-server/src/tick.rs:906-926 | in a coherent world, with its one workspace, every client is sent every delta |
| `Batching.WithheldIff` | crates/aetheris-server/src/tick.rs:906-926 | a delta is withheld from a client exactly when its entity lives in another workspace than the client's indexed one, or else the master |
| `Fragmentation.FragmentsWellFormed` | crates/aetheris-server/src/tick.rs:940-972 | indices 0..total-1, non-empty payloads within the limit, nothing when the count does not fit |
| `Fragmentation.ChunkCountIff` | crates/aetheris-server/src/tick.rs:941-954 | the number of pieces is the length over the limit, rounded up |
| `Fragmentation.ReassembleIff` | crates/aetheris-server/src/tick.rs:957-972 | in any order, with repeats and among other messages, a payload is restored exactly when all its fragments arrived, and otherwise nothing is |
| `Fragmentation.IdsDistinct` | crates/aetheris-server/src/tick.rs:938-939 | any 2^32 consecutive attempts carry distinct ids |
| `Fragmentation.IdAfterIs` | crates/aetheris-server/src/tick.rs:938-939 | those are the values that the sender's wrapping counter takes, attempt by attempt |
| `Fragmentation.RunRestores` | crates/aetheris-server/src/tick.rs:862-874 | of up to 2^32 attempts in a row each client restores each payload addressed to it exactly when every fragment of it encoded |
| `Fragmentation.FragmentSender.SendLarge` | crates/aetheris-server/src/tick.rs:862-874 | the loop over large batches posts what the attempts post, one id after the other, and counts it |
| `Fragmentation.EachReassembled` | crates/aetheris-server/src/tick.rs:928-1004 | up to 2^32 messages mixed in flight are each restored exactly when their own fragments arrived |
| `Fragmentation.RecipientRestores` | crates/aetheris-server/src/tick.rs:974-1000 | an addressee restores the payload exactly when every fragment encoded |
| `Fragmentation.FragmentSender.FragmentAndSend` | crates/aetheris-server/src/tick.rs:928-1004 | what is posted, the id taken by every attempt, the count, and the error exactly for too long a payload |
| `TokenBucket.GrantsBounded` | crates/aetheris-transport-renet/src/lib.rs:90-107 | an address is granted at most rate * (1 + T) checks in a time T |
| `TokenBucket.SpacedGranted` | crates/aetheris-transport-renet/src/lib.rs:90-107 | an address that leaves the time of one token before each check is granted every one, whatever others do and whenever buckets are pruned |
| `TokenBucket.FirstBurst` | crates/aetheris-transport-renet/src/lib.rs:90-107 | of a first burst exactly as many checks are granted as the rate says |
| `TokenBucket.PrunedIff` | crates/aetheris-transport-renet/src/lib.rs:110-119 | exactly the full buckets unused for more than 600 seconds are pruned |
| `TokenBucket.PruneUnobservable` | crates/aetheris-transport-renet/src/lib.rs:110-119 | prunes anywhere in a run change no answer |
| `TokenBucket.NeverFull` | crates/aetheris-transport-renet/src/lib.rs:110-119 | with a rate of at least 1.1 no stored bucket ever passes the fullness test |
| `TokenBucket.PruneFiresIff` | crates/aetheris-transport-renet/src/lib.rs:110-119 | with an integer rate a prune ever removes something exactly when the rate is below two |
| `TokenBucket.IpRateLimiter.CheckAddress` | crates/aetheris-transport-renet/src/lib.rs:90-107 | grants when the level is at least one, and spends it |
| `TokenBucket.IpRateLimiter.PruneIdle` | crates/aetheris-transport-renet/src/lib.rs:110-119 | removes exactly the full and idle buckets |
| `FixedWindow.GrantsBounded` | crates/aetheris-server/src/auth/rate_limit.rs:43-96 | in any half-open interval of one window length a key is granted less than twice its limit, sweeps included |
| `FixedWindow.BoundIsTight` | crates/aetheris-server/src/auth/rate_limit.rs:43-90 | that bound is reached |
| `FixedWindow.FirstGranted` | crates/aetheris-server/src/auth/rate_limit.rs:43-90 | of the attempts for a new key within one window, among whatever other calls, exactly the first 5, 30 or 60 are granted |
| `FixedWindow.SweptIff` | crates/aetheris-server/src/auth/rate_limit.rs:93-96 | a sweep removes exactly the windows that ended, for telemetry those that ended a window ago |
| `FixedWindow.SweepsUnobservable` | crates/aetheris-server/src/telemetry.rs:112-141 | sweeps change no answer of a run whose authentication checks never share the instant of the sweep before them |
| `FixedWindow.TelemetrySettled` | crates/aetheris-server/src/telemetry.rs:112-141 | every telemetry run is such a run |
| `FixedWindow.SweepChangesAnswerIff` | crates/aetheris-server/src/auth/rate_limit.rs:56-96 | a sweep changes the answer to a later check exactly at the instant an exhausted authentication window ends |
| `FixedWindow.SweepLetsThrough` | crates/aetheris-server/src/auth/rate_limit.rs:56-96 | a run reaches that instant for every authentication key: refused without the sweep, let through after it |
| `FixedWindow.InMemoryRateLimiter.CheckLimit` | crates/aetheris-server/src/auth/rate_limit.rs:43-90 | one check of the authentication limiter |
| `FixedWindow.InMemoryRateLimiter.Cleanup` | crates/aetheris-server/src/auth/rate_limit.rs:93-96 | removes exactly the entries whose window has ended |
| `FixedWindow.AetherisTelemetryService.PruneExpiredEntries` | crates/aetheris-server/src/telemetry.rs:112-118 | removes exactly the windows two lengths old |
| `FixedWindow.AetherisTelemetryService.CheckRateLimit` | crates/aetheris-server/src/telemetry.rs:121-141 | a check, after a sweep when the table is large |
| `IdleWindow.CoalescingSound` | crates/aetheris-server/src/auth/mod.rs:212-240 | over every run the coalesced check authorises only what a window refreshed every time would |
| `IdleWindow.DeniedStaysDenied` | crates/aetheris-server/src/auth/mod.rs:212-240 | a denied session stays denied until it is minted again |
| `IdleWindow.EndedIsDenied` | crates/aetheris-server/src/auth/mod.rs:554-594 | after a logout, or after its exchange by a refresh, every question about a session is answered with no until it is granted again |
| `IdleWindow.GrantedLives` | crates/aetheris-server/src/auth/mod.rs:212-268 | once granted, a session is authorised for 3600 seconds whatever is asked meanwhile, unless it ends |
| `IdleWindow.GrantedExpires` | crates/aetheris-server/src/auth/mod.rs:212-240 | left alone it is authorised no longer |
| `IdleWindow.JitterSums` | crates/aetheris-server/src/auth/mod.rs:222-230 | the jitter is the sum of the identifier's bytes modulo 2^64 |
| `IdleWindow.OneRefreshPerPeriod` | crates/aetheris-server/src/auth/mod.rs:222-230 | of 60 consecutive ticks that do not wrap exactly one refreshes a session, at a known offset |
| `IdleWindow.StalenessBounded` | crates/aetheris-server/src/auth/mod.rs:212-240 | after 60 successful checks on consecutive ticks the recorded activity is no older than the first of them |
| `IdleWindow.PeriodicRefreshIff` | crates/aetheris-server/src/tick.rs:234-244 | the periodic check refreshes a session exactly when its jitter is a multiple of 60 |
| `IdleWindow.SilentSessionExpires` | crates/aetheris-server/src/tick.rs:234-244 | a silent session with another jitter is authorised exactly within an hour of its last activity |
| `IdleWindow.SilentSessionLives` | crates/aetheris-server/src/tick.rs:234-244 | with such a jitter the periodic check alone keeps a session alive |
| `IdleWindow.AetherisAuthService.IsSessionAuthorizedWithTick` | crates/aetheris-server/src/auth/mod.rs:212-240 | the check with its jitter loop and its refresh |
| `IdleWindow.AetherisAuthService.MintSessionToken` | crates/aetheris-server/src/auth/mod.rs:247-268 | minting records the time |
| `IdleWindow.AetherisAuthService.RevokeSession` | crates/aetheris-server/src/auth/mod.rs:554-556 | logging out forgets the session, which is denied from then on (`IdleWindow.EndedIsDenied`) |
| `IdleWindow.AetherisAuthService.RefreshToken` | crates/aetheris-server/src/auth/mod.rs:581-594 | an authorised session is exchanged for a new one, an administrator keeping the identifier |
| `Motion.ClampBounds` | crates/aetheris-ecs-bevy/src/adapter.rs:424-431 | after the clamp the speed is at most the limit or epsilon, and a slower one is untouched |
| `Motion.ClampDirection` | crates/aetheris-ecs-bevy/src/adapter.rs:424-431 | the clamped velocity points the same way |
| `Motion.WrapInBounds` | crates/aetheris-ecs-bevy/src/adapter.rs:486-502 | a wrapped coordinate lies in [min, max), a whole number of widths away, and one inside stays |
| `Motion.ShortestDelta` | crates/aetheris-ecs-bevy/src/adapter.rs:443-449 | the two loops end with an angle in [-PI, PI] |
| `Motion.ShortestCongruent` | crates/aetheris-ecs-bevy/src/adapter.rs:443-449 | that angle differs from the raw one by whole turns |
| `Motion.TurnCuts` | crates/aetheris-ecs-bevy/src/adapter.rs:451-459 | each turn cuts the remaining angle by exactly the largest turn, until one reaches the target |
| `Motion.TurnsReach` | crates/aetheris-ecs-bevy/src/adapter.rs:451-459 | with a fixed heading the target is reached after a known number of turns |

## Left out

- Tokio tasks, channels, locks, sockets, certificates, gRPC, HTTP, metrics and tracing: the outbound
  channel is an append-only log.
- Encoders, the wire format and the receiver's own reassembler, which are not part of the
  repository: encoding may fail per fragment, and reassembly is defined as concatenation by index.
- Token cryptography, one-time passwords and the identity provider; only the activity map of the
  authentication service is modelled.
- `process_interaction` (auto-aim and tool cooldowns): the shots it fires are an input.
- Thrust, drag and velocity: the positions that physics computes are an input of `Simulate`;
  `Motion` treats the clamp and the turn on their own.
- Platform events other than `EntityDespawned`, and their duplicates.
- The recording mode's hashes, the post-simulate hook, the z clamp, `spawn_networked_for`, and the
  workspace manifest.
- WebTransport and the multi-transport, matchmaking, configuration, and the designs that exist only
  in the documents.
- Replication across a clear, which gives out ids again. `Mirroring` composes extraction with the
  scheduler's stages; batching and sending are not composed with them.
- Writes that mark a component as changed without changing it: `Replication.ResentIff` speaks of
  all writes made; `Mirroring.RunReplicates` sends exactly what changed, for stages that write no more.
- What client updates other than commands do to the economy: the registered replicators let the owner
  of an entity overwrite its store or pools, and no conservation law survives that.
- A scheduler run that fills the carriers of `Crowding`, which takes more than 500 units of extraction:
  its worlds are built by the adapter's spawns and payload drops.
- The change tick is unbounded, where Bevy's wraps at 32 bits.
- `HashMap` iteration orders appear as arbitrary choices; the master lookup scans in entity order,
  which does not matter where `Coherence.Coherent` holds.
- BevyWorld.BevyWorldAdapter.Simulate: the positions before the bounds stage and the shots fired are
  inputs, because thrust, drag, auto-aim and cooldowns are floating-point game rules left out above.
- IdleWindow.OneRefreshPerPeriod: for 60 ticks whose sum with the jitter does not cross a multiple
  of 2^64.
- IdleWindow.PeriodicRefreshIff: for ticks whose sum with the jitter stays below 2^64.
- AntiReplay.LockoutIsBounded: while the server tick is below the range in which it saturates.
