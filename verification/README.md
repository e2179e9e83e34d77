# Brawololo verification model

A Dafny model of the server-authoritative game Brawololo: the replication protocol between
server and clients, the simulation and the client's replay of its own inputs, and the wire
codecs with the RTC endpoints that carry them. To check the whole project with Dafny 4.11, run
`dafny verify dfyconfig.toml`.

## How it is organised

**Replication protocol.** `Host.dfy` says on values what each operation of the replication host
does to the host's state and to a log of transport sends; `HostObject.dfy` is the host as the
object it is, with per-client state objects, baseline cache and counters updated in place, each
method proved equal to `Host.dfy`. `Protocol.dfy` puts host, clients and network together as a
step relation: an accepted send stays in the log, and a delivery may pick any accepted entry any
number of times, in any order, or never, so the network drops, delays, reorders and duplicates.
The invariants are in `ReliableDelivery.dfy` and `SnapshotDelivery.dfy`, the main results at the
end of `Protocol.dfy`. What one tick puts on the wire is told by log, tables and cache alone in
`EventTurns.dfy` and `SnapshotTurns.dfy`, what it counts in `Tallies.dfy`, and what a few steps in
a row achieve in `Liveness.dfy`. The parts below it are `BaselineCache.dfy`, `Interest.dfy`,
`ClientReplication.dfy` (the table of unacknowledged events), `Planner.dfy` and `Delta.dfy`.
`ClientPump.dfy` is the client's message loop and its agreement with the protocol's deliveries;
`Loopback.dfy` is the concrete dropping and delaying transport.

**Simulation.** `Simulation.dfy` is one fixed tick as a list of small operations on one entity
each; `SimulationObject.dfy` is the simulation object that carries them out in place. Every
operation keeps `Structure.dfy` (shape), `LifeCycle.dfy` (health, position, speed),
`Journal.dfy` (events tell the state), `Hits.dfy` (identities and hits) and `Arrows.dfy` (shot
spacing); `TickEnd.dfy` says what a completed tick leaves behind; `Game.dfy` runs logins, inputs,
ticks and drains in any order and holds the main results. `Motion.dfy` is the fixed-point
arithmetic, with C++ division that truncates toward zero. `Flights.dfy` and `Shots.dfy` tell the
passes of a tick by positions, distances and weapon definitions alone, `CombatTick.dfy` every tick
of every run. `Replicas.dfy` builds and applies
snapshots, `Mirrors.dfy` compares the entities at both ends, `Stance.dfy` and `Prediction.dfy` prove that replay predicts the server,
`ClientRun.dfy` and `ServedClient.dfy` that every run of a client of one server qualifies.
`HostedGame.dfy` puts the simulation under the
host, `EndToEnd.dfy` says what its clients then show. `LagCompensation.dfy` and `Clock.dfy` are the rewind lookup and the clock estimate;
`Runtimes.dfy` has the client and server runtime objects that own a simulation.

**Wire and RTC.** `Fields.dfy` has fixed-width fields and records of them, `Wire.dfy` snapshots and
network events, `Frame.dfy` the transport frame, `Layouts.dfy` every message byte by byte; `CodecObject.dfy` has the byte writer, the byte
reader and the codec routines over them. `Rtc.dfy` is a pumped RTC endpoint with signalling hub
and data channel on values, `RtcObject.dfy` the same as objects, `RtcPair.dfy` two endpoints under
any interleaving of calls, `RtcCalls.dfy` what each further call does.

## What the results assume

- Which sends a transport accepts and in which order hash containers and entity views are walked
  are parameters; results hold for every choice. A walk visits each element exactly once.
- Identifiers, sequences and times are unbounded naturals: 32-bit ids and sequences are assumed
  not to wrap. On the wire the widths are explicit. For positions and velocities
  `Motion.NarrowingIsLossless` proves that 32 bits suffice.
- Combat results are for server-authoritative mode with non-negative damage, some health, a
  positive tick and a map of at least 30 tiles each way (`LifeCycle.Sane`), because spawn tiles go
  up to 29 and a client simulation resolves hits on its own.
- The client neither deduplicates reliable events nor rejects stale snapshots; delivery is at
  least once. Clients acknowledge only for themselves.
- Replay is compared over ticks that each consume exactly one input of the client without its
  player dying: the server integrates once a tick and replay once an input
  (`Stance.TickTurns`, `Prediction.TwoInputsInOneTickDiffer`).

## Model

| member | source | states |
|---|---|---|
| Protocol.DeltasNameAppliedBaselines | Server/src/ServerNetworkHost.cpp:312-369 | in every run over a network that drops, delays, reorders and duplicates, every delta tried towards a client names a non-zero baseline that an earlier accepted attempt sent to it and that it has applied; the cached copy a next delta would use is such a snapshot |
| Protocol.DeltasAreMadeFromCache | Server/src/ServerNetworkHost.cpp:312-337 | whenever a delta is made, in any turn of any tick, the cache holds its baseline and the client has applied exactly that snapshot, sent to it before |
| Protocol.NoReliableEventIsLost | Server/src/ServerNetworkHost.cpp:268-310 | in every reachable state an event whose send was accepted is still pending for that client or has been ingested by it |
| Protocol.NeverResentAfterAck | Server/src/ServerNetworkHost.cpp:147-160 | once the server has accepted an acknowledgement, no later send carries that event to that client |
| Protocol.ReliableCountersBalance | Server/src/ServerNetworkHost.cpp:147-310 | events sent minus events resent always equals accepted acknowledgements plus all that is pending |
| Protocol.CopiesAreSpacedAndCapped | Server/src/ServerNetworkHost.cpp:232-240 | over a whole run the accepted copies of an event to a client respect the exponential backoff and the send cap |
| Protocol.InterestStreamAgrees | Server/src/ServerNetworkHost.cpp:242-266 | folding all enter and leave events issued to a client gives the ids of its last accepted snapshot, enter and leave alternate per entity, and the interest counters agree with the known sets and with the entities sent |
| Protocol.SnapshotCountersBalance | Server/src/ServerNetworkHost.cpp:312-369 | every delta tried found its baseline and was planned; full plus delta snapshots are all snapshots sent |
| Protocol.AckedIdsIncrease | Server/src/ServerNetworkHost.cpp:126-145 | a client's acknowledged id never goes back and rises strictly with every accepted acknowledgement |
| Protocol.RunKeepsInv | Server/src/ServerNetworkHost.cpp:58-369 | the invariant tying client histories to the server's tables holds after every run |
| EventTurns.ReadyEventsAreResent | Server/src/ServerNetworkHost.cpp:232-240 | in every tick of every run, from the pending tables as the resend phase finds them and of the events pending before the tick, exactly those under the cap whose wait of 1, 2, 4, 8 or 16 base intervals is over are tried again, each exactly once; the log gains no attempt of any other |
| EventTurns.PhaseResends | Server/src/ServerNetworkHost.cpp:232-240 | the same for the resend phase alone, from any state the invariant allows |
| EventTurns.TickResends | Server/src/ServerNetworkHost.cpp:58-76 | the same for a whole tick: snapshots and broadcasts leave earlier events alone |
| EventTurns.EveryEventIsBroadcast | Server/src/ServerNetworkHost.cpp:201-230 | in every tick of every run the k-th event of the simulation gets a new number, and its first send, carrying that event, goes to every client it is meant for and to nobody else; with a positive base interval it is the only send of it in the tick |
| EventTurns.PhaseBroadcasts | Server/src/ServerNetworkHost.cpp:201-230 | numbers in order, one attempt per event and client, earlier events untouched |
| SnapshotTurns.EveryTurnIsTaken | Server/src/ServerNetworkHost.cpp:58-76 | in every tick of every run exactly the clients whose interval is over are tried one snapshot each: of the world as it is, a delta against the acknowledged snapshot if and only if that is cached; on acceptance it is cached and known and the interval restarts, otherwise the client is tried again |
| SnapshotTurns.TurnLeavesOthers | Server/src/ServerNetworkHost.cpp:312-369 | one client's turn leaves every other client's schedule, cache and attempts alone |
| Tallies.CountersTallyTheLog | Server/src/ServerNetworkHost.cpp:268-369 | in every reachable state the counters of events sent and resent, snapshots, deltas and entities are the tallies of the accepted attempts in the log |
| Tallies.TurnIsCounted | Server/src/ServerNetworkHost.cpp:312-369 | a turn before its time is skipped; a try counts its delta even when refused; an accepted full snapshot of a client with an acknowledged one is a miss; what the planner cut is dropped |
| Liveness.NewcomerIsServed | Server/src/ServerNetworkHost.cpp:96-113 | whoever logs in is listed with fresh state and the very next tick sends it exactly one full snapshot |
| Liveness.DeliveredEventIsReleased | Server/src/ServerNetworkHost.cpp:147-160 | delivering a pending event and its acknowledgement releases it: the client has it and it is pending no more |
| Liveness.AppliedSnapshotBecomesBaseline | Server/src/ServerNetworkHost.cpp:126-145 | once the acknowledgement of a cached newer snapshot arrives, the client's next due tick sends a delta against exactly that snapshot |
| Liveness.OtherAcksAreStale | Server/src/ServerNetworkHost.cpp:126-145 | any other snapshot acknowledgement is counted as stale and changes nothing else |
| EndToEnd.ServedClientsMirrorTheGame | Server/src/ServerNetworkHost.cpp:312-369 | in every tick of every hosted run a served client with any past, once it applies what it was sent, shows what the planner left of its sight just as the simulation has it, and nothing else but what it owns; within the budget that is its whole sight |
| ReliableDelivery.TickKeepsInv | Server/src/ServerNetworkHost.cpp:58-76 | a host tick keeps table, log, counters and acknowledgements consistent |
| ReliableDelivery.EventAckKeepsInv | Server/src/ServerNetworkHost.cpp:147-160 | so does an event acknowledgement, stale ones included |
| ReliableDelivery.BackoffBound | Server/include/Server/ServerClientReplicationState.hpp:76-95 | n copies are at least base times (2^(n-1) - 1) apart for n up to 6 and base times (16n - 65) beyond, and at most max(1, cap) copies are ever accepted when there is a cap |
| SnapshotDelivery.TickKeepsInv | Server/src/ServerNetworkHost.cpp:58-76 | a host tick keeps baselines, deltas, interest sets and snapshot counters consistent |
| SnapshotDelivery.CachedIsApplied | GameLogic/src/SnapshotBaselineCache.cpp:19-66 | a cached snapshot with the id of one the client applied is that snapshot |
| BaselineCache.CacheHoldsNewest | GameLogic/src/SnapshotBaselineCache.cpp:11-17 | storing a history leaves exactly its newest snapshots, as many as the limit allows |
| BaselineCache.StoreIsPerClient | GameLogic/src/SnapshotBaselineCache.cpp:11-17 | storing for one client leaves every other client's baselines alone |
| BaselineCache.SnapshotBaselineCache.Store | GameLogic/src/SnapshotBaselineCache.cpp:11-17 | appends in place and drops the oldest beyond the limit |
| BaselineCache.SnapshotBaselineCache.Find | GameLogic/src/SnapshotBaselineCache.cpp:19-37 | finds the first stored snapshot with an id |
| BaselineCache.SnapshotBaselineCache.DecideBaseline | GameLogic/src/SnapshotBaselineCache.cpp:48-66 | decides for a delta exactly when a non-zero requested baseline is stored |
| ClientReplication.DueEventsAreDue | Server/include/Server/ServerClientReplicationState.hpp:76-95 | the due list holds exactly the pending entries below the cap whose delay has passed, each once |
| ClientReplication.PacedElapsed | Server/include/Server/ServerClientReplicationState.hpp:87-92 | paced send times span at least the sum of the delays between them |
| ClientReplication.MinElapsedIsWaits | Server/include/Server/ServerClientReplicationState.hpp:87-92 | that sum is the base interval times the number of doublings waited |
| ClientReplication.WaitsClosedForm | Server/include/Server/ServerClientReplicationState.hpp:87-92 | closed form of the waits: 2^(n-1) - 1 up to six copies, 16n - 65 from six on |
| ClientReplication.ServerClientReplicationState.TrackReliableEvent | Server/include/Server/ServerClientReplicationState.hpp:57-66 | keeps the first copy and its time, updates the last time and the count |
| ClientReplication.ServerClientReplicationState.AcknowledgeReliableEvent | Server/include/Server/ServerClientReplicationState.hpp:68-70 | erases exactly the acknowledged entry and says whether it was there |
| ClientReplication.ServerClientReplicationState.AcknowledgeSnapshot | Server/include/Server/ServerClientReplicationState.hpp:36-43 | accepts only a larger id |
| ClientReplication.ServerClientReplicationState.ReliableEventsDueForResend | Server/include/Server/ServerClientReplicationState.hpp:76-95 | the loop over the hash table computes the due list for any walk of the table |
| Interest.FrameIsDifference | GameLogic/src/InterestManagement.cpp:7-30 | entered, stayed and exited are exactly the set differences and intersection of old and new ids, each id once |
| Interest.FrameSizes | GameLogic/src/InterestManagement.cpp:7-30 | entered minus exited is the growth of the known set; entered plus stayed is its new size |
| Interest.InterestTracker.Update | GameLogic/src/InterestManagement.cpp:7-30 | the loops build that frame and the tracker then knows exactly the snapshot's ids |
| Planner.PlanIgnoresInputOrder | GameLogic/src/ReplicationPlanner.cpp:40-81 | with prioritising on and distinct ids, permuted entities give the same planned snapshot and counters |
| Planner.PlanKeepsTheTop | GameLogic/src/ReplicationPlanner.cpp:40-81 | every kept entity outranks every dropped one: the observer's own first, then high over medium over low, then the smaller id |
| Planner.PlanIsRanked | GameLogic/src/ReplicationPlanner.cpp:40-81 | the plan lists the kept entities in that order, cuts only what is over budget and changes nothing else of the snapshot; without prioritising it is the input's front |
| Planner.PlanSelects | GameLogic/src/ReplicationPlanner.cpp:40-81 | the planned entities are a selection of the given ones, with distinct ids kept distinct |
| Planner.PlanStatsAddUp | GameLogic/src/ReplicationPlanner.cpp:22-81 | each priority counter is the number of planned entities with that priority; they sum to the output size, output plus dropped to the input size |
| Planner.PlanKeepsOwner | GameLogic/src/ReplicationPlanner.cpp:40-81 | with owner first any positive budget keeps the observer's own entity |
| Planner.Plan | GameLogic/src/ReplicationPlanner.cpp:40-81 | sorting, cutting and counting in place computes that plan |
| Delta.PlanRebuildsCurrent | GameLogic/src/SnapshotDelta.cpp:68-100 | with distinct ids, added and changed states with the unchanged ones of the baseline rebuild the current snapshot exactly |
| Delta.PlanCounts | GameLogic/src/SnapshotDelta.cpp:39-100 | added + changed + unchanged is the current size, removed + changed + unchanged the baseline's |
| Delta.PlanIsExact | GameLogic/src/SnapshotDelta.cpp:68-100 | exactly one entry for each entity of either snapshot, and it says added, removed, changed or unchanged exactly when the entity is |
| Delta.EquivalentIsEqual | GameLogic/src/SnapshotDelta.cpp:9-66 | field-wise equivalence is equality of the replicated state |
| Delta.PlanSnapshotDelta | GameLogic/src/SnapshotDelta.cpp:68-100 | the two loops build that plan, and an unmatched baseline gives an empty one |
| HostObject.ServerNetworkHost.TickAndSendSnapshots | Server/src/ServerNetworkHost.cpp:58-76 | a tick in place does snapshots, broadcasts and resends as Host.Tick |
| HostObject.ServerNetworkHost.SendSnapshot | Server/src/ServerNetworkHost.cpp:312-369 | spends a snapshot id and counts the delta even when refused; on success moves interest, caches and counts |
| HostObject.ServerNetworkHost.SendReliableEvent | Server/src/ServerNetworkHost.cpp:268-310 | tracks and counts only an accepted send |
| HostObject.ServerNetworkHost.BroadcastReliableEvents | Server/src/ServerNetworkHost.cpp:201-230 | numbers every event and sends those with a network form to every client they are for |
| HostObject.ServerNetworkHost.SendInterestEvents | Server/src/ServerNetworkHost.cpp:242-266 | announces what entered, then what left, to that client only |
| HostObject.ServerNetworkHost.ResendPendingReliableEvents | Server/src/ServerNetworkHost.cpp:232-240 | resends every due event of every client, in any order of clients |
| HostObject.ServerNetworkHost.HandleSnapshotAck | Server/src/ServerNetworkHost.cpp:126-145 | accepts an acknowledgement only of a cached snapshot and only forwards |
| HostObject.ServerNetworkHost.HandleNetworkEventAck | Server/src/ServerNetworkHost.cpp:147-160 | erases a pending event or counts the acknowledgement as stale |
| HostObject.ServerNetworkHost.HandleLogin | Server/src/ServerNetworkHost.cpp:96-113 | registers a new client once with fresh state |
| Events.FormsAgree | GameLogic/src/NetworkEvents.cpp:9-132 | network and domain forms of events are inverse; only movement and two client-side events have no network form |
| ClientPump.ReadsWhatWasSent | Client/src/ClientProtocolPump.cpp:73-153 | a client reads from an envelope exactly the message the host put in it |
| ClientPump.PumpIsDeliveries | Client/src/ClientProtocolPump.cpp:73-153 | pumping an inbox does to a client what the protocol's deliveries of the same messages do |
| ClientPump.SessionAddsUp | Client/src/ClientProtocolPump.cpp:73-153 | after any inbox the session's counters are what it has taken and acknowledged, and it is connected exactly once its own spawn has been accepted |
| ClientPump.TimeAnswersAreSampled | Client/src/ClientProtocolPump.cpp:83-96 | a time answer becomes a clock sample with its arrival, or its sending if the arrival is not known |
| ClientPump.ClientProtocolPump.PumpIncoming | Client/src/ClientProtocolPump.cpp:73-153 | the polling loop empties the inbox, applies, acknowledges and counts message by message, and takes clock samples from time answers that decode |
| Loopback.RunConserves | Networking/src/LoopbackTransport.cpp:58-158 | under any changing conditions every accepted envelope is exactly once polled, queued, held back or lost, and the counters say which |
| Loopback.NextActionDoes | Networking/src/LoopbackTransport.cpp:58-158 | after any run one more send is refused, lost, held back or queued by its ordinal; a poll hands out the oldest queued envelope, an update releases the oldest held back, a flush all of them in order |
| Loopback.OrderIsKeptIff | Networking/src/LoopbackTransport.cpp:58-158 | every run under fixed conditions keeps the order if and only if the delay period is at most one or a multiple of a non-zero drop period |
| Loopback.StraightIsInOrder | Networking/src/LoopbackTransport.cpp:58-158 | under such conditions polled, queued and held back are exactly the envelopes the drop rule lets through, in order |
| Loopback.UndelayedIsInOrder | Networking/src/LoopbackTransport.cpp:58-142 | without delays exactly the envelopes the drop rule lets through arrive, in order |
| Loopback.ThirdOvertakesSecond | Networking/src/LoopbackTransport.cpp:58-89 | with every second envelope delayed and none dropped the third of three sends arrives before the second |
| Loopback.LoopbackTransport.FlushDelayed | Networking/src/LoopbackTransport.cpp:28-36 | releases everything held back, oldest first |
| Loopback.LoopbackTransport.SendEnvelope | Networking/src/LoopbackTransport.cpp:58-89 | refuses invalid envelopes, drops and delays by ordinal, and touches only its own direction |
| Loopback.LoopbackTransport.PollEnvelope | Networking/src/LoopbackTransport.cpp:91-108 | takes the oldest incoming envelope |
| Motion.MovedIsBounded | GameLogic/src/SimulationMovement.cpp:66-108 | after a tick a player is on the map and within the speed limit, whatever it was before |
| Motion.MovedByAxis | GameLogic/src/SimulationMovement.cpp:66-108 | on each axis: the input pushes the velocity its own way by the acceleration of one tick, 707 thousandths of it on a diagonal, or friction leaves 72 hundredths; clamped to the speed limit it moves the position, clamped to the map |
| Motion.InputPushesItsWay | GameLogic/src/SimulationMovement.cpp:84-98 | within the speed limit velocity never changes against the input, and an idle axis keeps its velocity |
| Motion.RestingStays | GameLogic/src/SimulationMovement.cpp:66-108 | a body at rest stays where it is |
| Motion.FrictionDecays | GameLogic/src/SimulationMovement.cpp:22-24 | friction brings a velocity strictly toward zero and never past it |
| Motion.CoastingStops | GameLogic/src/SimulationMovement.cpp:22-24 | without input a body's velocity reaches zero within as many ticks as its magnitude |
| Motion.NarrowingIsLossless | GameLogic/src/SimulationMovement.cpp:8-20 | on maps and speeds of bounded size no narrowing to 32 bits loses anything |
| Game.CombatLifeCycle | GameLogic/src/SimulationCombat.cpp:103-199 | in every reachable state health is within bounds, defeated is exactly zero health, a respawn is due within the delay, deaths minus respawns are those defeated, ids are used once, and a projectile hits at most once and never its owner |
| Game.JournalIsComplete | GameLogic/src/SimulationMovement.cpp:28-131 | folding all events ever queued gives every player's position, health, defeat, respawn time and warm-up, and every move starts where the journal has the player |
| Game.ArrowBound | GameLogic/src/SimulationCombat.cpp:26-127 | each player has at most (lifetime - 1) / (warm-up + tick) + 1 projectiles, and entities at most maxPlayers times one more than that |
| Game.EverythingIsOnTheMap | GameLogic/src/SimulationCombat.cpp:112-127 | between ticks every entity is on the map and every player within the speed limit |
| Game.InputsAreConsumedOnce | GameLogic/src/Simulation.cpp:35-49 | accepted sequences rise per client; what was accepted is what ticks consumed, in order, then what is queued |
| Game.AckIsHighestConsumed | GameLogic/src/Simulation.cpp:81-93 | right after a tick nothing is queued and the acknowledged sequence is the client's highest consumed one, or its login's |
| Game.RunKeepsInv | GameLogic/src/Simulation.cpp:18-59 | all simulation invariants hold after every run of logins, inputs, ticks and drains |
| Game.TickConsumesPending | GameLogic/src/SimulationMovement.cpp:110-131 | a tick hands exactly the queued inputs to movement, in order, once |
| CombatTick.EveryTickFights | GameLogic/src/SimulationCombat.cpp:53-199 | in every tick of every run the shots due are fired, every confirmed hit is close, every arrow ends as it must, health falls by exactly the damage dealt, and exactly the due players come back |
| Flights.ProjectilePass | GameLogic/src/SimulationCombat.cpp:103-167 | every confirmed hit is of an unexpired arrow on the map, on a player other than its owner within dx*dx + dy*dy <= 42000*42000 of where the arrow has flown; an arrow that confirmed none and is neither expired nor off the map flies on, and everybody else within its reach is defeated; nobody else comes, goes or moves |
| Flights.PassIsTurns | GameLogic/src/SimulationCombat.cpp:103-160 | the pass is one turn after another, each of an arrow that has waited until then |
| Flights.FlyFlies | GameLogic/src/SimulationCombat.cpp:110-160 | one turn exactly: the arrow moves ahead; expired or off the map it is marked; with an undefeated player in reach it hits one for its own weapon's damage, health floored at zero, death at zero with the respawn time, and these events; otherwise nothing happens |
| Shots.WarmupPassShoots | GameLogic/src/SimulationCombat.cpp:53-101 | every weapon whose warm-up is over is lowered, everyone who shoots has exactly one new arrow where it stands and along its aim, and every new arrow is such a shot's |
| Shots.WarmupsEnd | GameLogic/src/SimulationCombat.cpp:53-95 | a warm-up that is over ends in a reported shot if its weapon is defined, and asks for an arrow if that spawns one; nothing else does |
| Shots.InputsAreHeeded | GameLogic/src/SimulationMovement.cpp:28-64 | an input sets intent and aim of a player who is not defeated, and begins a warm-up exactly if it fires an idle weapon that is defined |
| Shots.StepsAreReported | GameLogic/src/SimulationMovement.cpp:66-108 | a defeated player stands still; anyone else moves, and a player's move is reported with where it began and ended |
| Shots.RespawnPassBringsBack | GameLogic/src/SimulationCombat.cpp:169-199 | exactly the players who are due are back in full health at their home, at rest and with an idle weapon |
| Shots.LoginAdmits | GameLogic/src/Simulation.cpp:18-33 | a new client with room left gets a healthy player at its home; otherwise nothing changes |
| Shots.NewerInputsAreQueued | GameLogic/src/Simulation.cpp:35-49 | an input is queued if and only if its client has a player and it is newer than the last accepted one |
| HostedGame.ShownIsServerWorld | Server/src/ServerRuntime.cpp:23-32 | what any reachable simulation shows its host meets the protocol results' hypotheses |
| HostedGame.SnapshotsAckConsumedInputs | Server/src/ServerNetworkHost.cpp:58-71 | every snapshot the host tries to send acknowledges the client's highest consumed input, with none queued |
| Structure.DoKeepsShape | GameLogic/src/SimulationCombat.cpp:26-199 | every operation keeps players, arrows, owners and the client index in shape |
| LifeCycle.DoKeepsLives | GameLogic/src/SimulationCombat.cpp:103-199 | every operation keeps every player's life invariant |
| Journal.DoTells | GameLogic/src/SimulationCombat.cpp:53-199 | every operation queues exactly the events that tell its effect on players |
| Hits.FlightsAreFair | GameLogic/src/SimulationCombat.cpp:103-160 | the projectile pass confirms at most one hit per projectile although destruction is deferred |
| Arrows.InputIsPaced | GameLogic/src/SimulationMovement.cpp:47-63 | a warm-up begun now completes a full gap after every earlier shot |
| Arrows.LaunchIsPaced | GameLogic/src/SimulationCombat.cpp:26-50 | a launched projectile keeps its owner's shots a gap apart |
| Arrows.FewArrowsEach | GameLogic/src/SimulationCombat.cpp:26-127 | spacing and lifetime bound a player's projectiles |
| Arrows.DefaultBound | GameLogic/include/GameLogic/Weapons.hpp:30-39 | with the default bow and tick the bound is seven |
| TickEnd.TickIsDone | GameLogic/src/SimulationCombat.cpp:103-199 | a tick leaves no expired or off-map projectile, nobody overdue to respawn, and nothing half done |
| SimulationObject.GameSimulation.SubmitLogin | GameLogic/src/Simulation.cpp:18-33 | a known client is accepted unchanged; a full game refuses; otherwise a player is created |
| SimulationObject.GameSimulation.SubmitInput | GameLogic/src/Simulation.cpp:35-49 | queues exactly newer inputs of known clients |
| SimulationObject.GameSimulation.TickFixed | GameLogic/src/Simulation.cpp:51-59 | the four passes in place are the value-level tick |
| SimulationObject.GameSimulation.ApplyInputToEntity | GameLogic/src/SimulationMovement.cpp:28-64 | intent, aim and warm-up start in place |
| SimulationObject.GameSimulation.IntegrateMovement | GameLogic/src/SimulationMovement.cpp:66-108 | one body's step and its move event in place |
| SimulationObject.GameSimulation.ProcessInputs | GameLogic/src/SimulationMovement.cpp:110-131 | applies queued inputs in order, integrates every player once, clears intents |
| SimulationObject.GameSimulation.ProcessWeaponWarmups | GameLogic/src/SimulationCombat.cpp:53-101 | fires completed warm-ups and creates their projectiles afterwards |
| SimulationObject.GameSimulation.ProcessProjectiles | GameLogic/src/SimulationCombat.cpp:103-167 | flies every projectile, resolves first hits, destroys afterwards |
| SimulationObject.GameSimulation.ProcessRespawns | GameLogic/src/SimulationCombat.cpp:169-199 | revives exactly the defeated players that are due |
| SimulationObject.GameSimulation.BuildSnapshot | GameLogic/src/Simulation.cpp:81-167 | the loop collects exactly the visible entities' states |
| SimulationObject.GameSimulation.ApplySnapshot | GameLogic/src/Simulation.cpp:169-293 | applies states one by one, then removes what left interest |
| SimulationObject.GameSimulation.ReplayLocalInputsForPrediction | GameLogic/src/Simulation.cpp:61-79 | applies and integrates each input, dropping its intent |
| SimulationObject.GameSimulation.DrainEvents | GameLogic/src/Simulation.cpp:295-299 | hands out the queued events and empties the queue |
| Replicas.VisibleStatesFacts | GameLogic/src/Simulation.cpp:81-167 | a snapshot shows each visible entity once, as it is, and nothing else |
| Replicas.SnapshotPutsInLine | GameLogic/src/Simulation.cpp:169-293 | exactly which entities remain after a snapshot and what each of them is |
| Replicas.ApplicationForgetsHistory | GameLogic/src/Simulation.cpp:169-293 | clients with any histories end with the same foreign entities and the same view of every entity shown |
| Replicas.ApplicationIsIdempotent | GameLogic/src/Simulation.cpp:169-293 | applying a snapshot again changes no entity |
| Mirrors.SnapshotMirrorsServer | GameLogic/src/Simulation.cpp:81-293 | for every reachable server world and any client world: after applying the server's snapshot every entity in sight has the server entity's body and aim, a player its health, maximum, defeat, respawn time, client and weapon state, an arrow its owner and kind; of the rest only what the client owns stays, unchanged |
| Mirrors.TakenIsMirrored | GameLogic/src/Simulation.cpp:169-293 | the same for any selection of states of a server's world |
| Mirrors.BuiltIsTaken | GameLogic/src/Simulation.cpp:81-167 | a snapshot is taken from the world, names exactly what is in sight, and carries the observer's last accepted sequence |
| Mirrors.SightIsChunks | GameLogic/src/Map.cpp:8-40 | an observer sees exactly what is within the interest radius of its player in chunks on both axes |
| Mirrors.SightIsNear | GameLogic/src/Map.cpp:8-40 | in plain distance: within the radius it is seen, a chunk further it is not |
| Mirrors.OthersAreSeen | GameLogic/src/Simulation.cpp:93-118 | an observer always sees its own, and everything if it has no player |
| Mirrors.PrioritiesShown | GameLogic/src/SimulationCombat.cpp:201-221 | arrows, the observer's own and whoever is warming up have high priority, all others medium; owner and kind are as they are, and an arrow's state is marked as such |
| Mirrors.ReportsAreExact | GameLogic/src/Simulation.cpp:169-293 | a client is told exactly who came and who left, which players moved, where its own prediction was corrected, and that the snapshot was applied |
| Stance.TickTracks | GameLogic/src/SimulationMovement.cpp:110-131 | a tick with one input of a surviving player moves and turns it by that input alone, whatever else happens |
| Stance.TickTurns | GameLogic/src/SimulationMovement.cpp:110-131 | a tick turns a surviving player by all its own inputs of that tick and moves it once, by the last of them or by friction |
| Prediction.TwoInputsInOneTickDiffer | GameLogic/src/Simulation.cpp:61-79 | an instance where a tick that consumes two inputs and the replay of the same two inputs end in different places |
| Prediction.ServerTracks | GameLogic/src/Simulation.cpp:51-59 | over a window of such ticks the server folds the inputs |
| Prediction.PlayerIsKnown | GameLogic/src/Simulation.cpp:169-293 | after a snapshot that shows a client's player, its own or another's, the index knows which entity that is if and only if nothing that leaves carries the same client's player |
| Prediction.SnapshotIsComplete | GameLogic/src/Simulation.cpp:81-167 | server snapshots name every entity once and carry every player's combat state |
| Prediction.ReplayPredictsServer | Client/src/ClientRuntime.cpp:60-67 | snapshot plus replay puts the client's player exactly where the server's is after the last replayed tick |
| ServedClient.RunningClientPredicts | Client/src/ClientRuntime.cpp:35-67 | the same for any run of a client, its own inputs queued, ticked and predicted before, and any planned snapshots of the same server's run taken before, in any order |
| ServedClient.ServedRunIsTakeable | Client/src/ClientRuntime.cpp:60-67 | snapshots of one server's run never name an entity twice nor turn a player the client knows into a projectile |
| ServedClient.PlayersStayPlayers | GameLogic/src/Simulation.cpp:356-394 | an id that is a player at any time of a server's run is never a projectile in it |
| ClientRun.TakeableClientPredicts | Client/src/ClientRuntime.cpp:35-67 | prediction after any client run whose earlier snapshots kept the kinds of the players it knew |
| ClientRun.ClientRunKeepsInv | Client/src/ClientRuntime.cpp:35-67 | client runs keep owners consistent and the input history increasing |
| ClientRun.AcknowledgeKeepsNewer | Client/src/PendingInputHistory.cpp:12-19 | acknowledging keeps exactly the newer inputs, in order |
| ClientRun.PendingInputHistory.AcknowledgeThrough | Client/src/PendingInputHistory.cpp:12-19 | filters the history in place |
| Runtimes.ClientRuntime.Queue | Client/src/ClientRuntime.cpp:43-54 | numbers an input, remembers it and submits it to the local simulation |
| Runtimes.ClientRuntime.ApplyServerSnapshot | Client/src/ClientRuntime.cpp:60-67 | buffers the snapshot, applies it, drops acknowledged inputs and replays the rest, in place |
| Runtimes.ClientRuntime.ConnectToLocal | Client/src/ClientRuntime.cpp:35-41 | logs in to the local simulation with sequence zero |
| Runtimes.ClientRuntime.SampleAt | Client/src/ClientRuntime.cpp:14-23 | the newest buffered snapshot that is not after the render time |
| Runtimes.ServerRuntime.BuildSnapshotFor | Server/src/ServerRuntime.cpp:28-31 | spends one snapshot id on a client's snapshot |
| Runtimes.ServerRuntime.Tick | Server/src/ServerRuntime.cpp:23-26 | ticks and remembers the snapshot that sees everything |
| Runtimes.ServerRuntime.QueryLagCompensation | Server/src/ServerRuntime.cpp:39-47 | answers a rewind query from the history and the current server time |
| LagCompensation.QueryClosedForm | GameLogic/src/LagCompensation.cpp:7-32 | the whole query on a running server: refused beyond tolerance or rewind, without history before the first tick, otherwise answered with the world after tick min(n, target / dt); eviction never matters |
| LagCompensation.AnswersAre | GameLogic/src/LagCompensation.cpp:7-32 | the target is the client's time shifted by its offset, not below zero; exactly which targets are from the future, too old or without history; the answer is the last snapshot not after the target |
| LagCompensation.RecordedIsTheWorld | Server/src/ServerRuntime.cpp:23-26 | what is remembered of a tick is the world just after it under the tick's number, with everything in it as long as nobody plays as client zero |
| LagCompensation.HistoryIsRecent | Server/src/ServerRuntime.cpp:23-26 | the history holds the newest snapshots, as many as fit |
| LagCompensation.ClosestIsNewest | GameLogic/include/GameLogic/LagCompensation.hpp:24-32 | with rising times the scan finds the newest snapshot not after the target |
| LagCompensation.LagCompensationHistory.Record | GameLogic/include/GameLogic/LagCompensation.hpp:17-22 | appends and pops from the front down to the limit |
| LagCompensation.LagCompensationHistory.ClosestAtOrBefore | GameLogic/include/GameLogic/LagCompensation.hpp:24-32 | the scanning loop computes that lookup |
| Clock.OffsetInHull | GameLogic/src/TimeSync.cpp:7-25 | the offset never leaves the hull of the measured offsets |
| Clock.OffsetIsNear | GameLogic/src/TimeSync.cpp:7-25 | against a constant true offset it errs by at most half the largest round trip, rounded up |
| Clock.RepeatedConverges | GameLogic/src/TimeSync.cpp:7-25 | under constant samples the distance never grows and ends at most 7 |
| Clock.EstimateIsNear | GameLogic/src/TimeSync.cpp:39-46 | the estimated server time errs by no more than half the largest round trip, rounded up |
| Clock.EighthOfTheWay | GameLogic/src/TimeSync.cpp:7-25 | a sample moves offset and round trip an eighth of the way to what it measures, but for the truncation; the first is taken as it is |
| Clock.DelayFollowsRoundTrips | GameLogic/src/TimeSync.cpp:18-24 | the smoothed round trip stays within the measured ones and the interpolation delay follows it between 50 and 250 |
| Clock.NetworkClock.ServerTimeAt | GameLogic/src/TimeSync.cpp:39-46 | local time plus offset, not below zero |
| Clock.SevenCanStay | GameLogic/src/TimeSync.cpp:7-25 | 7 is attained for good, because division truncates |
| Clock.NetworkClock.RecordSample | GameLogic/src/TimeSync.cpp:7-25 | updates offset, round trip and delay in place |
| Fields.DecodeEncoded | GameLogic/include/GameLogic/Serialization.hpp:72-121 | reading a record back gives its values and leaves what follows |
| Fields.EncodeDecoded | GameLogic/include/GameLogic/Serialization.hpp:72-121 | accepted bytes are the encoding of what they are read as |
| Fields.FieldAt | GameLogic/include/GameLogic/Serialization.hpp:30-34 | every field of a record is written right after the fields before it |
| Wire.MovementLayout | GameLogic/src/Serialization.cpp:59-67 | at which bytes each part of a movement state is written |
| Layouts.SnapshotLayout | GameLogic/src/Serialization.cpp:573-593 | a snapshot byte by byte: head, count and every entity, numbers in two's complement with the least byte first, codes and flags in one byte |
| Layouts.EventLayout | GameLogic/src/Serialization.cpp:315-379 | each of the ten domain events byte by byte behind its number, tick, time and code |
| Layouts.TimeSyncLayout | GameLogic/src/Serialization.cpp:283-313 | a time answer byte by byte |
| Wire.SnapshotRoundTrip | GameLogic/src/Serialization.cpp:573-646 | every snapshot within the wire's widths comes back; the count guard refuses no encoder output |
| Wire.SnapshotBytesRoundTrip | GameLogic/src/Serialization.cpp:595-646 | every accepted byte string re-encodes to itself |
| Wire.CountThere | GameLogic/src/Serialization.cpp:595-604 | a count that entities really follow passes the guard measured before the count |
| Wire.EntitiesAreLongEnough | GameLogic/src/Serialization.cpp:8-10 | every encoded entity takes at least the guard's 35 bytes |
| Wire.EventRoundTrip | GameLogic/src/Serialization.cpp:315-514 | every network event within the wire's widths comes back, for each of the ten kinds |
| Wire.EventBytesRoundTrip | GameLogic/src/Serialization.cpp:381-514 | every accepted byte string re-encodes to itself |
| Wire.TimeSyncRoundTrip | GameLogic/src/Serialization.cpp:283-313 | answers to time synchronisation and their bytes determine each other |
| Frame.FrameLayout | Networking/src/TransportPacketCodec.cpp:94-108 | at which bytes each part of a frame is written, with the payload at the end |
| Layouts.FrameBytes | Networking/src/TransportPacketCodec.cpp:94-108 | a frame byte by byte, with the codes of channels and classes |
| Layouts.ValidEnvelopes | GameLogic/include/GameLogic/NetworkProtocol.hpp:80-127 | an envelope is valid exactly with version 1, at most 64 KiB and one of the eleven pairs of channel and class |
| Layouts.EnvelopesAre | Server/src/ServerNetworkHost.cpp:268-369 | snapshots and events are addressed to their peer, numbered by their own id, in their class and channel |
| Frame.FrameRoundTrip | Networking/src/TransportPacketCodec.cpp:94-160 | a frame decodes to its envelope exactly when that is valid, and otherwise to the reason |
| Frame.FrameBytesRoundTrip | Networking/src/TransportPacketCodec.cpp:110-160 | accepted frames are valid and re-encode to themselves |
| Frame.SnapshotCrossesInFrame | Networking/src/TransportPacketCodec.cpp:94-160 | a snapshot crosses in a frame unchanged up to the payload limit and is refused as too large beyond |
| Frame.EventCrossesInFrame | Networking/src/TransportPacketCodec.cpp:94-160 | a network event always fits a frame and crosses unchanged |
| CodecObject.SerializeSnapshot | GameLogic/src/Serialization.cpp:573-593 | the writer's appends produce the specified bytes |
| CodecObject.DeserializeSnapshot | GameLogic/src/Serialization.cpp:595-646 | cursor, first error and count guard accept exactly what the specification accepts |
| CodecObject.SerializeNetworkEvent | GameLogic/src/Serialization.cpp:315-379 | the writer's appends produce the specified bytes |
| CodecObject.DeserializeNetworkEvent | GameLogic/src/Serialization.cpp:381-514 | cursor and first error accept exactly what the specification accepts |
| CodecObject.BinaryReader.ReadFields | GameLogic/src/Serialization.cpp:69-165 | reads on after a failed field and yields values only if all were there |
| CodecObject.BinaryReader.Finish | GameLogic/include/GameLogic/Serialization.hpp:59-70 | succeeds only without an error and at the end of the bytes |
| RtcPair.PairDelivers | Networking/src/KcpRtcPumpedTransport.cpp:71-140 | under every interleaving the envelopes accepted at one end are those polled at the other followed by those queued in between |
| RtcCalls.PollsHandOut | Networking/src/KcpRtcTransport.cpp:71-82 | after any run one more poll adds exactly the next envelope the other end was allowed to send, and nothing only if there is none |
| RtcCalls.EnoughPollsDeliver | Networking/src/KcpRtcTransport.cpp:71-82 | n polls bring n more envelopes until all are there, in order |
| RtcCalls.SendsAreAcceptedIff | Networking/src/KcpRtcTransport.cpp:43-69 | a send is accepted exactly when the end is up and the envelope is well formed and within the byte budget |
| RtcCalls.SignalsStayInSession | Networking/src/RtcSignalingClient.cpp:20-54 | a signal reaches the peer it names, or all others, of its sender's session and nobody else |
| RtcCalls.LeavingEndsIt | Networking/src/KcpRtcTransport.cpp:127-186 | told that the other side left or failed, an end accepts no more envelopes |
| RtcCalls.ConnectingAnnounces | Networking/src/KcpRtcTransport.cpp:11-27 | connecting fails without a complete configuration; otherwise an end joins by name and a client offers its channel, numbered from one |
| RtcCalls.SignalsAreNumbered | Networking/src/KcpRtcTransport.cpp:224-235 | every signal an end queues takes the next number |
| RtcCalls.ForeignSignalsAreIgnored | Networking/src/KcpRtcTransport.cpp:127-140 | invalid signals, those of other sessions, for other peers, or its own change nothing |
| RtcPair.PairConnectsIff | Networking/src/KcpRtcPumpedTransport.cpp:142-175 | after client, server, client have each made a call both ends are connected, if and only if session and label fit the signalling limits |
| RtcPair.DeliversExactlyOnceInOrder | Networking/src/KcpRtcTransport.cpp:43-82 | the same for any two configurations that can connect |
| RtcPair.ThreeUpdatesConnect | Networking/src/KcpRtcTransport.cpp:101-186 | the handshake completes within three calls |
| RtcPair.TooLongNeverConnects | Networking/src/RtcSignalingClient.cpp:20-54 | with an offer that cannot be carried no run connects and nothing is ever accepted |
| RtcPair.ServerAnswers | Networking/src/KcpRtcSignalingPump.cpp:5-26 | the update that hears the offer leaves the server connected with answer and ready on their way, in this order |
| RtcPair.ClientComesUp | Networking/src/KcpRtcSignalingPump.cpp:5-26 | the update that hears both connects the client before it reads any frame |
| RtcObject.PumpedTransport.Update | Networking/src/KcpRtcPumpedTransport.cpp:71-86 | pumping signals, telling readiness, pumping again and pumping frames, in place |
| RtcObject.PumpedTransport.Send | Networking/src/KcpRtcPumpedTransport.cpp:98-106 | updates, hands over and pushes an accepted frame into the channel |
| RtcObject.PumpedTransport.Poll | Networking/src/KcpRtcPumpedTransport.cpp:108-111 | updates and takes the oldest envelope |
| RtcObject.KcpRtcTransport.ReceiveSignalingMessage | Networking/src/KcpRtcTransport.cpp:127-186 | the endpoint's reaction to each kind of signal, foreign ones ignored |
| RtcObject.KcpRtcTransport.Send | Networking/src/KcpRtcTransport.cpp:43-69 | accepts valid envelopes when connected and within the byte budget |
| RtcObject.KcpRtcTransport.AcceptFrame | Networking/src/KcpRtcTransport.cpp:199-216 | takes only decodable frames and only when connected |
| RtcObject.SignalingHub.RouteMessage | Networking/src/RtcSignalingClient.cpp:20-54 | routes to the target, or to all others of the session |
| RtcObject.PumpKcpRtcSignaling | Networking/src/KcpRtcSignalingPump.cpp:5-26 | drains outgoing, then incoming signals |
| RtcObject.PumpKcpRtcDataChannel | Networking/src/KcpRtcDataChannelPump.cpp:5-26 | drains outgoing, then incoming frames |

## Left out

- Raylib rendering, the view model, event logs, visual effects, presentation interpolation and the floating-point `FixedStepClock`: user interface and floating point.
- Executables, smoke programs, CMake, scripts and the browser preview: wiring.
- Unsupported RTC backends, `TransportFactory`, and the mapping of error codes: constant behaviour. `lastError` fields and byte counters are not modelled.
- `SimulationOnlyClientDriver`: floating-point aiming; its inputs are covered as arbitrary inputs.
- Codecs of login, input, acknowledgements and requests for time: fixed records, covered by Fields.DecodeEncoded and Fields.EncodeDecoded.
- The codec of signalling messages: they are kept as values, and a message that its codec would refuse (empty or over-long session, over-long payload) is not carried.
- EnTT handles: an entity is a record of optional components under its network id. Tags that no logic reads (authoritative, interpolated, replication mode) are dropped.
- Host byte order: little-endian.
- Disconnects, `Close` and reconnects, and clients acknowledging for one another: the server has no disconnect path.
- The host's dispatch of incoming envelopes to its handlers: each handler is modelled, the login's admission is the simulation's answer.
- The host's reply to requests for time.
- Wrap-around of 32-bit ids, sequences and 64-bit times.
- Prediction.ReplayPredictsServer: about windows in which every tick consumes exactly one input of the client and its player does not die; Prediction.TwoInputsInOneTickDiffer shows that without the first the places can differ.
- Replicas.ApplicationForgetsHistory: the start time of a warm-up is not replicated and is not part of the compared view; Prediction.PlayerIsKnown is about the client index of players.
- RtcPair.DeliversExactlyOnceInOrder: both ends connect before any other call, and peer names and labels fit the signalling payload limit; RtcPair.PairDelivers covers every in-memory pair.
- Loopback.UndelayedIsInOrder: the case without delays; Loopback.OrderIsKeptIff says exactly which conditions keep the order, and under all of them Loopback.RunConserves loses and invents nothing.
