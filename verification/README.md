# Drifto, verified

A Dafny model of the parts of Drifto that have to be right: the host-authoritative
session and its client-side prediction, the elimination race and its migration from
host to host, the endless track generator, the asset converter's mesh and PNG code,
the spectrum analyser's Fourier transform, the mixer's output stage and voice pool,
the wire quantisation, and the credential store. Code that updates state in place is
modelled by classes, arrays and loops; each method is proved equal to a function of
the old state, and what the game relies on is proved of those functions over every
input and every run.

`dafny verify dfyconfig.toml` checks the whole project.

## The modules

| area | modules |
|---|---|
| shared notions | `Basics`, `Vectors` |
| sessions and prediction | `Prediction` (the ring and the replay), `Sessions` (a peer over any run), `CarStates` (what snapshots replicate), `SessionFacts` (what each event does, told car by car), `Lockstep` (host and client together) |
| inputs and the wire | `InputPipeline` (de-duplication and jitter queues), `WireFormat` (quantisation) |
| race | `Sorting`, `RaceRules`, `EliminationRace` (the object), `RaceRuns` (invariants and time bound), `RaceFacts` (what an update does, told racer by racer) |
| hosts | `Snapshots`, `HostMigration` (restore as a bisimulation), `MatchPhases`, `HostRuns` and `HostSessions` (race, cars and phases together), `HostFacts` (told car by car and tick by tick), `SharedFacts` (what clients compute for themselves) |
| track | `Angles`, `TrackSections`, `TrackGrid`, `TrackFeatures`, `FeatureShapes` (what each kind is), `TrackGenerator`, `TrackInvariants`, `TrackChoices` (which feature is next, from the draws), `EndlessTrack` (the object) |
| assets | `UnionFind`, `MeshParts`, `Meshes`, `MeshFiles`, `WheelSplit`, `CarWheels`, `PartsHome`, `PngFilters`, `PngReaders`, `PngFiles`, `PngChunks` (any file) |
| audio and accounts | `Division`, `ComplexNumbers`, `BitReversal`, `FastFourier`, `Mixer`, `VoicePool`, `AuthRecords`, `AuthStore` |

## What is taken for granted

Floats are `real` and counters are unbounded, except where a width is the point (wire
words, hash keys, unsigned fields of a record). The physics step is a deterministic
function of state, input, tick and surroundings; in `Lockstep` it is also assumed
(`StepOk`) not to read the drift angle and to leave speed and ghost time consistent.
Sine and cosine carry only the axioms a proof needs (`Trig.Valid`), the exponential
lies in (0, 1] for non-positive arguments (and, for levels over several blocks, turns
sums into products), the square root squares back, zlib is an
inverse pair, the checksum fits 32 bits, and the password hash is a function. A random
stream is a sequence of numbers in [0, 1) fixed by its seed.

## Where the code does not keep a promise

Each of these is proved with its exact condition.

- A player who leaves during the countdown, or from the podium, keeps a car whose record
  has elimination order 0 (`multiplayer_session.cpp:576-597`). A host promoted from such a
  snapshot brings the player back as a rival, and clients rank it. Migration is faithful,
  and finishing orders agree, exactly when no car is outside the race; over whole matches,
  when nobody left before the start or was dropped after the finish
  (`HostRuns.HostReplaceable`, `SharedFacts.FinishingOrdersInRuns`).
- The snapshot of the green light itself is published before the race has taken in where
  the cars stand on the grid. A host promoted from it ranks by the grid, the old one by id:
  migration is faithful then exactly when the cars stand where the race has them.
- When all cars that are in stand level, a client predicts with the leader's recharge
  multiplier even if the host ranks its car last (`SharedFacts.MultipliersAgree`).
- At the podium prediction does get corrected: the host freezes the cars
  (`multiplayer_session.cpp:512`), and its snapshots throw the client back by the whole way
  predicted since (`Lockstep.CorrectionsExact`, `Lockstep.PodiumThrowsBack`). A client that
  was frozen by the announcement and then takes a late snapshot of the race is thrown
  forward in the same way.
- A snapshot 255 ticks old or older throws the prediction back
  (`Lockstep.OldSnapshotThrowsBack`): the replay test leaves out the ring's last slot.
- The nine-cell lookup is exact for clearances up to the 20 m cell and no further.
- The header's promise that no new feature comes too close to older road
  (`track.h:24-26`) does not cover the fallback sections, which are committed unchecked.
  A fallback is clear exactly when the grid would have let it pass
  (`TrackInvariants.FallbackClearIff`, and over runs `FeatureClearIff`); without a skip
  every one conflicts (`FallbacksConflict`).
- The argument that a 176 degree turn cannot go round the back holds for heading bands
  below 92 degrees; the shipped band is 88.
- The vectorised PNG reader takes filter types from 5 on for Paeth, the plain reader
  for none.
- The comment that dropping the sign of a quaternion makes its encoding unique fails
  for half turns (w = 0).
- Account names that are empty, longer than 32 characters, or hold a colon or a line
  end are registered but not found again or not read back (`AuthStore.RegistrationLasts`).
- The comment that a local car takes over the most distant rival's voice holds as long as
  at most one car is local, as the game has it. With two, one that was removed and came
  back at its voice's update count is still taken for a rival and can be robbed
  (`VoicePool.ReturnedCarLosesVoice`); `VoicePool.UnservedExactly` says exactly when.

Where a header describes more loosely than the code works, the model follows the code:
`track.h:15` has both bends of the esses turn 35 to 60 degrees on 26 to 40 m, where the
second is the first times 0.8 to 1.2 in angle and 0.85 to 1.15 in radius
(`FeatureShapes.KindSays`).

## Model

| member | source | states |
|---|---|---|
| Sessions.PredictingSession.constructor | game/src/multiplayer_session.cpp:112-120 | a session starts outside any match, with an empty ring and its own tick count at zero |
| Sessions.PredictingSession.ClearRing | game/src/multiplayer_session.cpp:222 | clearing forgets the tick of every slot and keeps inputs and states |
| Sessions.PredictingSession.BeginMatch | game/src/multiplayer_session.cpp:190-268 | the whole session after a match start, or no change for the echo of our own start: the tick count goes on, the ring is cleared, prediction starts from the spawn at the plain recharge rate, among the others on the grid and from the tick of the start; a host has no remotes |
| Sessions.PredictingSession.End | game/src/multiplayer_session.cpp:271-277 | leaving a match: inactive, in the lobby, without remotes |
| Sessions.PredictingSession.OnRosterChanged | game/src/multiplayer_session.cpp:311-312 | whoever left is no longer collided with |
| Sessions.PredictingSession.OnPhaseChanged | game/src/multiplayer_session.cpp:281-290 | a phase announced by the host is adopted by clients in a match only |
| Sessions.PredictingSession.OnHostChanged | game/src/multiplayer_session.cpp:316-406 | the whole session after a role change: promotion (the remotes go), demotion to a client predicting afresh from the authoritative car among the cars it hosted, or a host elsewhere whose tick count may be behind |
| Sessions.PredictingSession.Reconcile | game/src/multiplayer_session.cpp:824-857 | the in-place loop over the ring computes exactly the ring and car of the replay (or of the hard reset), and the correction is the difference of the positions |
| Sessions.PredictingSession.ProcessSnapshot | game/src/multiplayer_session.cpp:691-822 | the whole session after a snapshot: stale ones dropped; phase, multiplier, our moment and the others' records read out of its cars first; an eliminated car overwritten, any other reconciled; then the cars it does not name dropped, and a lobby ends the match |
| Sessions.PredictingSession.LookAround | game/src/multiplayer_session.cpp:723-802 | the loop over the cars of a snapshot finds our record, our moment, the recharge multiplier and everybody else's newest record |
| Sessions.PredictingSession.ClientTick | game/src/multiplayer_session.cpp:646-669 | the whole session after a client tick: snapshot first, then the input that is sent is the one predicted with and remembered in its slot |
| Sessions.PredictingSession.Tick | game/src/multiplayer_session.cpp:445-452 | every role counts its own ticks and a session outside a match does nothing |
| Sessions.RunTracks | game/src/multiplayer_session.cpp:190-268 | in every reachable state, through match restarts, roster changes, announced phases and role changes, a client's ring holds exactly its current stretch of prediction, tick by tick, each with the input that was sent |
| Sessions.SnapshotReplaysInputs | game/src/multiplayer_session.cpp:824-857 | in every reachable client state, if only the slot of T passes the test then every slot from T to the newest holds its own tick, and the replay leaves in each of them, and in our car, the fold of the step over the inputs sent after T from the host's fields laid over our state after T, among the cars of that snapshot |
| SessionFacts.SnapshotSays | game/src/multiplayer_session.cpp:691-822 | of every fresh snapshot: afterwards exactly the cars it names other than ours are around, each as its last record has it; our moment is our last record's input tick, the tick before this one if that is 0, the old one without a record; the multiplier is the band between first and last; phase and match follow the snapshot |
| SessionFacts.StaleSays | game/src/multiplayer_session.cpp:691-697 | a snapshot not newer than the last one taken changes nothing; any other is taken |
| SessionFacts.OwnCarSays | game/src/multiplayer_session.cpp:803-857 | without a record our car is untouched; out of the race it shows its last record and the ring is untouched; a record whose slot is gone is taken over as it is |
| SessionFacts.ReplaysAmong | game/src/multiplayer_session.cpp:824-857 | in every reachable client state the replay of a snapshot runs among the last records of that very snapshot, over those of cars it does not name |
| SessionFacts.ClientTickSays | game/src/multiplayer_session.cpp:646-669 | the input sent is the driver's while racing and the hold input otherwise, labelled with our tick; it is the one our car is stepped with, once, unless it is out or on the podium, and the one remembered |
| SessionFacts.BeginningSays | game/src/multiplayer_session.cpp:190-268 | a match that begins, field by field: where a client and where a host starts, the ring forgotten, any snapshot fresh; only the echo of our own start changes nothing |
| SessionFacts.NoticesSay | game/src/multiplayer_session.cpp:271-312 | an end, a roster and an announced phase each change their own part: exactly the kept remotes stay, each as it was |
| SessionFacts.RolesSay | game/src/multiplayer_session.cpp:316-406 | a promoted client drops its remotes, a relieved host predicts on from the car it hosted among the cars it hosted, remembered under this tick alone, and under any other host the next snapshot counts whatever its number |
| SessionFacts.TicksSay | game/src/multiplayer_session.cpp:445-452 | every role counts its own ticks; a host takes its phase from its own tick, and the lobby ends the match |
| Prediction.WindowIntact | game/src/multiplayer_session.cpp:834-836 | testing one slot is enough: if slot T holds T, all later slots hold their ticks |
| Prediction.ReplayRingMeaning | game/src/multiplayer_session.cpp:849-856 | replaying in the ring equals simulating the inputs, for less than a ring's length, and leaves older slots alone |
| Prediction.ReconcileReplays | game/src/multiplayer_session.cpp:824-857 | reconciling is that simulation from the merged state, slot by slot, for any ring that holds its stretch |
| Prediction.RingExtends | game/src/multiplayer_session.cpp:666-669 | storing the next tick overwrites only the oldest slot |
| CarStates.SnapshotOfItself | game/src/car_physics.cpp:391-430 | a snapshot of a car applied to itself changes nothing the step reads, exactly when its speed and ghost time are consistent |
| CarStates.SnapshotReplaces | game/src/car_physics.cpp:391-430 | a snapshot applied to an alike car reproduces everything the step reads of the original |
| Lockstep.HostStepIsTruth | game/src/multiplayer_session.cpp:456-516 | the host applies the very inputs the client simulated, also while both hold on the grid |
| Lockstep.DriverSteers | game/src/multiplayer_session.cpp:646-669 | each client tick sends one input, the driver's own while the client takes the race to be on |
| Lockstep.SnapshotChangesNothing | game/src/multiplayer_session.cpp:824-870 | a snapshot of any stepped input less than a ring old leaves our car where all inputs sent lead; unless it had been frozen by an announced podium, nothing that matters changes and the correction is exactly zero |
| Lockstep.PodiumSnapshot | game/src/multiplayer_session.cpp:834-876 | a snapshot of the podium leaves the ring alone and puts our car where the host froze it; the correction is the whole way between |
| Lockstep.NextInStep | game/src/multiplayer_session.cpp:456-669 | every step of the pair (client tick with or without a snapshot, announced phase, delivery, host tick, green light, turn to the podium) keeps host, ring, prediction, published snapshots and corrections on the one true run |
| Lockstep.CorrectionsExact | game/src/multiplayer_session.cpp:456-877 | every correction of every run, exactly: Truth(was) - Truth(now), where now is every input sent for snapshots of countdown and race, and the last input the host stepped for snapshots of the podium; zero for every countdown or race snapshot taken before more is sent than when the host froze the cars |
| Lockstep.LockstepNeverCorrects | game/src/multiplayer_session.cpp:456-877 | in every run up to the podium, without starved or trimmed ticks, remote cars or differing multipliers, every correction is exactly zero |
| Lockstep.PodiumThrowsBack | game/src/multiplayer_session.cpp:834-876 | at the podium the promise ends: in a concrete run the correction is the metre driven since the host froze the cars |
| Lockstep.OldSnapshotThrowsBack | game/src/multiplayer_session.cpp:834-842 | from an age of 255 ticks on the correction is instead the whole distance driven since |
| InputPipeline.InputCore.AcceptInput | net/src/net_client_core.h:119-134 | which inputs pass the de-duplication, and the complete new per-player tick and queue, overflow included |
| InputPipeline.InputCore.TakeInputs | net/src/net_client.cpp:1122-1128 | everything that waits is handed over and nothing is left |
| InputPipeline.HostInputs.Receive | game/src/multiplayer_session.cpp:462-472 | each remote car's queue gets its own inputs in order, late ones dropped; no other car changes |
| InputPipeline.HostInputs.NextInput | game/src/multiplayer_session.cpp:493-508 | trimming, consuming and starving of one queue, with both statistics |
| InputPipeline.RunQueueKeeps | game/src/multiplayer_session.cpp:462-508 | over every run and any batches: the queue is strictly increasing within (lastApplied, lastQueued], lastApplied never goes back, at most maxBufferedInputs - 1 wait after a tick, applied ticks increase, and queued = applied + trimmed + waiting as bags |
| InputPipeline.ConsumedTicks | game/src/multiplayer_session.cpp:495-508 | a host tick neither loses nor doubles an input |
| InputPipeline.DrivenBy | game/src/multiplayer_session.cpp:495-508 | over every run: with inputs waiting a tick drives the car with the oldest, or after a burst with the older of the two newest, whole and as received, and its tick is then the last applied; with none it repeats the input in force |
| InputPipeline.DroveApplied | game/src/multiplayer_session.cpp:495-508 | so the inputs a car is driven with are received ones, each once, in the order of their ticks, exactly those applied, and repeated on starved ticks only |
| InputPipeline.NoTickLost | net/src/net_common.h:105-108 | a packet at most five ticks newer than the last one, or any older one, leaves every tick queued exactly once |
| InputPipeline.GapLosesTick | net/src/net_common.h:105-108 | with one more packet missing a tick is lost for good, so four losses is exactly the limit |
| InputPipeline.EveryTickQueued | net/src/net_common.h:105-108 | over every run with few enough consecutive losses, any duplication and reordering, every tick up to the newest packet is queued exactly once and in order |
| InputPipeline.AcceptProjects | net/src/net_client_core.h:119-134 | the shared map and queue act on each player as if alone, and an overflow takes from each player exactly the oldest of what waits |
| InputPipeline.RoomProjects | net/src/net_client_core.h:119-134 | over every run of a room without overflow, each player's queue and ticks are those of a run of its own, whatever the others send |
| InputPipeline.EveryPlayersTicks | net/src/net_common.h:105-108 | so every player with few enough consecutive losses has every tick up to its newest packet queued exactly once and in order |
| RaceRules.LiveOrderSorted | game/src/race.cpp:424-434 | the live order is sorted by distance, then id, without repeats |
| RaceRules.OrderPlaces | game/src/race.cpp:424-434 | handing out places along the sorted order gives each racer one more than the racers ahead of it |
| RaceRules.PlaceInOrder | game/src/race.cpp:424-434 | every live racer stands in the order at its place |
| EliminationRace.EliminationRace.constructor | game/include/race.h:140 | a race that has not started |
| EliminationRace.EliminationRace.Rank | game/src/race.cpp:424-447 | in-place ranking equals places by distance and multipliers by position in the field |
| EliminationRace.EliminationRace.FindCurrentLast | game/src/race.cpp:450-457 | the loop finds the live racer of the highest place |
| EliminationRace.EliminationRace.Start | game/src/race.cpp:382-395 | the complete race after a start |
| EliminationRace.EliminationRace.Restore | game/src/race.cpp:399-419 | the complete race after a restore from a snapshot |
| EliminationRace.EliminationRace.Eliminate | game/src/race.cpp:461-478 | the complete race and events after an elimination |
| EliminationRace.EliminationRace.RemovePlayer | game/src/race.cpp:482-488 | a departure is an elimination while the race is on and a removal otherwise |
| EliminationRace.EliminationRace.FinishByLeader | game/src/race.cpp:509-516 | the time cap makes the racer of place 1 the winner |
| EliminationRace.EliminationRace.TickClock | game/src/race.cpp:530-545 | last place changing hands with hysteresis, and the clock |
| EliminationRace.EliminationRace.Update | game/src/race.cpp:520-548 | the complete race and events after an update |
| RaceRuns.SamePlaces | game/src/race.cpp:424-434 | order and places depend only on who is in and where they stand |
| RaceRuns.PlacesAreRanks | game/src/race.cpp:424-434 | live places lie in 1..live, are distinct, and compare as distance then id |
| RaceRuns.EveryPlaceTaken | game/src/race.cpp:424-434 | every place from 1 to live is held by somebody |
| RaceRuns.CurrentLastIsLast | game/src/race.cpp:450-457 | the current last is live and behind everyone else that is in |
| RaceRuns.LineRankable | game/src/race.cpp:424-506 | places of the racers in and orders of those out tell any two racers apart |
| RaceRuns.EliminateKeeps | game/src/race.cpp:461-478 | an elimination resets the clock, gives the next order, and either keeps the invariant or leaves a live winner of place 1 |
| RaceRuns.UpdateKeeps | game/src/race.cpp:520-548 | after each update the car on the clock is live and at most overtakeMargin ahead of the true last car, and the invariant or a decided race remains |
| RaceFacts.ProgressSays | game/src/race.cpp:520-526 | a racer stands where its last report puts it, and where it stood without one |
| RaceFacts.UpdateSays | game/src/race.cpp:520-548 | what an update of a race that is on does, from the ranked line-up: the car on the clock stays on it, stage and timer running on, unless it is more than the margin ahead of the true last car; then that one is on it, a stage further up to the fifth, on that stage's time, with the event; a car that is out is replaced; and at timer 0 exactly the car then on the clock goes out |
| RaceFacts.TickSays | game/src/race.cpp:528-541 | the clock part of that, for any ranked race |
| RaceFacts.EliminateSays | game/src/race.cpp:461-478 | an elimination takes out exactly the racer named, as the latest, starts the clock again on the true last car, and decides the race exactly when one racer is left |
| RaceFacts.TimeCapSays | game/src/race.cpp:509-516 | the time cap makes the racer ahead of all others in the winner and moves nobody |
| RaceFacts.RankedMultiplier | game/src/race.cpp:424-447 | ranking gives the first the leader's recharge rate, a last one behind it the last's, and everyone between a share in proportion |
| RaceRuns.LeaveKeeps | game/src/race.cpp:482-488 | so do departures |
| RaceRuns.TimeCapKeeps | game/src/race.cpp:509-516 | the time cap always leaves a live winner of place 1 |
| RaceRuns.RunKeeps | game/src/race.cpp:382-548 | over every run from a start with two or more distinct non-zero ids: until the finish the places are the ranks, elimination orders are exactly 1..count, live + count = n, live >= 2, stage <= 5 and 0 < timer <= stageTime(stage); from the finish on the winner is live; and the time bound holds |
| RaceRuns.TimeBoundDefault | game/include/race.h:86-90 | with the shipped stage times elapsed + timer <= 32 + 16 per change of last place + (32 + dt) per elimination, over every run |
| HostMigration.SimAfter | game/src/race.cpp:399-548 | races that differ only in the distances of racers that are out produce the same events and stay so under every sequence of updates, departures and time cap |
| HostMigration.RestoredSimulates | game/src/race.cpp:399-419 | a race restored from the published snapshot is such a race when no car is outside it |
| HostMigration.RestoreFaithful | game/src/race.cpp:399-419 | the restored race shows the same places, multipliers, clock, stage, winner and events under everything that can follow exactly when no car is outside the race and, while the race is on, the cars stand where it has them; a race decided with one racer left needs no distances |
| HostMigration.RestoreDecided | game/src/race.cpp:399-419 | a race decided by a departure is restored faithfully although its winner has driven on |
| HostMigration.DistanceSeen | game/src/race.cpp:399-447 | while the race is on, a car standing elsewhere than its racer is found out by moving another racer in between |
| HostMigration.MigratesAgain | game/src/multiplayer_session.cpp:341-379 | whatever the first migration kept, the race it restored can be published again, and a second migration loses nothing |
| HostMigration.LeftBeforeStartComesBack | game/src/multiplayer_session.cpp:576-597 | a concrete case: a player who left during the countdown has a car record of order 0 and returns as a rival |
| HostMigration.RunPublishable | game/src/race.cpp:382-548 | in every run a race can be published as long as nobody has been dropped from it |
| HostMigration.UpdateCarries | game/src/multiplayer_session.cpp:521-527 | after an update fed with the host's cars, cars and race agree on where everyone stands |
| HostRuns.HostTickKeeps | game/src/multiplayer_session.cpp:456-557 | a host tick (moving the cars, updating the race, turning the phase) keeps race, cars and phases consistent |
| HostRuns.DepartureKeeps | game/src/multiplayer_session.cpp:293-312 | so does a departure at any time: before the start, while the race is on, and from the podium |
| HostRuns.PromotedKeeps | game/src/multiplayer_session.cpp:341-379 | so does a migration, before the start, while the race is on, and on the podium, unless somebody outside the race comes back: the promoted host is as consistent as one that began the match |
| HostRuns.BeginningOk | game/src/multiplayer_session.cpp:190-268 | a host that begins a match is consistent |
| HostRuns.HostRunKeeps | game/src/multiplayer_session.cpp:293-557 | over every run of ticks, departures and migrations from any such host, as long as nobody is left outside the race when the host is replaced after the green light |
| HostRuns.HostReplaceable | game/src/multiplayer_session.cpp:576-597 | at every moment of every run from the green light on, earlier migrations included and from any consistent host, a new host restored from the published snapshot behaves as the old one would under everything that can follow exactly when nobody left before the start, nobody was dropped from the podium, and the race has been updated, is decided, or has the cars where they stand |
| HostSessions.HostSession.HostTick | game/src/multiplayer_session.cpp:456-557 | the race and phase part of the host tick as it runs, complete new state |
| HostFacts.HostPhases | game/src/multiplayer_session.cpp:534-557 | over every run of a match, whoever leaves and whoever is host, the phase after n ticks is exactly that of its three lengths: the countdown's ticks, the race's until it is decided or its time is up, the podium's ticks |
| HostFacts.CarsDriven | game/src/multiplayer_session.cpp:509-513 | a tick moves every car where the step takes it, except those out, those whose player left, and all on the podium |
| HostFacts.RacingTick | game/src/multiplayer_session.cpp:522-553 | while racing the race is told exactly where those cars now are, and a tick that turns to the podium makes the leader the winner |
| HostFacts.GreenLight | game/src/multiplayer_session.cpp:538-544 | on the tick the countdown ends exactly those who have not left line up, level, on the first stage's clock |
| HostSessions.HostSession.Leave | game/src/multiplayer_session.cpp:293-312 | a departure as the host handles it, complete new state |
| HostFacts.LeavingSays | game/src/multiplayer_session.cpp:293-309 | a departure marks exactly the car of that player and takes its racer out of the race; of nobody, or again, it changes nothing |
| HostFacts.RemoveSays | game/src/race.cpp:482-488 | a departure eliminates while the race is on, and before and after it drops exactly that racer |
| HostSessions.HostSession.Drive | game/src/multiplayer_session.cpp:475-527 | exactly the cars still in and present are stepped and reported to the race |
| SharedFacts.FinishingOrderMeaning | game/src/race.cpp:492-506 | the finishing order names every racer once, the winner first |
| SharedFacts.FinishingOrderRanks | game/src/race.cpp:492-506 | of two others the one still in, better placed, or eliminated later comes first |
| SharedFacts.FinishingOrdersAgree | game/src/multiplayer_session.cpp:94-108 | the order a client computes from the snapshot equals the host's exactly when no car is outside the race, wherever the cars stand |
| SharedFacts.FinishingOrdersInRuns | game/src/multiplayer_session.cpp:94-108 | at every moment of every match from the green light on they agree exactly when nobody left before the start or was dropped from the podium |
| SharedFacts.EndsOfField | game/src/multiplayer_session.cpp:723-731 | the client's scan counts the racers in and finds the distances of the first and the last in live order, flagged records of others among them |
| SharedFacts.PublishShows | game/src/multiplayer_session.cpp:576-597 | what the host publishes shows exactly who is in and where, early leavers flagged |
| SharedFacts.MultipliersAgree | game/src/multiplayer_session.cpp:743-746 | the client's recharge multiplier equals the one rank gives its car, exactly unless everyone in stands level and its car is ranked last |
| SharedFacts.MultipliersInRuns | game/src/multiplayer_session.cpp:723-746 | the same of the snapshots of every match, early leavers or not, once an update has taken in where the cars stand and until somebody is dropped from the podium |
| MatchPhases.MatchClock.SetPhase | game/src/multiplayer_session.cpp:409-416 | entering a phase sets its timer |
| MatchPhases.MatchClock.Tick | game/src/multiplayer_session.cpp:534-557 | the phase machine's complete new state |
| MatchPhases.TicksForMeans | game/src/multiplayer_session.cpp:536-537 | a duration lasts the fewest ticks, at least one, that cover it |
| MatchPhases.PhasesLast | game/src/multiplayer_session.cpp:534-557 | the countdown lasts exactly its ticks whatever the race does, the race exactly until the first tick on which it is decided or its time is up, the podium exactly its ticks |
| MatchPhases.MatchRunsItsCourse | game/src/multiplayer_session.cpp:534-557 | whatever the cars do, phases come in order, none is skipped, and the remaining ticks are bounded by the three durations |
| MatchPhases.MatchEnds | game/src/multiplayer_session.cpp:534-557 | every match is back in the lobby within that bound |
| Angles.WrappedInBand | common/dmath.h:25-30 | an angle short of a whole turn less the band that wraps into the band is in it |
| TrackSections.CentreEnds | game/src/track.cpp:116-131 | the centreline follows the curve of its section (straight, or turned about the centre of the bend) all the way, begins and ends at the recorded points, heights included, and so does the curve |
| TrackSections.HeightFalls | game/src/track.cpp:97-103 | without a bump the road falls all the way between its ends and leaves them level: near an end the height differs by the square of the way |
| TrackSections.BumpAdds | game/src/track.cpp:97-103 | a bump lifts or lowers that by at most its height, and not at the ends |
| TrackSections.MadeArc | game/src/track.cpp:297-316 | the recorded end of a bend is where its curve, turn and drop lead |
| TrackSections.MadeLine | game/src/track.cpp:278-293 | and that of a straight |
| TrackSections.YawBetween | game/src/track.cpp:89-93 | everywhere along a section the heading lies between its start and end headings |
| TrackGrid.LookupMeaning | game/src/track.cpp:227-233 | the grid under a key holds exactly the points of that key, collisions included |
| TrackGrid.LookupExact | game/src/track.cpp:469-497 | the nine-cell lookup answers like a test against every recorded point |
| TrackGrid.LookupExactIff | game/src/track.cpp:227-233 | and it does so for all points exactly for clearances up to the 20 m cell |
| TrackFeatures.PickInRange | game/src/track.cpp:318-334 | a weighted pick is an index or -1 |
| TrackChoices.PickedShare | game/src/track.cpp:318-333 | a weighted pick draws once and takes the index in whose share of the whole the draw lies, or nothing, without a draw, if nothing weighs |
| TrackChoices.WeightsSay | game/src/track.cpp:554-566 | off a long straight nothing tight weighs, and a hairpin weighs, two and a half times as much, only off a steep traverse |
| TrackFeatures.FeatureOk | game/src/track.cpp:342-464 | every feature of the menu, whatever is drawn, is a chain of well-made sections from the given pose with no single turn beyond 176 degrees |
| FeatureShapes.KindSays | game/src/track.cpp:344-465 | when each kind applies, by the heading and the angle drawn, and its shape then: its bends in number, direction, radius, angle and fall, and its links |
| FeatureShapes.DirectionSays | game/src/track.cpp:357-367 | a turn goes into the band; of two ways usually back to the fall line off a steep traverse, else usually the other way than the last |
| TrackGenerator.EnsuredTwice | game/src/track.cpp:258-261 | two requests for sections are one request for the further one |
| TrackInvariants.TurnStaysInBand | game/src/track.cpp:469-475 | an end that wraps into the band was reached inside it, not round the back |
| TrackInvariants.BandLimit | game/src/track.cpp:469-475 | that argument holds exactly for bands below 92 degrees |
| TrackInvariants.FallbackOk | game/src/track.cpp:579-594 | the fallback bend or straight stays in the band too |
| TrackInvariants.CommittedKeeps | game/src/track.cpp:501-545 | committing keeps joints, band, numbering, blending, the grid of all footprints and the clearance of checked features |
| TrackInvariants.AppendedKeeps | game/src/track.cpp:549-595 | appending a feature, checked or fallback, keeps all of it |
| TrackInvariants.RunDependsOnFurthest | game/src/track.cpp:258-270 | after any calls the whole generator (sections, grid, stream position, pacing) depends only on the furthest section ever asked for |
| TrackInvariants.OneRoad | game/src/track.cpp:237-270 | the sections of any run of calls are a prefix of one endless road fixed by stream and parameters, so peers agree on their common prefix |
| TrackInvariants.HeadingInBand | game/src/track.cpp:469-595 | the heading relative to the fall line is within the band at every point of every section, fallbacks included, in every reachable track |
| TrackInvariants.JointsMeet | game/src/track.cpp:274-315 | in every reachable track the curve of a section leads to the point where the curve of the next one begins, at the same height, heading and distance along the road |
| TrackInvariants.CheckedRoadIsClear | game/src/track.cpp:469-497 | in every reachable track each sample of a checked feature is at least the clearance from every sample of older features further back than the skip |
| TrackInvariants.CrowdedExactly | game/src/track.cpp:469-497 | the grid finds a section crowded exactly when one of its samples is too close to one of an older section |
| TrackInvariants.FeatureClearIff | game/src/track.cpp:549-595 | in every reachable track a feature, fallback or not, is clear of all older road exactly when none of its sections was crowded against the grid of what came before; checked features always are |
| TrackInvariants.FallbackClearIff | game/src/track.cpp:581-594 | a fallback section is clear exactly when the grid, asked before it is committed, would have let it pass |
| TrackInvariants.FallbacksConflict | game/src/track.cpp:581-594 | with no skip and any clearance up to a cell, every feature of every run but the first is an unchecked fallback that conflicts with the road before it |
| EndlessTrack.Track.constructor | game/src/track.cpp:223 | a track is a reset track |
| EndlessTrack.Track.Reset | game/src/track.cpp:237-255 | reset leaves the road of the new stream up to the forward buffer |
| EndlessTrack.Track.EnsureGenerated | game/src/track.cpp:258-261 | the loop appends features until the section exists, complete new state |
| EndlessTrack.Track.Update | game/src/track.cpp:265-270 | the same run with one more call, and the live window |
| EndlessTrack.Track.AppendFeature | game/src/track.cpp:549-595 | the attempt loop equals the recursive choice of the first feature that applies and fits, else the fallback |
| TrackChoices.ChooseSays | game/src/track.cpp:568-579 | from the draws alone: the first attempt that applies, stays in the band and keeps its distance is chosen; nothing is chosen exactly when every attempt made, until nothing weighs or the attempts are used up, is rejected |
| TrackChoices.AppendedSays | game/src/track.cpp:549-595 | so the next feature is that attempt, with its kind and its sections, or, exactly when there is none, the gentle bend or straight |
| TrackChoices.EveryFeature | game/src/track.cpp:549-595 | and so is every feature of every run after the start |
| TrackChoices.CommittedSays | game/src/track.cpp:501-545 | a commit records the sections as they are, numbered on, of one kind and one drawn style, with their runoffs, and the pacing the next pick needs |
| TrackChoices.AttemptShaped | game/src/track.cpp:344-465 | an attempt applies by the heading and its second draw, and then has the shape of its kind |
| TrackChoices.AttemptPaced | game/src/track.cpp:554-566 | no attempt is tight off a long straight, nor a hairpin off a gentle heading |
| TrackChoices.JustEnough | game/src/track.cpp:258-268 | a run generates the section asked for furthest ahead and no feature beyond its own |
| EndlessTrack.Track.Fits | game/src/track.cpp:469-497 | the nested loops decide exactly whether the candidate is in the band and clear |
| EndlessTrack.Track.NearConflict | game/src/track.cpp:483-494 | the three by three scan finds a conflict exactly when one of the nine cells has one |
| EndlessTrack.Track.Commit | game/src/track.cpp:501-545 | the in-place commit equals its specification, style draw and pacing included |
| EndlessTrack.Track.AddFootprint | game/src/track.cpp:529-536 | the footprint loop files every sample under its key |
| TrackGenerator.SamplesClose | game/src/track.cpp:532-539 | the samples begin and end with the section and are at most three metres apart |
| UnionFind.DisjointSets.Find | tools/convert_drifto_assets.py:829-834 | path halving ends, returns the root, and changes no root |
| UnionFind.DisjointSets.Link | tools/convert_drifto_assets.py:838 | linking a root keeps the forest acyclic and merges exactly two classes |
| UnionFind.DisjointSets.Join | tools/convert_drifto_assets.py:837-839 | a triangle merges the classes of its three corners |
| UnionFind.RootsSound | tools/convert_drifto_assets.py:836-839 | after all triangles equal roots mean a chain of triangles, and each triangle has one root |
| MeshParts.Components | tools/convert_drifto_assets.py:836-844 | the two loops compute the parts |
| MeshParts.SameRootIffChained | tools/convert_drifto_assets.py:829-842 | two triangles share a root exactly when triangles sharing rounded vertex positions chain them together |
| MeshParts.PartsAreComponents | tools/convert_drifto_assets.py:840-844 | the parts divide the triangles, each in exactly one, and two are together exactly when chained |
| CarWheels.FindPieces | tools/convert_drifto_assets.py:825-844 | the parts of all material groups in order |
| CarWheels.FindOwner | tools/convert_drifto_assets.py:878-892 | the first wheel that holds every vertex of a part |
| WheelSplit.CylinderMeans | tools/convert_drifto_assets.py:878-892 | inside a cylinder means along its axle within the width and across it within the radius, two centimetres to spare |
| CarWheels.SplitBakedWheels | tools/convert_drifto_assets.py:888-910 | the loop over parts with its models updated in place equals the specified cut |
| PartsHome.PartsMoveWhole | tools/convert_drifto_assets.py:878-910 | each wheel of the split shows exactly the faces of the triangles whose whole connected part its cylinder is the first to hold, and the body exactly those that no cylinder holds |
| CarWheels.SplitConserves | tools/convert_drifto_assets.py:888-910 | body and wheels together show each triangle of the car exactly once with the same resolved vertices and material, paint flags aside |
| CarWheels.CompactedSplitConserves | tools/convert_drifto_assets.py:398-407 | also after body and wheels are compacted |
| CarWheels.PaintStaysOnTheBody | tools/convert_drifto_assets.py:891-909 | no wheel is ever paint and every body triangle keeps its material and vertices |
| CarWheels.SplitGathers | tools/convert_drifto_assets.py:891-909 | body and wheels have one group a material |
| Meshes.RemapShows | tools/convert_drifto_assets.py:899-909 | renumbering onto picked vertices shows the same triangle |
| Meshes.Round4Nearest | tools/convert_drifto_assets.py:835 | positions are welded, and materials told apart, to the nearest ten-thousandth, of two the even one |
| Meshes.CompactShowsTheSame | tools/convert_drifto_assets.py:398-407 | compaction shows the same faces in the same order |
| Meshes.CompactLeavesNoneOver | tools/convert_drifto_assets.py:398-407 | and leaves no vertex unused |
| Meshes.CompactTwice | tools/convert_drifto_assets.py:398-407 | so compacting twice is compacting once |
| MeshFiles.Model.Compact | tools/convert_drifto_assets.py:398-407 | the in-place compaction equals its specification |
| MeshFiles.Model.Write | tools/convert_drifto_assets.py:409-430 | the index list and submeshes written for the compacted model |
| MeshFiles.WrittenReadsBack | tools/convert_drifto_assets.py:409-430 | every submesh decodes to the triangles of one non-empty group, each group once, ranks never falling, and the submeshes tile the whole index list |
| MeshFiles.DrawnInOrder | tools/convert_drifto_assets.py:411-424 | every group with triangles is written once: outlined ones first, see-through ones last, and of a sort in the order they came |
| PngFilters.RowInverts | tools/convert_drifto_assets.py:1063-1094 | for every filter, undoing inverts filtering by section 6 of RFC 2083 and filtering inverts undoing |
| PngFilters.RowSays | tools/convert_drifto_assets.py:1063-1094 | each undone byte is what was there plus the standard's prediction from its neighbours, the nearest one for the fourth filter |
| PngFilters.ReadersInvert | tools/convert_drifto_assets.py:1063-1133 | both readers invert the standard's filters on whole images, any filter per row |
| PngFilters.ReadersAgree | tools/convert_drifto_assets.py:1063-1133 | both readers agree on every image of types 0 to 4 |
| PngFilters.TypesReadAlike | tools/convert_drifto_assets.py:1074-1130 | a row's type byte is read alike whatever the row holds exactly when it is at most 4 |
| PngReaders.UndoPlain | tools/convert_drifto_assets.py:1071-1091 | the byte loops of the plain reader equal the recursive row |
| PngReaders.LaneSumMeans | tools/convert_drifto_assets.py:1109-1111 | the running sum of a lane cut to a byte once equals cutting at every byte |
| PngReaders.UndoVectorised | tools/convert_drifto_assets.py:1105-1130 | each vectorised branch equals the recursive row |
| PngReaders.AveragePixels | tools/convert_drifto_assets.py:1116-1119 | averaging a pixel at a time equals averaging byte by byte |
| PngReaders.UnfilterPlain | tools/convert_drifto_assets.py:1063-1094 | the whole plain reader on data of any length: the loops fail on a missing type byte or a row cut short, or leave the last row short, as its filter has it |
| PngReaders.PlainRowsDecode | tools/convert_drifto_assets.py:1063-1094 | with all the data there that is the decoded image |
| PngReaders.PlainRowsShort | tools/convert_drifto_assets.py:1063-1094 | anything more than one row short fails, and anything shorter at all gives that many bytes fewer |
| PngReaders.UnfilterVectorised | tools/convert_drifto_assets.py:1097-1133 | the whole vectorised reader, refusing any other buffer size |
| PngFiles.Write | tools/convert_drifto_assets.py:1136-1151 | the complete file written, or none for channel counts or sizes it cannot hold |
| PngFiles.ParseChunks | tools/convert_drifto_assets.py:1035-1048 | the chunk loop equals the recursive parse |
| PngFiles.ReadPng | tools/convert_drifto_assets.py:1023-1061 | the complete reader with its error cases, short data and palette indices beyond the palette included |
| PngFiles.WrittenParses | tools/convert_drifto_assets.py:1023-1151 | a written file parses back to its header and data |
| PngFiles.ReadOfWrite | tools/convert_drifto_assets.py:1023-1151 | reading a written file gives the same size, channels and pixels by either reader, for zlib as an inverse pair |
| PngChunks.FileParses | tools/convert_drifto_assets.py:1035-1048 | of any chunks the last header, the last palette and all the data in order count; other kinds are passed over and what follows the end is ignored |
| PngChunks.AnyFileReads | tools/convert_drifto_assets.py:1023-1061 | a file of 8-bit channels without interlacing reads as its pixels by either reader, whatever filters its rows take, however its data is split and whatever chunks lie between |
| PngChunks.AnyPalettedFileReads | tools/convert_drifto_assets.py:1023-1061 | and a paletted one as its colours looked up |
| PngChunks.OthersRefused | tools/convert_drifto_assets.py:1049-1051 | any other depth, interlacing or colour type is refused, and data that does not decompress |
| PngFiles.PaletteLooksUp | tools/convert_drifto_assets.py:1052-1058 | pixel i of a paletted image takes the three bytes of its entry |
| PngFiles.PalettedRead | tools/convert_drifto_assets.py:1052-1058 | with a palette for all indices the pixels painted slice by slice are the looked up ones |
| BitReversal.RevInvolutive | audio/demo/audio_demo.cpp:74-83 | bit reversal undoes itself |
| BitReversal.CarryStep | audio/demo/audio_demo.cpp:79-81 | one pass of the carry loop either sets the bit and is done or clears it and goes on with one bit less |
| BitReversal.Advance | audio/demo/audio_demo.cpp:79-81 | the carry loop steps from the reversal of i - 1 to the reversal of i |
| BitReversal.Reorder | audio/demo/audio_demo.cpp:76-83 | the swap loop applies exactly the bit-reversal permutation |
| FastFourier.SplitSum | audio/demo/audio_demo.cpp:84-99 | a sum over roots splits into its even and odd halves |
| FastFourier.SumPeriodic | audio/demo/audio_demo.cpp:84-99 | coefficients repeat after a full turn |
| FastFourier.Butterfly | audio/demo/audio_demo.cpp:92-97 | one butterfly turns two points of a stage into two points of the next |
| FastFourier.Butterflies | audio/demo/audio_demo.cpp:89-98 | the inner loop with its running twiddle factor |
| FastFourier.Stage | audio/demo/audio_demo.cpp:84-99 | one stage over all blocks |
| FastFourier.Fft | audio/demo/audio_demo.cpp:74-100 | for every power-of-two length and every input the array ends as the discrete Fourier transform of what it held |
| AuthRecords.BytesToHex | auth.c:59-69 | the hex text of a byte string |
| AuthRecords.HexToBytes | auth.c:72-84 | decoding exactly so many bytes, each as "%2x" reads it: blanks, a sign and single digits included |
| AuthRecords.HexReadsBack | auth.c:59-84 | hex decodes to the bytes it was made from |
| AuthRecords.LineReadsBack | auth.c:181-196 | a record with a good name reads back from its line as it was |
| AuthRecords.ParsedNameGood | auth.c:110-149 | whatever a line holds, a record read from it is well formed |
| AuthStore.CredentialStore.LoadFromFile | auth.c:110-149 | the loading loop equals the recursive load, with its buffer size and table limit |
| AuthStore.FileHolds | auth.c:110-149 | a file of lines shorter than the buffer loads as the first 256 records among its lines, in order, other lines passed over |
| AuthStore.CredentialStore.Init | auth.c:153-176 | a restart reads the table anew |
| AuthStore.CredentialStore.FindEntry | auth.c:87-95 | the first entry of the name whatever its case |
| AuthStore.CaseIgnored | auth.c:87-95 | two names are the same exactly when they differ in the case of letters at most |
| AuthStore.CredentialStore.AppendEntry | auth.c:181-196 | the file grows by the printed record or not at all |
| AuthStore.CredentialStore.Authenticate | auth.c:208-268 | the complete new store and answer of a login |
| AuthStore.LoginSays | auth.c:208-268 | every case of a login: a known name is judged by its first entry and changes nothing; a stranger is registered under the salt drawn and 100000 rounds exactly when there is room, a salt, a hash and a file to write to |
| AuthStore.PasswordStays | auth.c:208-268 | whoever registers a good name is let in ever after, through logins and restarts and in any case, by exactly the passwords of the same hash |
| AuthStore.AppendedLoads | auth.c:110-149 | appending a record to any file of whole lines appends it to what is loaded |
| AuthStore.LoadedGood | auth.c:110-149 | any file loads to at most 256 well-formed accounts |
| AuthStore.EmptyStoreOk | auth.c:153-176 | a service that starts on no file meets what every run keeps |
| AuthStore.RunKeeps | auth.c:208-268 | over every run of logins with good names: names stay unique ignoring case, table and file only grow, at most 256 accounts, and the file always parses back to exactly the table |
| AuthStore.RestartsChangeNothing | auth.c:153-268 | restarts anywhere in a run change neither table nor file nor any answer |
| AuthStore.RegistrationLasts | auth.c:208-268 | a new account is found again and survives a restart exactly when its name has 1 to 32 characters, no colon and no line end |
| AuthStore.KnownNameAnswers | auth.c:246-263 | on every later login of a known name, in any case, the answer is OK exactly when the password hashes to the stored hash, and nothing is registered |
| Mixer.BlockWithinCeiling | audio/src/audio_engine.cpp:533-556 | whatever a block holds, gain and limiter stay within 0..1, every sample leaves within 0.89, and the soft clip passes it unchanged |
| Mixer.NothingAboveCeiling | audio/src/audio_engine.cpp:523-556 | over every run of volume and mute calls and callbacks no sample heard exceeds 0.89 |
| Mixer.LevelSays | audio/src/audio_engine.cpp:532-537 | each block of n frames takes the master level closer to its target by the factor exp(-n / 0.05 fs) |
| Mixer.LimiterSays | audio/src/audio_engine.cpp:533-542 | the limiter is at once where the loudest sample needs it, and else lets go, or closes in, by exp(-n / 0.15 fs) |
| Mixer.BlockSays | audio/src/audio_engine.cpp:543-552 | each frame leaves as it was times the gain on the straight way between the levels and the limiter's |
| Mixer.QuietMixPlain | audio/src/audio_engine.cpp:533-556 | a mix below the ceiling at a settled level with the limiter released leaves as it was times the level, and nothing changes |
| Mixer.NotAboveLevel | audio/src/audio_engine.cpp:533-556 | nothing is heard louder than the mix under the higher of level and target |
| Mixer.LevelSettles | audio/src/audio_engine.cpp:523-556 | over any callbacks between two volume calls the level closes in on its target by the decay of all their frames, so a muted engine falls silent |
| Mixer.OutputStage.SetMasterVolume | audio/src/audio_engine.cpp:698-702 | volumes are cut to 0..1 |
| Mixer.OutputStage.Render | audio/src/audio_engine.cpp:523-556 | the in-place loop over blocks of 64 frames equals its specification |
| Mixer.OutputStage.FinishBlock | audio/src/audio_engine.cpp:533-556 | one block: peak, eased gain, limiter, ramp and soft clip, complete new state |
| VoicePool.Pool.AssignVoices | audio/src/audio_engine.cpp:348-412 | the in-place assignment equals its specification |
| VoicePool.Pool.FindFarthest | audio/src/audio_engine.cpp:387-398 | the most distant voice that is not a local car's |
| VoicePool.FarthestExists | audio/src/audio_engine.cpp:387-398 | there is one exactly when some voice is not a local car's, and none is farther |
| VoicePool.RefreshedSays | audio/src/audio_engine.cpp:348-369 | a voice takes in its car's news and loudness, fades out when the car is gone or silent for over a second, and is freed once faded |
| VoicePool.AssignedSays | audio/src/audio_engine.cpp:371-412 | every voice after a callback is one that goes on or a new one that begins from silence as its car is heard |
| VoicePool.PlacedAllHolds | audio/src/audio_engine.cpp:371-412 | placing cars keeps the cars of voices distinct and leaves none without a voice while a slot is free, whatever the voices are marked |
| VoicePool.OneLocalServes | audio/src/audio_engine.cpp:371-412 | with at most one local car everybody is served |
| VoicePool.CallbackServes | audio/src/audio_engine.cpp:348-412 | after a callback voices in use have distinct cars and a car lacks a voice only if all are in use; and a local car only if all are local cars', if at most one car is local or no voice stands at its car's update count marked otherwise |
| VoicePool.UnservedExactly | audio/src/audio_engine.cpp:366-412 | a car goes unserved exactly when it is local, its surviving voice was as far on as it is and marked a rival's, a later local car without a voice found no slot free and that voice the farthest, and a voice not marked local is left at the end |
| VoicePool.RunServes | audio/src/audio_engine.cpp:348-412 | over every run, whatever cars come, go and return: voices in use have distinct cars, a car lacks a voice only if all are in use, and whenever at most one car is local it lacks one only if all are local cars' |
| VoicePool.EngineServes | audio/src/audio_engine.cpp:348-412 | the same right after every callback of every run of updates, removals and callbacks; with more than one local car if no removed car came back |
| VoicePool.ReturnedCarLosesVoice | audio/src/audio_engine.cpp:366-398 | with two local cars, one of them back at its voice's update count, the pool leaves the returned one without a voice while rivals keep theirs |
| WireFormat.PackOfUnpack | net/src/net_common.cpp:90-111 | packing an unpacked input gives the same wire word exactly when its steer byte is not -128 and it has no flag beyond the third |
| WireFormat.InputSettles | net/src/net_common.cpp:90-111 | a second trip over the wire changes nothing |
| WireFormat.InputError | net/src/net_common.cpp:90-111 | steering is off by at most 1/254, pedals by at most 1/510, and tick and buttons arrive exactly |
| WireFormat.KeyboardExact | net/src/net_common.cpp:90-111 | full-lock keyboard inputs arrive exactly as they were |
| WireFormat.Q16Error | net/src/net_common.cpp:73-80 | half a step is the most a scaled short loses, exactly up to half a step beyond its largest value |
| WireFormat.CarError | net/src/net_common.cpp:117-172 | velocities are off by at most 5 mm/s exactly within 327.675 m/s, turning speeds by at most 0.0005 rad/s exactly within 32.7675 rad/s, the gauge by at most 1/510, and the other fields arrive exactly |
| WireFormat.CarSettles | net/src/net_common.cpp:117-172 | apart from the rotation, a second trip changes nothing |
| WireFormat.OppositesPackAlike | net/src/net_common.cpp:124-132 | q and -q pack alike exactly when w is not 0 or the quaternion vanishes |
| WireFormat.QuatError | net/src/net_common.cpp:124-132 | each packed component is within half a step of the unit rotation with w >= 0 |

## Left out

- Suspension, forces, collisions, slipstream and road queries: the step is abstract.
- Floating-point rounding, infinities and NaN (only NaN's replacement by 0 in the wire code would matter), and wrap-around of tick counters, car counts and stages, which stay far below their widths in a match.
- Visual offsets, remote-car smoothing, dead reckoning, the event feed, contacts and statistics other than those of the input queues: presentation.
- Bots, grid order and spawn poses: the session takes the spawn as given.
- The middleware around the input packets; their oldest-first layout is assumed as documented at net/include/net_client.h:239-240.
- InputPipeline.EveryPlayersTicks: assumes that at most 8192 inputs wait between two host ticks; what an overflow takes from whom is stated by AcceptProjects.
- Lockstep.CorrectionsExact: covers a host and one client without remote cars, as contacts with predicted proxies do cause corrections, and a car that stays in the race; a phase announced to the client is the host's current one, and the last snapshot, which ends the match, is not modelled.
- Sessions.PredictingSession.Tick: reduces a host's own tick to the phase it leaves; what a host tick does to race, cars and phases is in HostSessions.
- HostRuns.HostRunKeeps: does not follow a match past a migration that brought back somebody outside the race.
- HostRuns.HostReplaceable: assumes at least two at the start; the source does not time a race of one.
- HostMigration.MigratesAgain: distances are those of the snapshot, exactly; the wire's rounding of them is not modelled.
- TrackInvariants.FeatureClearIff: speaks of the samples of the centreline, three metres apart; points between samples are not covered.
- The generator's counters of features, rerolls and fallbacks, the road's mesh, edges and styles beyond their blending.
- Finding the tyres of a car and their axles from the mesh (atan2, sums over vertices): the four cylinders are given. `Model.add` and the binary record layout of a mesh file.
- Parallel vertex lists are one list of vertices, and a flat index list a list of triples.
- A Fourier transform of length 0 or of a length that is not a power of two, and the other measurements of the demo.
- AuthRecords.HexToBytes: follows section 7.21.6.2 of ISO/IEC 9899:2011, by which 0x without a digit after it does not match; a C library that reads it as 0 is not modelled, nor are embedded NUL characters.
- AuthStore.CredentialStore.Authenticate: one login at a time, under the lock the source holds; a file that cannot be read at start, partial writes and permissions are not modelled.
- Mixer.OutputStage.Render: takes the mix as given; synthesis, panning, one-shot sounds and the load meter have no stated contract.
- VoicePool.RunServes: with more than one local car only the number of voices and their cars are promised over all runs; who is served then is settled callback by callback in UnservedExactly.
- WireFormat.CarSettles: leaves the rotation out, which is normalised again when unpacked.
- The legacy server and client, the Unity parsers, rendering and menus.
