/** What the host publishes about the race. */
module Snapshots {

  datatype MatchPhase = Lobby | Countdown | Racing | Results

  // The race's part of a car record; eliminated stands for the kCarEliminated flag.
  datatype CarRecord = CarRecord(playerId: int, distance: real, eliminatedOrder: nat, place: nat, eliminated: bool)

  datatype Snapshot = Snapshot(
    phase: MatchPhase,
    eliminationTimer: real,
    eliminationStage: nat,
    lastPlacePlayerId: int,
    winnerPlayerId: int,
    cars: seq<CarRecord>)
}
