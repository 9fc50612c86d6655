/** The elimination race as the object the host keeps: every method against RaceRules. */
module EliminationRace {
  import opened Basics
  import opened RaceRules
  import opened Snapshots
  import opened Sorting

  class EliminationRace {
    const p: RaceParams
    var racers: seq<Racer>
    var started: bool
    var finished: bool
    var timer: real
    var stage: nat
    var lastPlaceId: int
    var winnerId: int
    var eliminatedCount: nat

    ghost predicate Valid()
      reads this
    {
      ById(racers) && |p.stageTimes| == 6
    }

    ghost function State(): Race
      reads this
    {
      Race(racers, started, finished, timer, stage, lastPlaceId, winnerId, eliminatedCount)
    }

    constructor (p: RaceParams)
      requires |p.stageTimes| == 6
      ensures Valid() && this.p == p && State() == Race([], false, false, 0.0, 0, 0, 0, 0)
    {
      this.p := p;
      racers, started, finished, timer, stage, lastPlaceId, winnerId, eliminatedCount := [], false, false, 0.0, 0, 0, 0, 0;
    }

    method Find(id: int) returns (i: nat)
      ensures i == IndexOf(racers, id)
    {
      i := 0;
      while i < |racers| && racers[i].id != id
        invariant i <= |racers| && IndexOf(racers, id) == i + IndexOf(racers[i..], id)
      {
        i := i + 1;
      }
    }

    method RacingCount() returns (n: nat)
      ensures n == LiveCount(racers)
    {
      n := 0;
      for i := 0 to |racers|
        invariant n == |LiveIndices(racers, i)|
      {
        n := n + if racers[i].Live() then 1 else 0;
      }
    }

    method FindCurrentLast() returns (id: int)
      ensures id == CurrentLast(racers)
    {
      var worst: nat := 0;
      id := 0;
      for i := 0 to |racers|
        invariant (worst, id) == WorstPlace(racers, i)
      {
        if racers[i].Live() && racers[i].place > worst {
          worst, id := racers[i].place, racers[i].id;
        }
      }
    }

    // Clear the places and collect the racers still in.
    method CollectLive() returns (live: seq<int>)
      modifies this`racers
      ensures live == LiveIndices(old(racers), |old(racers)|) && |racers| == |old(racers)|
      ensures forall j | 0 <= j < |racers| :: racers[j] == old(racers)[j].(place := 0)
    {
      ghost var was := racers;
      live := [];
      for i := 0 to |racers|
        invariant |racers| == |was| && live == LiveIndices(was, i)
        invariant forall j | 0 <= j < |was| :: racers[j] == if j < i then was[j].(place := 0) else was[j]
      {
        racers := racers[i := racers[i].(place := 0)];
        if racers[i].Live() {
          live := live + [i];
        }
      }
    }

    method AssignPlaces(live: seq<int>)
      requires Distinct(live) && forall k | 0 <= k < |live| :: 0 <= live[k] < |racers|
      modifies this`racers
      ensures |racers| == |old(racers)|
      ensures forall k | 0 <= k < |live| :: racers[live[k]] == old(racers)[live[k]].(place := k + 1)
      ensures forall j | 0 <= j < |racers| && j !in live :: racers[j] == old(racers)[j]
    {
      ghost var was := racers;
      for i := 0 to |live|
        invariant |racers| == |was|
        invariant forall k | 0 <= k < |live| :: racers[live[k]] == if k < i then was[live[k]].(place := k + 1) else was[live[k]]
        invariant forall j | 0 <= j < |was| && j !in live :: racers[j] == was[j]
      {
        racers := racers[live[i] := racers[live[i]].(place := i + 1)];
      }
    }

    method AssignMultipliers(live: seq<int>)
      requires Distinct(live) && live != [] && forall k | 0 <= k < |live| :: 0 <= live[k] < |racers|
      modifies this`racers
      ensures |racers| == |old(racers)|
      ensures forall k | 0 <= k < |live| ::
                racers[live[k]] == old(racers)[live[k]].(multiplier := MultiplierAt(old(racers), live, k, p))
      ensures forall j | 0 <= j < |racers| && j !in live :: racers[j] == old(racers)[j]
    {
      ghost var was := racers;
      var leader, last := racers[live[0]].distance, racers[live[|live| - 1]].distance;
      for i := 0 to |live|
        invariant |racers| == |was|
        invariant forall k | 0 <= k < |live| ::
                    racers[live[k]] == if k < i then was[live[k]].(multiplier := MultiplierAt(was, live, k, p)) else was[live[k]]
        invariant forall j | 0 <= j < |was| && j !in live :: racers[j] == was[j]
      {
        var r := racers[live[i]];
        var m := if |live| == 1 then 1.0
        else if i == 0 then p.rechargeLeader
        else if i + 1 == |live| then p.rechargeLast
        else RechargeMultiplier(r.distance, leader, last, p);
        racers := racers[live[i] := r.(multiplier := m)];
      }
    }

    // Sort the live racers, then hand out places and multipliers.
    method Rank()
      requires Valid()
      modifies this`racers
      ensures Valid() && racers == Ranked(old(racers), p)
    {
      var was := racers;
      var live := CollectLive();
      live := SortBy(live, BetterPlaced(was));
      LiveOrderMembers(was);
      LiveOrderSorted(was);
      AssignPlaces(live);
      if live != [] {
        AssignMultipliers(live);
      }
      RankedByOrder(was, racers, p);
    }

    method Start(ids: seq<int>)
      requires |p.stageTimes| == 6 && ById(Grid(ids))
      modifies this
      ensures Valid() && State() == RaceRules.Start(ids, p)
    {
      hide Ranked, SortBy, ById;
      var grid: seq<Racer> := [];
      for i := 0 to |ids|
        invariant grid == seq(i, k requires 0 <= k < i => Racer(ids[k], 0.0, 0, 0, 1.0))
      {
        grid := grid + [Racer(ids[i], 0.0, 0, 0, 1.0)];
      }
      assert grid == seq(|ids|, k requires 0 <= k < |ids| => Racer(ids[k], 0.0, 0, 0, 1.0));
      racers := SortBy(grid, ID_ORDER);
      started, finished := true, false;
      stage, timer := 0, p.StageTime(0);
      lastPlaceId, winnerId, eliminatedCount := 0, 0, 0;
      Rank();
    }

    method Restore(snap: Snapshot)
      requires |p.stageTimes| == 6 && ById(SortBy(FromCars(snap.cars), ID_ORDER))
      modifies this
      ensures Valid() && State() == RaceRules.Restore(snap, p)
    {
      hide Ranked, SortBy, FromCars, MaxOrder, ById;
      TakeCars(snap.cars);
      racers := SortBy(racers, ID_ORDER);
      started := snap.phase.Racing? || snap.phase.Results?;
      timer, stage := snap.eliminationTimer, snap.eliminationStage;
      lastPlaceId, winnerId := snap.lastPlacePlayerId, snap.winnerPlayerId;
      finished := winnerId != 0;
      Rank();
    }

    method TakeCars(cars: seq<CarRecord>)
      modifies this`racers, this`eliminatedCount
      ensures racers == FromCars(cars) && eliminatedCount == MaxOrder(cars)
    {
      racers, eliminatedCount := [], 0;
      for i := 0 to |cars|
        invariant racers == FromCars(cars[..i]) && eliminatedCount == MaxOrder(cars[..i])
      {
        assert cars[..i + 1][..i] == cars[..i];
        eliminatedCount := MaxNat(eliminatedCount, cars[i].eliminatedOrder);
        racers := racers + [Racer(cars[i].playerId, cars[i].distance, cars[i].eliminatedOrder, 0, 1.0)];
      }
      assert cars[..|cars|] == cars;
    }

    method Eliminate(id: int) returns (events: seq<Event>)
      requires Valid()
      modifies this
      ensures Valid() && (State(), events) == RaceRules.Eliminate(old(State()), id, p)
    {
      hide Ranked, LiveCount, CurrentLast;
      ghost var r := State();
      var i := Find(id);
      if i == |racers| || racers[i].eliminatedOrder != 0 {
        assert State() == r;
        return [];
      }
      eliminatedCount := eliminatedCount + 1;
      racers := racers[i := racers[i].(eliminatedOrder := eliminatedCount)];
      stage := 0;
      timer := p.StageTime(0);
      events := [Event(Eliminated, id, stage)];
      Rank();
      lastPlaceId := FindCurrentLast();
      var left := RacingCount();
      if left == 1 {
        winnerId := lastPlaceId;
        finished := true;
        events := events + [Event(Winner, winnerId, stage)];
        assert events == [Event(Eliminated, id, 0), Event(Winner, winnerId, 0)];
      }
    }

    method RemovePlayer(id: int) returns (events: seq<Event>)
      requires Valid()
      modifies this
      ensures ById(old(racers)) && (State(), events) == RaceRules.Remove(old(State()), id, p)
      ensures Valid()
    {
      if started && !finished {
        events := Eliminate(id);
      } else {
        racers, events := Dropped(racers, id), [];
      }
    }

    // Whoever is placed first, else the winner so far.
    method FindLeader() returns (id: int)
      ensures id == Leader(racers, |racers|, winnerId)
    {
      id := winnerId;
      for i := 0 to |racers|
        invariant id == Leader(racers, i, winnerId)
      {
        if racers[i].place == 1 {
          id := racers[i].id;
        }
      }
    }

    method FinishByLeader()
      requires Valid()
      modifies this
      ensures Valid() && State() == RaceRules.FinishByLeader(old(State()), p)
    {
      if finished || !started {
        return;
      }
      Rank();
      winnerId := FindLeader();
      finished := true;
    }

    method Update(progress: seq<Progress>, dt: real) returns (events: seq<Event>)
      requires Valid()
      modifies this
      ensures Valid() && (State(), events) == RaceRules.Update(old(State()), progress, dt, p)
    {
      if !started || finished {
        return [];
      }
      AcceptProgress(progress);
      Rank();
      if |racers| < 2 {
        return [];
      }
      events := TickClock(dt);
      if timer <= 0.0 {
        var more := Eliminate(lastPlaceId);
        events := events + more;
      }
    }

    // Last place changing hands, with hysteresis, then the clock itself.
    method TickClock(dt: real) returns (events: seq<Event>)
      requires Valid()
      modifies this
      ensures Valid() && (State(), events) == RaceRules.TickClock(old(State()), dt, p)
    {
      events := [];
      var candidate := FindCurrentLast();
      var cur := Find(lastPlaceId);
      if cur == |racers| || racers[cur].eliminatedOrder != 0 {
        lastPlaceId := candidate;
      } else if candidate != lastPlaceId {
        var c := Find(candidate);
        if c < |racers| && racers[cur].distance > racers[c].distance + p.overtakeMargin {
          stage := Min(stage + 1, 5);
          timer := p.StageTime(stage);
          lastPlaceId := candidate;
          events := [Event(LastPlaceChanged, candidate, stage)];
        }
      }
      timer := timer - dt;
    }

    method AcceptProgress(progress: seq<Progress>)
      requires Valid()
      modifies this`racers
      ensures Valid() && racers == ApplyProgress(old(racers), progress)
    {
      ghost var was := racers;
      for k := 0 to |progress|
        invariant ApplyProgress(was, progress) == ApplyProgress(racers, progress[k..])
      {
        var i := Find(progress[k].playerId);
        if i < |racers| {
          racers := racers[i := racers[i].(distance := progress[k].distance)];
        }
        assert progress[k..][1..] == progress[k + 1..];
      }
      assert progress[|progress|..] == [];
    }
  }
}
