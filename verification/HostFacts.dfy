/** What a host's ticks and departures do, told car by car and tick by tick. */
module HostFacts {
  import opened HostMigration
  import opened HostRuns
  import opened MatchPhases
  import opened RaceRules
  import opened RaceRuns
  import opened Snapshots
  import opened Sorting

  // ---- the clock ------------------------------------------------------------------------

  function Ticks(events: seq<HostRuns.Event>): nat {
    if events == [] then 0 else Ticks(events[..|events| - 1]) + if events[|events| - 1].HostTick? then 1 else 0
  }

  // Whether the race is decided when a tick comes to turn the phase.
  ghost predicate DecidedBy(h: Host, moved: int -> real, c: Config, p: RaceParams)
    requires CarsById(h.cars) && ById(h.race.racers) && |p.stageTimes| == 6
  {
    if h.clock.phase == Racing then Update(h.race, HostProgress(h.race, Moved(h.race, h.cars, Racing, moved)), c.dt, p).0.finished
    else h.race.finished
  }

  // finished tells of every tick of the run whether it finds the race decided.
  ghost predicate Tells(finished: nat -> bool, h: Host, events: seq<HostRuns.Event>, c: Config, p: RaceParams)
    requires CarsById(h.cars) && ById(h.race.racers) && |p.stageTimes| == 6
  {
    forall k | 0 <= k < |events| && events[k].HostTick? ::
      finished(Ticks(events[..k]) + 1) == DecidedBy(HostRun(h, events[..k], c, p), events[k].moved, c, p)
  }

  // Clocks that turn alike: of one phase, with the same time left or none.
  ghost predicate TurnAlike(a: Clock, b: Clock) {
    a.phase == b.phase && a.active == b.active && (a.timer == b.timer || (a.timer <= 0.0 && b.timer <= 0.0))
  }

  // The host's clock is the phase machine's, tick for tick, whoever leaves and whoever is
  // host in between.
  lemma {:induction false} ClockRuns(h: Host, events: seq<HostRuns.Event>, finished: nat -> bool, c: Config, p: RaceParams)
    requires |p.stageTimes| == 6 && c.dt > 0.0 && Begins(h, c) && ById(h.race.racers) && Tells(finished, h, events, c, p)
    ensures TurnAlike(HostRun(h, events, c, p).clock, MatchPhases.After(c, finished, Ticks(events)))
  {
    hide HostRun, HostAfter, DecidedBy, PhaseTick, Tells, Ticks;
    RunSplits(h, events, c, p);
    if events != [] {
      var n := |events| - 1;
      TellsSplit(finished, h, events, c, p);
      ClockRuns(h, events[..n], finished, c, p);
      var before := HostRun(h, events[..n], c, p);
      OneEvent(before, events[n], c, p);
      if events[n].HostTick? {
        TicksAlike(before.clock, MatchPhases.After(c, finished, Ticks(events[..n])), finished(Ticks(events)), c);
      }
    }
  }

  lemma TicksAlike(a: Clock, b: Clock, finished: bool, c: Config)
    requires c.dt > 0.0 && TurnAlike(a, b)
    ensures TurnAlike(PhaseTick(a, finished, c), PhaseTick(b, finished, c))
  {
  }

  lemma RunSplits(h: Host, events: seq<HostRuns.Event>, c: Config, p: RaceParams)
    requires CarsById(h.cars) && ById(h.race.racers) && |p.stageTimes| == 6
    ensures var n := |events| - 1;
            if events == [] then HostRun(h, events, c, p) == h && Ticks(events) == 0
            else && HostRun(h, events, c, p) == HostAfter(HostRun(h, events[..n], c, p), events[n], c, p)
                 && Ticks(events) == Ticks(events[..n]) + if events[n].HostTick? then 1 else 0
  {
    hide HostAfter;
  }

  lemma TellsSplit(finished: nat -> bool, h: Host, events: seq<HostRuns.Event>, c: Config, p: RaceParams)
    requires CarsById(h.cars) && ById(h.race.racers) && |p.stageTimes| == 6 && events != [] && Tells(finished, h, events, c, p)
    ensures var n := |events| - 1;
            && Tells(finished, h, events[..n], c, p)
            && (events[n].HostTick? ==> finished(Ticks(events[..n]) + 1) == DecidedBy(HostRun(h, events[..n], c, p), events[n].moved, c, p))
  {
    hide DecidedBy, HostRun, Ticks;
    var n := |events| - 1;
    forall k | 0 <= k < n && events[..n][k].HostTick?
      ensures finished(Ticks(events[..n][..k]) + 1) == DecidedBy(HostRun(h, events[..n][..k], c, p), events[..n][k].moved, c, p)
    {
      assert events[..n][..k] == events[..k] && events[k].HostTick?;
    }
  }

  lemma OneEvent(h: Host, e: HostRuns.Event, c: Config, p: RaceParams)
    requires CarsById(h.cars) && ById(h.race.racers) && |p.stageTimes| == 6
    ensures e.HostTick? ==> HostAfter(h, e, c, p).clock == PhaseTick(h.clock, DecidedBy(h, e.moved, c, p), c)
    ensures !e.HostTick? ==> TurnAlike(HostAfter(h, e, c, p).clock, h.clock)
  {
    hide HostTicked, PlayerLeft, DecidedBy, PhaseTick, Restored, RestoredWaiting, CarsTaken;
    match e
    case HostTick(moved) => TickTurns(h, moved, c, p);
    case Departure(id) => LeavingTurnsNothing(h, id, p);
    case Migration =>
  }

  lemma TickTurns(h: Host, moved: int -> real, c: Config, p: RaceParams)
    requires CarsById(h.cars) && ById(h.race.racers) && |p.stageTimes| == 6
    ensures HostTicked(h, moved, c, p).clock == PhaseTick(h.clock, DecidedBy(h, moved, c, p), c)
  {
    hide Update, FinishByLeader, Start, HostProgress, Moved, Grid, Starters;
    if h.clock.active {
      var cars := Moved(h.race, h.cars, h.clock.phase, moved);
      MovedSame(h.race, h.cars, h.clock.phase, moved);
      StartersDistinct(cars);
      GridById(Starters(cars));
    }
  }

  lemma LeavingTurnsNothing(h: Host, id: int, p: RaceParams)
    requires CarsById(h.cars) && ById(h.race.racers) && |p.stageTimes| == 6
    ensures PlayerLeft(h, id, p).clock == h.clock
  {
    hide Remove, CarIndex;
  }

  // So over every run of a match, whoever leaves and whoever is host, its phases last as long
  // as they should: r is how long the race takes.
  lemma HostPhases(h: Host, events: seq<HostRuns.Event>, finished: nat -> bool, r: nat, c: Config, p: RaceParams)
    requires |p.stageTimes| == 6 && c.dt > 0.0 && Begins(h, c) && ById(h.race.racers) && Tells(finished, h, events, c, p)
    requires RaceLasts(finished, TicksFor(c.countdownSeconds, c), TicksFor(c.raceSeconds, c), r)
    ensures var clock := HostRun(h, events, c, p).clock;
            && clock.phase == PhaseAt(TicksFor(c.countdownSeconds, c), r, TicksFor(c.resultsSeconds, c), Ticks(events))
            && (clock.active <==> clock.phase != Lobby)
  {
    hide HostRun, MatchPhases.After, Tells;
    ClockRuns(h, events, finished, c, p);
    PhasesLast(c, finished, r, Ticks(events));
  }

  // ---- the cars ---------------------------------------------------------------------------

  ghost predicate IsOut(r: Race, id: int) {
    exists i :: 0 <= i < |r.racers| && r.racers[i].id == id && !r.racers[i].Live()
  }

  ghost predicate IsIn(r: Race, id: int) {
    exists i :: 0 <= i < |r.racers| && r.racers[i].id == id && r.racers[i].Live()
  }

  lemma OutIs(r: Race, id: int)
    requires ById(r.racers)
    ensures Out(r, id) <==> IsOut(r, id)
  {
    if IsOut(r, id) {
      var i :| 0 <= i < |r.racers| && r.racers[i].id == id && !r.racers[i].Live();
      IndexOfId(r.racers, i);
    }
  }

  // Every car goes where the step takes it, except on the podium, when it is out, and when
  // its player has left; nothing else about cars changes.
  lemma CarsDriven(h: Host, moved: int -> real, c: Config, p: RaceParams, j: nat)
    requires CarsById(h.cars) && ById(h.race.racers) && |p.stageTimes| == 6 && j < |h.cars|
    ensures var car, t := h.cars[j], HostTicked(h, moved, c, p);
            && |t.cars| == |h.cars| && t.cars[j].id == car.id && t.cars[j].left == car.left
            && t.cars[j].distance == if !h.clock.active || h.clock.phase == Results || car.left || IsOut(h.race, car.id) then car.distance else moved(car.id)
  {
    hide Update, FinishByLeader, Start, HostProgress, Grid, Starters, Out;
    OutIs(h.race, h.cars[j].id);
    if h.clock.active {
      var cars := Moved(h.race, h.cars, h.clock.phase, moved);
      MovedSame(h.race, h.cars, h.clock.phase, moved);
      StartersDistinct(cars);
      GridById(Starters(cars));
    }
  }

  // Exactly the cars that are stepped are reported, once each, where the step takes them.
  ghost predicate Reports(progress: seq<Progress>, r: Race, cars: seq<HostCar>) {
    && (forall x :: x in progress <==> Reported(r, cars, x))
    && (forall i, k | 0 <= i < k < |progress| :: progress[i].playerId != progress[k].playerId)
  }

  // A car in the race whose player has not left.
  ghost predicate Reported(r: Race, cars: seq<HostCar>, x: Progress) {
    exists j :: 0 <= j < |cars| && cars[j].id == x.playerId && cars[j].distance == x.distance && !cars[j].left && !IsOut(r, x.playerId)
  }

  lemma {:induction false} ReportsAll(r: Race, cars: seq<HostCar>)
    requires CarsById(cars) && ById(r.racers)
    ensures forall x :: x in HostProgress(r, cars) <==> Reported(r, cars, x)
  {
    hide IsOut, HostProgress, Out;
    if cars == [] {
      NothingReported(r);
    } else {
      ReportsAll(r, cars[1..]);
      OutIs(r, cars[0].id);
      FirstReported(r, cars);
      forall x
        ensures Reported(r, cars, x) <==> (x == Progress(cars[0].id, cars[0].distance) && !cars[0].left && !IsOut(r, cars[0].id)) || Reported(r, cars[1..], x)
      {
        ReportedSplits(r, cars, x);
      }
    }
  }

  lemma ReportedSplits(r: Race, cars: seq<HostCar>, x: Progress)
    requires cars != []
    ensures Reported(r, cars, x) <==> (x == Progress(cars[0].id, cars[0].distance) && !cars[0].left && !IsOut(r, cars[0].id)) || Reported(r, cars[1..], x)
  {
    hide IsOut;
    if Reported(r, cars[1..], x) {
      var j :| 0 <= j < |cars[1..]| && cars[1..][j].id == x.playerId && cars[1..][j].distance == x.distance && !cars[1..][j].left;
      assert cars[j + 1] == cars[1..][j];
    }
    if Reported(r, cars, x) {
      var j :| 0 <= j < |cars| && cars[j].id == x.playerId && cars[j].distance == x.distance && !cars[j].left;
      assert j > 0 ==> cars[1..][j - 1] == cars[j];
    }
  }

  lemma NothingReported(r: Race)
    ensures HostProgress(r, []) == []
  {
  }

  lemma FirstReported(r: Race, cars: seq<HostCar>)
    requires cars != []
    ensures HostProgress(r, cars) ==
              (if cars[0].left || Out(r, cars[0].id) then [] else [Progress(cars[0].id, cars[0].distance)]) + HostProgress(r, cars[1..])
  {
  }

  // While the race is on, a tick feeds it where the cars now are, and one that turns to the
  // podium makes the leader the winner.
  lemma RacingTick(h: Host, moved: int -> real, c: Config, p: RaceParams) returns (progress: seq<Progress>)
    requires CarsById(h.cars) && ById(h.race.racers) && |p.stageTimes| == 6 && h.clock.active && h.clock.phase == Racing
    ensures Reports(progress, h.race, HostTicked(h, moved, c, p).cars)
    ensures var t, r := HostTicked(h, moved, c, p), Update(h.race, progress, c.dt, p).0;
            t.race == if t.clock.phase == Results then FinishByLeader(r, p) else r
  {
    hide Update, FinishByLeader, Start, Grid, Starters, Out, HostProgress, Reports, PhaseTick;
    var cars := Moved(h.race, h.cars, Racing, moved);
    MovedSame(h.race, h.cars, Racing, moved);
    progress := HostProgress(h.race, cars);
    ReportsAll(h.race, cars);
    HostProgressLists(h.race, cars);
    ListedOnce(progress, h.race, cars);
  }

  lemma ListedOnce(progress: seq<Progress>, r: Race, cars: seq<HostCar>)
    requires forall x :: x in progress <==> Reported(r, cars, x)
    requires forall m, n | 0 <= m < n < |progress| :: progress[m].playerId < progress[n].playerId
    ensures Reports(progress, r, cars)
  {
    hide Reported;
  }

  // ---- departures ----------------------------------------------------------------------------

  // Whoever leaves while the race is on and in goes out; before and after it, exactly its
  // racer is dropped, the others as they were and in order.
  lemma RemoveSays(r: Race, id: int, p: RaceParams)
    requires ById(r.racers) && |p.stageTimes| == 6
    ensures var (t, events) := Remove(r, id, p);
            && (r.started && !r.finished ==> (t, events) == Eliminate(r, id, p))
            && (r.started && !r.finished && !IsIn(r, id) ==> t == r && events == [])
            && (!r.started || r.finished ==> events == [] && t == r.(racers := t.racers) && ById(t.racers))
            && (!r.started || r.finished ==> forall x :: x in t.racers <==> x in r.racers && x.id != id)
  {
    hide OutWith;
    DroppedById(r.racers, id);
    if r.started && !r.finished && !IsIn(r, id) {
      var i := IndexOf(r.racers, id);
      assert i < |r.racers| ==> r.racers[i].id == id;
    }
  }

  // A departure marks exactly the car of the player and takes its racer out of the race; one
  // of nobody, or for the second time, changes nothing.
  lemma LeavingSays(h: Host, id: int, p: RaceParams)
    requires CarsById(h.cars) && ById(h.race.racers) && |p.stageTimes| == 6
    ensures var t := PlayerLeft(h, id, p);
            && (!Driven(h.cars, id) ==> t == h)
            && (Driven(h.cars, id) ==> t.race == Remove(h.race, id, p).0)
            && |t.cars| == |h.cars|
            && forall j | 0 <= j < |h.cars| :: t.cars[j] == if h.cars[j].id == id then h.cars[j].(left := true) else h.cars[j]
  {
    hide Remove;
    var j := CarIndex(h.cars, id);
    if Driven(h.cars, id) {
      var k :| 0 <= k < |h.cars| && h.cars[k].id == id && !h.cars[k].left;
      assert h.cars[j].id == h.cars[k].id;
    }
  }

  // ---- the green light -----------------------------------------------------------------------

  // On the tick the countdown ends, exactly those who have not left line up, level, and the
  // clock starts on the first stage.
  lemma GreenLight(h: Host, moved: int -> real, c: Config, p: RaceParams)
    requires CarsById(h.cars) && ById(h.race.racers) && |p.stageTimes| == 6
    requires h.clock.active && h.clock.phase == Countdown && HostTicked(h, moved, c, p).clock.phase == Racing
    ensures var r := HostTicked(h, moved, c, p).race;
            && r.started && !r.finished && r.timer == p.stageTimes[0] && r.stage == 0
            && r.lastPlaceId == 0 && r.winnerId == 0 && r.eliminatedCount == 0
            && (forall i | 0 <= i < |r.racers| :: r.racers[i].Live() && r.racers[i].distance == 0.0)
            && (forall id :: IsIn(r, id) <==> Driven(h.cars, id))
  {
    hide Grid, Starters, Ranked, PhaseTick, HasCar, Driven, Moved;
    var cars := Moved(h.race, h.cars, Countdown, moved);
    MovedSame(h.race, h.cars, Countdown, moved);
    StartersDistinct(cars);
    var ids := Starters(cars);
    GridById(ids);
    StartSays(ids, p);
    forall id
      ensures id in ids <==> Driven(h.cars, id)
    {
      SameIdCars(h.cars, cars, id);
    }
  }

  // A race starts with everybody given, level, on the first stage's clock.
  lemma StartSays(ids: seq<int>, p: RaceParams)
    requires |p.stageTimes| == 6 && Distinct(ids) && ById(Grid(ids))
    ensures var r := Start(ids, p);
            && r.started && !r.finished && r.timer == p.stageTimes[0] && r.stage == 0
            && r.lastPlaceId == 0 && r.winnerId == 0 && r.eliminatedCount == 0 && |r.racers| == |ids|
            && (forall i | 0 <= i < |r.racers| :: r.racers[i].Live() && r.racers[i].distance == 0.0)
            && (forall id :: IsIn(r, id) <==> id in ids)
  {
    hide Grid, Ranked, RankedRacer, PlacesRight, PlaceOf, LiveCount, LiveOrder;
    var grid, r := Grid(ids), Start(ids, p);
    GridSays(ids);
    RankedField(grid, p);
    RankedPlaces(grid, p);
    forall i | 0 <= i < |grid|
      ensures grid[i].Live() && grid[i].distance == 0.0
    {
      assert grid[i] in grid;
    }
    forall id
      ensures IsIn(r, id) <==> id in ids
    {
      if id in ids {
        var g :| g in grid && g.id == id;
        var i :| 0 <= i < |grid| && grid[i] == g;
        assert r.racers[i].id == id && r.racers[i].Live();
      }
      if IsIn(r, id) {
        var i :| 0 <= i < |r.racers| && r.racers[i].id == id && r.racers[i].Live();
        assert grid[i] in grid && grid[i].id == id;
      }
    }
  }

  lemma GridSays(ids: seq<int>)
    requires Distinct(ids)
    ensures |Grid(ids)| == |ids| && ById(Grid(ids))
    ensures forall g | g in Grid(ids) :: g.id in ids && g.Live() && g.distance == 0.0
    ensures forall id | id in ids :: exists g :: g in Grid(ids) && g.id == id
  {
    GridById(ids);
    var rs := seq(|ids|, i requires 0 <= i < |ids| => Racer(ids[i], 0.0, 0, 0, 1.0));
    SameMembers(Grid(ids), rs);
    forall id | id in ids
      ensures exists g :: g in Grid(ids) && g.id == id
    {
      var i :| 0 <= i < |ids| && ids[i] == id;
      assert rs[i] in rs;
    }
  }
}
