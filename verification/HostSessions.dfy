/** The host's session as the object it is: one tick and one departure against HostRuns. */
module HostSessions {
  import opened EliminationRace
  import opened HostMigration
  import opened HostRuns
  import opened MatchPhases
  import opened RaceRules
  import RaceRuns
  import opened Snapshots
  import opened Sorting

  class HostSession {
    const c: Config
    const p: RaceParams
    const race: EliminationRace
    const clock: MatchClock
    var cars: seq<HostCar>
    ghost var inStep: bool
    ghost var lined: nat
    ghost var early: seq<int>
    ghost var late: seq<int>

    ghost predicate Valid()
      reads this, race
    {
      race.Valid() && race.p == p && clock.c == c && CarsById(cars)
    }

    ghost function State(): Host
      reads this, race, clock
    {
      Host(Clock(clock.phase, clock.phaseTimer, clock.active), race.State(), cars, inStep, lined, early, late)
    }

    constructor (c: Config, p: RaceParams, cars: seq<HostCar>)
      requires |p.stageTimes| == 6 && CarsById(cars) && forall j | 0 <= j < |cars| :: cars[j].id != 0 && !cars[j].left
      ensures Valid() && this.c == c && this.p == p && this.cars == cars && Begins(State(), c)
    {
      this.c, this.p, this.cars := c, p, cars;
      race := new EliminationRace(p);
      clock := new MatchClock(c);
      inStep, lined, early, late := false, 0, [], [];
    }

    // Step the cars still in the race and list where they are.
    method Drive(moved: int -> real) returns (progress: seq<Progress>)
      requires Valid()
      modifies `cars
      ensures cars == Moved(race.State(), old(cars), clock.phase, moved)
      ensures clock.phase != Results ==> progress == HostProgress(race.State(), cars)
    {
      hide IndexOf, HostProgress;
      progress := [];
      ghost var r, was, all := race.State(), cars, Moved(race.State(), cars, clock.phase, moved);
      for i := 0 to |cars|
        invariant |cars| == |was|
        invariant forall j | 0 <= j < i :: cars[j] == all[j]
        invariant forall j | i <= j < |was| :: cars[j] == was[j]
        invariant clock.phase != Results ==> progress + HostProgress(r, all[i..]) == HostProgress(r, all)
      {
        var car := cars[i];
        var k := race.Find(car.id);
        assert all[i..][1..] == all[i + 1..];
        assert Out(r, car.id) <==> k < |race.racers| && !race.racers[k].Live();
        NextProgress(r, all[i..]);
        if (k < |race.racers| && !race.racers[k].Live()) || car.left || clock.phase == Results {
          assert all[i] == car;
          continue;
        }
        cars := cars[i := car.(distance := moved(car.id))];
        progress := progress + [Progress(car.id, moved(car.id))];
        assert all[i] == cars[i];
      }
      assert cars == all;
      NoProgress(r);
    }

    method ListStarters() returns (ids: seq<int>)
      ensures ids == Starters(cars)
    {
      hide Starters;
      ids := [];
      assert cars[0..] == cars;
      for i := 0 to |cars|
        invariant ids + Starters(cars[i..]) == Starters(cars)
      {
        NextStarter(cars, i);
        if !cars[i].left {
          ids := ids + [cars[i].id];
        }
      }
      NoStarter(cars[|cars|..]);
    }

    method HostTick(moved: int -> real)
      requires Valid()
      modifies this, race, clock
      ensures Valid() && State() == HostTicked(old(State()), moved, c, p)
    {
      hide Update, FinishByLeader, Start, Moved, HostProgress, Starters, Grid, ById;
      if !clock.active {
        return;
      }
      MovedSame(race.State(), cars, clock.phase, moved);
      var before := clock.phase;
      var progress := Drive(moved);
      if before == Racing {
        inStep := race.started && !race.finished;
        var events := race.Update(progress, c.dt);
      }
      clock.Tick(race.finished);
      if before == Countdown && clock.phase == Racing {
        var ids := ListStarters();
        StartersDistinct(cars);
        RaceRuns.GridById(ids);
        race.Start(ids);
        inStep, lined := false, |ids|;
      } else if before == Racing && clock.phase == Results {
        race.FinishByLeader();
      }
    }

    method Leave(id: int)
      requires Valid()
      modifies this, race
      ensures Valid() && State() == PlayerLeft(old(State()), id, p)
    {
      hide Remove, ById;
      var j := FindCar(id);
      if j == |cars| || cars[j].left {
        return;
      }
      cars := cars[j := cars[j].(left := true)];
      early := if race.started then early else early + [id];
      late := if race.started && race.finished then late + [id] else late;
      var events := race.RemovePlayer(id);
    }

    method FindCar(id: int) returns (j: nat)
      ensures j == CarIndex(cars, id)
    {
      j := 0;
      while j < |cars| && cars[j].id != id
        invariant j <= |cars| && CarIndex(cars, id) == j + CarIndex(cars[j..], id)
      {
        assert cars[j..][1..] == cars[j + 1..];
        j := j + 1;
      }
    }
  }

  lemma NextProgress(r: Race, cars: seq<HostCar>)
    requires cars != []
    ensures HostProgress(r, cars) ==
              (if cars[0].left || Out(r, cars[0].id) then [] else [Progress(cars[0].id, cars[0].distance)]) + HostProgress(r, cars[1..])
  {
  }

  lemma NextStarter(cars: seq<HostCar>, i: nat)
    requires i < |cars|
    ensures Starters(cars[i..]) == (if cars[i].left then [] else [cars[i].id]) + Starters(cars[i + 1..])
  {
    assert cars[i..][1..] == cars[i + 1..];
  }

  lemma NoStarter(cars: seq<HostCar>)
    requires cars == []
    ensures Starters(cars) == []
  {
  }

  lemma NoProgress(r: Race)
    ensures HostProgress(r, []) == []
  {
  }
}
