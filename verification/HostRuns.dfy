/** The host's race, cars and phases together over whole matches: when a host can be replaced. */
module HostRuns {
  import opened HostMigration
  import opened MatchPhases
  import opened RaceRules
  import opened RaceRuns
  import opened Snapshots
  import opened Sorting

  // The last four are not kept by the host: whether the race has taken in where the cars
  // stand, how many lined up, and who left before the start and after the finish.
  datatype Host = Host(clock: Clock, race: Race, cars: seq<HostCar>, inStep: bool, lined: nat, early: seq<int>, late: seq<int>)

  const NO_RACE := Race([], false, false, 0.0, 0, 0, 0, 0)

  predicate Out(r: Race, id: int) {
    var i := IndexOf(r.racers, id);
    i < |r.racers| && !r.racers[i].Live()
  }

  // Cars that are out or gone, and everyone on the podium, are not stepped.
  function Moved(r: Race, cars: seq<HostCar>, phase: MatchPhase, moved: int -> real): seq<HostCar> {
    seq(|cars|, i requires 0 <= i < |cars| =>
      if Out(r, cars[i].id) || cars[i].left || phase == Results then cars[i] else cars[i].(distance := moved(cars[i].id)))
  }

  // Who lines up when the race goes green.
  function Starters(cars: seq<HostCar>): seq<int> {
    if cars == [] then [] else (if cars[0].left then [] else [cars[0].id]) + Starters(cars[1..])
  }

  function CarIndex(cars: seq<HostCar>, id: int): (j: nat)
    ensures j <= |cars| && (j < |cars| ==> cars[j].id == id) && forall k | 0 <= k < j :: cars[k].id != id
  {
    if cars == [] || cars[0].id == id then 0 else 1 + CarIndex(cars[1..], id)
  }

  lemma {:induction false} StartersDistinct(cars: seq<HostCar>)
    requires CarsById(cars)
    ensures Distinct(Starters(cars))
    ensures forall id :: id in Starters(cars) <==> Driven(cars, id)
  {
    if cars != [] {
      var rest := cars[1..];
      StartersDistinct(rest);
      forall id
        ensures id in Starters(cars) <==> Driven(cars, id)
      {
        DrivenSplits(cars, id);
      }
      forall id | Driven(rest, id)
        ensures id != cars[0].id
      {
        var j :| 0 <= j < |rest| && rest[j].id == id && !rest[j].left;
        assert cars[j + 1].id == id;
      }
      assert cars[0].id !in Starters(rest);
      assert forall i | 0 <= i < |Starters(rest)| :: Starters(rest)[i] in Starters(rest);
    }
  }

  lemma DrivenSplits(cars: seq<HostCar>, id: int)
    requires cars != []
    ensures Driven(cars, id) <==> (cars[0].id == id && !cars[0].left) || Driven(cars[1..], id)
  {
    if Driven(cars[1..], id) {
      var j :| 0 <= j < |cars[1..]| && cars[1..][j].id == id && !cars[1..][j].left;
      assert cars[j + 1].id == id && !cars[j + 1].left;
    }
    if Driven(cars, id) {
      var j :| 0 <= j < |cars| && cars[j].id == id && !cars[j].left;
      assert j > 0 ==> cars[1..][j - 1] == cars[j];
    }
  }

  // The race and phase part of a host tick, given where the step takes each car.
  ghost function HostTicked(h: Host, moved: int -> real, c: Config, p: RaceParams): (t: Host)
    requires CarsById(h.cars) && ById(h.race.racers) && |p.stageTimes| == 6
    ensures CarsById(t.cars) && ById(t.race.racers)
  {
    if !h.clock.active then h
    else
      var cars := Moved(h.race, h.cars, h.clock.phase, moved);
      var racing := h.clock.phase == Racing;
      var race := if racing then Update(h.race, HostProgress(h.race, cars), c.dt, p).0 else h.race;
      var clock := PhaseTick(h.clock, race.finished, c);
      if h.clock.phase == Countdown && clock.phase == Racing then
        StartersDistinct(cars);
        GridById(Starters(cars));
        Host(clock, Start(Starters(cars), p), cars, false, |Starters(cars)|, h.early, h.late)
      else
        h.(clock := clock, race := if racing && clock.phase == Results then FinishByLeader(race, p) else race, cars := cars,
           inStep := if racing then h.race.started && !h.race.finished else h.inStep)
  }

  // A player left: the car stays, marked, and the race takes it as eliminated, or drops
  // it when it is decided.
  ghost function PlayerLeft(h: Host, id: int, p: RaceParams): (t: Host)
    requires CarsById(h.cars) && ById(h.race.racers) && |p.stageTimes| == 6
    ensures CarsById(t.cars) && ById(t.race.racers)
  {
    var j := CarIndex(h.cars, id);
    if j == |h.cars| || h.cars[j].left then h
    else h.(cars := h.cars[j := h.cars[j].(left := true)], race := Remove(h.race, id, p).0,
            early := if h.race.started then h.early else h.early + [id],
            late := if h.race.started && h.race.finished then h.late + [id] else h.late)
  }

  // What a peer promoted while everyone waits makes of the snapshot: a race that has not
  // started, the racers nobody but the start looks at.
  ghost function RestoredWaiting(h: Host, p: RaceParams): (b: Race)
    requires CarsById(h.cars) && |p.stageTimes| == 6
    ensures ById(b.racers)
  {
    CarsSorted(h.race, h.cars);
    Restore(Snapshot(Countdown, p.StageTime(0), 0, 0, 0, Publish(h.race, h.cars).cars), p)
  }

  // The host is replaced: a client takes over cars, race and phase from the snapshot.
  ghost function Promoted(h: Host, p: RaceParams): (t: Host)
    requires CarsById(h.cars) && ById(h.race.racers) && |p.stageTimes| == 6
    ensures CarsById(t.cars) && ById(t.race.racers)
  {
    if !h.clock.active then h
    else
      h.(clock := h.clock.(timer := if h.clock.timer < 0.0 then 0.0 else h.clock.timer),
         race := if h.race.started then Restored(h.race, h.cars, p) else RestoredWaiting(h, p),
         cars := CarsTaken(h.race, h.cars), inStep := h.race.started)
  }

  datatype Event = HostTick(moved: int -> real) | Departure(id: int) | Migration

  ghost function HostAfter(h: Host, e: Event, c: Config, p: RaceParams): (t: Host)
    requires CarsById(h.cars) && ById(h.race.racers) && |p.stageTimes| == 6
    ensures CarsById(t.cars) && ById(t.race.racers)
  {
    match e
    case HostTick(moved) => HostTicked(h, moved, c, p)
    case Departure(id) => PlayerLeft(h, id, p)
    case Migration => Promoted(h, p)
  }

  ghost function HostRun(h: Host, events: seq<Event>, c: Config, p: RaceParams): (t: Host)
    requires CarsById(h.cars) && ById(h.race.racers) && |p.stageTimes| == 6
    ensures CarsById(t.cars) && ById(t.race.racers)
  {
    if events == [] then h else HostAfter(HostRun(h, events[..|events| - 1], c, p), events[|events| - 1], c, p)
  }

  // A match as it begins: everyone on the grid, the countdown running.
  ghost predicate Begins(h: Host, c: Config) {
    && h.clock == Clock(Countdown, c.countdownSeconds, true) && h.race == NO_RACE && !h.inStep && h.lined == 0
    && h.early == [] && h.late == []
    && CarsById(h.cars) && forall j | 0 <= j < |h.cars| :: h.cars[j].id != 0 && !h.cars[j].left
  }

  // ---- what the host keeps ------------------------------------------------------

  ghost predicate RaceOk(r: Race, p: RaceParams)
    requires p.Valid()
  {
    && Settled(r, p) && OrdersExact(r.racers, r.eliminatedCount)
    && if r.finished then Decided(r) else Running(r, |r.racers|, p)
  }

  // Every racer has a car, driven while the racer is in; the other cars are those of gone,
  // and marked as left.
  ghost predicate Members(rs: seq<Racer>, cars: seq<HostCar>, gone: seq<int>) {
    && (forall i | 0 <= i < |rs| :: Manned(cars, rs[i]))
    && (forall j | 0 <= j < |cars| :: cars[j].id in gone <==> IndexOf(rs, cars[j].id) == |rs|)
    && (forall j | 0 <= j < |cars| && cars[j].id in gone :: cars[j].left)
    && (forall id | id in gone :: HasCar(cars, id))
  }

  ghost predicate Manned(cars: seq<HostCar>, racer: Racer) {
    HasCar(cars, racer.id) && (racer.Live() ==> Driven(cars, racer.id))
  }

  ghost predicate Waiting(h: Host) {
    && !h.race.started && !h.race.finished && !h.inStep && h.late == []
    && ById(h.race.racers) && (forall r | r in h.race.racers :: r.Live())
    && (forall j | 0 <= j < |h.cars| :: h.cars[j].id in h.early <==> h.cars[j].left)
    && (forall id | id in h.early :: HasCar(h.cars, id))
  }

  // Until somebody is dropped late, the race is whole, the cars carry it once it has taken
  // them in, and a departure that decided it left one racer.
  ghost predicate Raced(h: Host, p: RaceParams)
    requires p.Valid()
  {
    && Members(h.race.racers, h.cars, h.early + h.late)
    && if h.late == [] then
         && RaceOk(h.race, p) && (h.inStep ==> CarsCarryRace(h.race, h.cars))
         && (h.race.finished ==> LiveCount(h.race.racers) == 1 || (h.inStep && h.clock.phase != Racing))
       else
         h.race.finished && Rankable(h.race.racers)
  }

  ghost predicate HostOk(h: Host, p: RaceParams)
    requires p.Valid()
  {
    && CarsById(h.cars) && (forall j | 0 <= j < |h.cars| :: h.cars[j].id != 0)
    && (h.clock.active ==> h.clock.phase != Lobby)
    && (h.clock.phase == Countdown ==> Waiting(h))
    && (h.clock.phase != Countdown ==> h.race.started && ById(h.race.racers) && (h.lined >= 2 ==> Raced(h, p)))
  }

  // ---- ticks ------------------------------------------------------------------------

  // Moving cars changes distances only.
  lemma MovedSame(r: Race, cars: seq<HostCar>, phase: MatchPhase, moved: int -> real)
    ensures var m := Moved(r, cars, phase, moved);
            && |m| == |cars| && (forall j | 0 <= j < |m| :: m[j].id == cars[j].id && m[j].left == cars[j].left)
            && (CarsById(cars) ==> CarsById(m))
            && (phase == Results ==> m == cars)
  {
  }

  lemma SameIdCars(a: seq<HostCar>, b: seq<HostCar>, id: int)
    requires |a| == |b| && forall j | 0 <= j < |a| :: a[j].id == b[j].id && a[j].left == b[j].left
    ensures HasCar(a, id) <==> HasCar(b, id)
    ensures Driven(a, id) <==> Driven(b, id)
  {
    if HasCar(a, id) {
      var j :| 0 <= j < |a| && a[j].id == id;
      assert b[j].id == id;
    }
    if HasCar(b, id) {
      var j :| 0 <= j < |b| && b[j].id == id;
      assert a[j].id == id;
    }
    if Driven(a, id) {
      var j :| 0 <= j < |a| && a[j].id == id && !a[j].left;
      assert b[j].id == id && !b[j].left;
    }
    if Driven(b, id) {
      var j :| 0 <= j < |b| && b[j].id == id && !b[j].left;
      assert a[j].id == id && !a[j].left;
    }
  }

  lemma {:induction false} SameIdIndex(a: seq<Racer>, b: seq<Racer>, id: int)
    requires |a| == |b| && forall i | 0 <= i < |a| :: a[i].id == b[i].id
    ensures IndexOf(a, id) == IndexOf(b, id)
  {
    if a != [] && a[0].id != id {
      SameIdIndex(a[1..], b[1..], id);
    }
  }

  // Racers out stay out, and cars keep their drivers: the members stay as they are.
  lemma MembersStay(a: seq<Racer>, b: seq<Racer>, cars: seq<HostCar>, more: seq<HostCar>, gone: seq<int>)
    requires Members(a, cars, gone) && SameCarsButDistance(b, a)
    requires |cars| == |more| && forall j | 0 <= j < |cars| :: cars[j].id == more[j].id && cars[j].left == more[j].left
    ensures Members(b, more, gone)
  {
    hide HasCar, Driven;
    forall i | 0 <= i < |b|
      ensures Manned(more, b[i])
    {
      assert Manned(cars, a[i]);
      SameIdCars(cars, more, a[i].id);
    }
    forall j | 0 <= j < |more|
      ensures more[j].id in gone <==> IndexOf(b, more[j].id) == |b|
    {
      SameIdIndex(a, b, more[j].id);
    }
    forall id | id in gone
      ensures HasCar(more, id)
    {
      SameIdCars(cars, more, id);
    }
  }

  ghost predicate SameCarsButDistance(b: seq<Racer>, a: seq<Racer>) {
    |a| == |b| && forall i | 0 <= i < |a| :: b[i].id == a[i].id && (b[i].Live() ==> a[i].Live())
  }

  lemma UpdateKeepsRace(r: Race, progress: seq<Progress>, dt: real, p: RaceParams)
    requires p.Valid() && dt > 0.0 && RaceOk(r, p) && !r.finished
    ensures var r' := Update(r, progress, dt, p).0;
            RaceOk(r', p) && r'.started && SameCarsButDistance(r'.racers, r.racers)
  {
    hide Update, OrdersExact, Settled;
    StepKeeps(r, Tick(progress, dt), |r.racers|, p);
    StepSettles(r, Tick(progress, dt), p);
    StepOrders(r, Tick(progress, dt), p);
    UpdateField(r, progress, dt, p);
  }

  lemma FinishKeepsRace(r: Race, p: RaceParams)
    requires p.Valid() && RaceOk(r, p)
    ensures var r' := FinishByLeader(r, p);
            && RaceOk(r', p) && r'.started && SameCarsButDistance(r'.racers, r.racers)
            && SameCars(r'.racers, r.racers)
  {
    hide OrdersExact, Settled, Ranked;
    if !r.finished {
      StepKeeps(r, TimeCap, |r.racers|, p);
      StepSettles(r, TimeCap, p);
      StepOrders(r, TimeCap, p);
      RankedField(r.racers, p);
    }
  }

  lemma SameCarsCarry(a: Race, b: Race, cars: seq<HostCar>)
    requires CarsCarryRace(a, cars) && SameCars(b.racers, a.racers)
    ensures CarsCarryRace(b, cars)
  {
    forall i | 0 <= i < |b.racers|
      ensures Carried(cars, b.racers[i])
    {
      assert Carried(cars, a.racers[i]);
      var j :| 0 <= j < |cars| && CarriesRacer(cars[j], a.racers[i]);
      assert CarriesRacer(cars[j], b.racers[i]);
    }
  }

  // A racing tick: the cars move, the race takes them in, and the time cap may end it.
  lemma RacingTickKeeps(h: Host, moved: int -> real, c: Config, p: RaceParams)
    requires p.Valid() && c.dt > 0.0 && CarsById(h.cars) && ById(h.race.racers) && h.race.started && Raced(h, p)
    requires h.clock.active && h.clock.phase == Racing && !h.race.finished
    ensures Raced(HostTicked(h, moved, c, p), p) && HostTicked(h, moved, c, p).race.started
  {
    hide Update, FinishByLeader, HostProgress, RaceOk, Members, CarsCarryRace, SameCars, SameCarsButDistance, CarsById, ById, Moved, LiveCount;
    var cars := Moved(h.race, h.cars, Racing, moved);
    MovedSame(h.race, h.cars, Racing, moved);
    var race, gone := Update(h.race, HostProgress(h.race, cars), c.dt, p).0, h.early + h.late;
    UpdateKeepsRace(h.race, HostProgress(h.race, cars), c.dt, p);
    MembersStay(h.race.racers, race.racers, h.cars, cars, gone);
    MembersMan(h.race.racers, h.cars, cars, gone);
    UpdateCarries(h.race, cars, c.dt, p);
    FinishKeepsRace(race, p);
    MembersStay(race.racers, FinishByLeader(race, p).racers, cars, cars, gone);
    SameCarsCarry(race, FinishByLeader(race, p), cars);
  }

  // A race that a departure has decided: the winner drives on to the podium.
  lemma DecidedTickKeeps(h: Host, moved: int -> real, c: Config, p: RaceParams)
    requires p.Valid() && CarsById(h.cars) && ById(h.race.racers) && h.race.started && Raced(h, p)
    requires h.clock.active && h.clock.phase == Racing && h.race.finished
    ensures Raced(HostTicked(h, moved, c, p), p) && HostTicked(h, moved, c, p).race == h.race
  {
    hide HostProgress, RaceOk, Members, CarsCarryRace, SameCarsButDistance, CarsById, ById, Moved, LiveCount;
    var cars := Moved(h.race, h.cars, Racing, moved);
    MovedSame(h.race, h.cars, Racing, moved);
    IdleUpdate(h.race, HostProgress(h.race, cars), c.dt, p);
    SameCarsSelf(h.race.racers);
    MembersStay(h.race.racers, h.race.racers, h.cars, cars, h.early + h.late);
  }

  lemma RaceById(r: Race, p: RaceParams)
    requires p.Valid() && RaceOk(r, p)
    ensures ById(r.racers) && r.started
  {
  }

  lemma SameCarsSelf(rs: seq<Racer>)
    ensures SameCarsButDistance(rs, rs)
  {
  }

  lemma MembersMan(rs: seq<Racer>, cars: seq<HostCar>, more: seq<HostCar>, gone: seq<int>)
    requires Members(rs, cars, gone)
    requires |cars| == |more| && forall j | 0 <= j < |cars| :: cars[j].id == more[j].id && cars[j].left == more[j].left
    ensures forall i | 0 <= i < |rs| :: HasCar(more, rs[i].id) && (rs[i].Live() ==> Driven(more, rs[i].id))
  {
    hide HasCar, Driven;
    forall i | 0 <= i < |rs|
      ensures HasCar(more, rs[i].id) && (rs[i].Live() ==> Driven(more, rs[i].id))
    {
      assert Manned(cars, rs[i]);
      SameIdCars(cars, more, rs[i].id);
    }
  }

  lemma StaysStarted(h: Host, moved: int -> real, c: Config, p: RaceParams)
    requires CarsById(h.cars) && ById(h.race.racers) && |p.stageTimes| == 6
    requires h.clock.active && h.clock.phase == Racing && h.race.started
    ensures HostTicked(h, moved, c, p).race.started
  {
    hide Update, Ranked, HostProgress, Moved;
    UpdateStarted(h.race, HostProgress(h.race, Moved(h.race, h.cars, Racing, moved)), c.dt, p);
  }

  lemma UpdateStarted(r: Race, progress: seq<Progress>, dt: real, p: RaceParams)
    requires ById(r.racers) && |p.stageTimes| == 6 && r.started
    ensures Update(r, progress, dt, p).0.started
  {
    hide Ranked;
  }

  // The green light: those still there line up, nobody has moved yet.
  lemma GreenLightKeeps(cars: seq<HostCar>, early: seq<int>, p: RaceParams)
    requires p.Valid() && CarsById(cars) && (forall j | 0 <= j < |cars| :: cars[j].id != 0)
    requires forall j | 0 <= j < |cars| :: cars[j].id in early <==> cars[j].left
    requires forall id | id in early :: HasCar(cars, id)
    requires Distinct(Starters(cars)) && ById(Grid(Starters(cars)))
    ensures var r := Start(Starters(cars), p);
            r.started && !r.finished && ById(r.racers) && (|Starters(cars)| >= 2 ==> RaceOk(r, p) && Members(r.racers, cars, early))
  {
    hide Ranked, OrdersExact, Running, Settled, Grid, Starters, Driven, HasCar, Members, ById, SameCarsButDistance, SameCars;
    var ids := Starters(cars);
    var r := Start(ids, p);
    GridById(ids);
    RankedField(Grid(ids), p);
    RankedById(Grid(ids), p);
    if |ids| >= 2 {
      NoZero(cars);
      StartKeeps(ids, p);
      StartSettled(ids, p);
      StartOrders(ids, p);
      GridHolds(ids);
      LinedUp(cars, early, Grid(ids));
      SameCarsSame(Grid(ids), r.racers);
      MembersStay(Grid(ids), r.racers, cars, cars, early);
    }
  }

  lemma RankedById(rs: seq<Racer>, p: RaceParams)
    requires ById(rs)
    ensures ById(Ranked(rs, p)) && |Ranked(rs, p)| == |rs|
  {
  }

  lemma SameCarsSame(a: seq<Racer>, b: seq<Racer>)
    requires SameCars(b, a) && forall r | r in a :: r.Live()
    ensures SameCarsButDistance(b, a)
  {
    assert forall i | 0 <= i < |a| :: a[i] in a;
  }

  lemma NoZero(cars: seq<HostCar>)
    requires CarsById(cars) && forall j | 0 <= j < |cars| :: cars[j].id != 0
    ensures 0 !in Starters(cars)
  {
    StartersDistinct(cars);
  }

  lemma GridHolds(ids: seq<int>)
    requires Distinct(ids)
    ensures forall id | id in ids :: IndexOf(Grid(ids), id) < |Grid(ids)|
  {
    var rs := seq(|ids|, i requires 0 <= i < |ids| => Racer(ids[i], 0.0, 0, 0, 1.0));
    SameMembers(Grid(ids), rs);
    forall id | id in ids
      ensures IndexOf(Grid(ids), id) < |Grid(ids)|
    {
      var i :| 0 <= i < |ids| && ids[i] == id;
      assert rs[i] in rs && rs[i] in Grid(ids);
    }
  }

  lemma LinedUp(cars: seq<HostCar>, early: seq<int>, grid: seq<Racer>)
    requires CarsById(cars) && (forall j | 0 <= j < |cars| :: cars[j].id in early <==> cars[j].left)
    requires forall id | id in early :: HasCar(cars, id)
    requires forall r | r in grid :: r.Live() && r.id in Starters(cars)
    requires forall id | id in Starters(cars) :: IndexOf(grid, id) < |grid|
    ensures Members(grid, cars, early)
  {
    hide IndexOf;
    StartersDistinct(cars);
    forall i | 0 <= i < |grid|
      ensures Manned(cars, grid[i])
    {
      assert grid[i] in grid;
      DrivenHasCar(cars, grid[i].id);
    }
    forall j | 0 <= j < |cars|
      ensures cars[j].id in early <==> IndexOf(grid, cars[j].id) == |grid|
    {
      if cars[j].left {
        OneCar(cars, j);
        NotListed(grid, cars[j].id);
      } else {
        assert Driven(cars, cars[j].id);
      }
    }
  }

  lemma DrivenHasCar(cars: seq<HostCar>, id: int)
    requires Driven(cars, id)
    ensures HasCar(cars, id)
  {
  }

  lemma OneCar(cars: seq<HostCar>, j: nat)
    requires CarsById(cars) && j < |cars| && cars[j].left
    ensures !Driven(cars, cars[j].id)
  {
  }

  lemma NotListed(grid: seq<Racer>, id: int)
    requires forall r | r in grid :: r.id != id
    ensures IndexOf(grid, id) == |grid|
  {
  }

  lemma HostTickKeeps(h: Host, moved: int -> real, c: Config, p: RaceParams)
    requires p.Valid() && c.dt > 0.0 && HostOk(h, p)
    ensures HostOk(HostTicked(h, moved, c, p), p)
  {
    hide Update, FinishByLeader, HostProgress, RaceOk, Members, CarsCarryRace, ById, Moved, Start, Grid, Starters;
    var cars := Moved(h.race, h.cars, h.clock.phase, moved);
    MovedSame(h.race, h.cars, h.clock.phase, moved);
    if h.clock.active {
      if h.clock.phase == Racing {
        StaysStarted(h, moved, c, p);
        if h.lined >= 2 {
          if h.race.finished {
            DecidedTickKeeps(h, moved, c, p);
          } else {
            RacingTickKeeps(h, moved, c, p);
          }
        }
      } else if h.clock.phase == Countdown {
        WaitingMoves(h, cars);
        StartersDistinct(cars);
        GridById(Starters(cars));
        GreenLightKeeps(cars, h.early, p);
        assert h.early + [] == h.early;
      }
    }
  }

  lemma WaitingMoves(h: Host, cars: seq<HostCar>)
    requires Waiting(h) && |cars| == |h.cars|
    requires forall j | 0 <= j < |cars| :: cars[j].id == h.cars[j].id && cars[j].left == h.cars[j].left
    ensures forall j | 0 <= j < |cars| :: cars[j].id in h.early <==> cars[j].left
    ensures forall id | id in h.early :: HasCar(cars, id)
  {
    hide HasCar, Driven;
    forall id | id in h.early
      ensures HasCar(cars, id)
    {
      SameIdCars(h.cars, cars, id);
    }
  }

  // ---- departures -------------------------------------------------------------------

  // Whoever leaves a race that is on is out of it.
  lemma LeaverOut(r: Race, id: int, p: RaceParams)
    requires |p.stageTimes| == 6 && ById(r.racers)
    ensures var rs := Eliminate(r, id, p).0.racers; forall i | 0 <= i < |rs| && rs[i].id == id :: !rs[i].Live()
  {
    hide Ranked, CurrentLast, LiveCount;
    var i := IndexOf(r.racers, id);
    if i == |r.racers| {
    } else if r.racers[i].Live() {
      EliminateShape(r, i, p);
      var out := r.racers[i := r.racers[i].(eliminatedOrder := r.eliminatedCount + 1)];
      OutStays(out, i, p);
    }
  }

  lemma OutStays(out: seq<Racer>, i: nat, p: RaceParams)
    requires ById(out) && i < |out| && !out[i].Live()
    ensures var rs := Ranked(out, p); forall k | 0 <= k < |rs| && rs[k].id == out[i].id :: !rs[k].Live()
  {
    hide PlaceOf;
  }

  lemma MembersLeave(a: seq<Racer>, b: seq<Racer>, cars: seq<HostCar>, j: nat, gone: seq<int>)
    requires Members(a, cars, gone) && SameCarsButDistance(b, a) && CarsById(cars) && j < |cars|
    requires forall i | 0 <= i < |b| && b[i].id == cars[j].id :: !b[i].Live()
    ensures Members(b, cars[j := cars[j].(left := true)], gone)
  {
    var more := cars[j := cars[j].(left := true)];
    forall i | 0 <= i < |b|
      ensures Manned(more, b[i])
    {
      assert Manned(cars, a[i]);
      OthersDrive(cars, j, b[i].id);
    }
    forall k | 0 <= k < |more|
      ensures more[k].id in gone <==> IndexOf(b, more[k].id) == |b|
    {
      SameIdIndex(a, b, more[k].id);
      assert more[k].id == cars[k].id;
    }
    forall id | id in gone
      ensures HasCar(more, id)
    {
      OthersDrive(cars, j, id);
    }
  }

  lemma OthersDrive(cars: seq<HostCar>, j: nat, id: int)
    requires j < |cars|
    ensures var more := cars[j := cars[j].(left := true)];
            && (HasCar(cars, id) ==> HasCar(more, id))
            && (Driven(cars, id) && id != cars[j].id ==> Driven(more, id))
  {
    var more := cars[j := cars[j].(left := true)];
    if HasCar(cars, id) {
      var k :| 0 <= k < |cars| && cars[k].id == id;
      assert more[k].id == id;
    }
    if Driven(cars, id) && id != cars[j].id {
      var k :| 0 <= k < |cars| && cars[k].id == id && !cars[k].left;
      assert more[k].id == id && !more[k].left;
    }
  }

  lemma CarryMarked(r: Race, cars: seq<HostCar>, j: nat)
    requires CarsCarryRace(r, cars) && j < |cars|
    ensures CarsCarryRace(r, cars[j := cars[j].(left := true)])
  {
    var more := cars[j := cars[j].(left := true)];
    forall i | 0 <= i < |r.racers|
      ensures Carried(more, r.racers[i])
    {
      assert Carried(cars, r.racers[i]);
      var k :| 0 <= k < |cars| && CarriesRacer(cars[k], r.racers[i]);
      assert CarriesRacer(more[k], r.racers[i]);
    }
  }

  lemma EliminateKeepsRace(r: Race, id: int, p: RaceParams)
    requires p.Valid() && RaceOk(r, p) && !r.finished
    ensures var r' := Eliminate(r, id, p).0;
            && RaceOk(r', p) && SameCarsButDistance(r'.racers, r.racers) && SameCars(r'.racers, r.racers)
            && (r'.finished ==> LiveCount(r'.racers) == 1)
  {
    hide Eliminate, OrdersExact, Settled, LiveCount;
    StepKeeps(r, Leave(id), |r.racers|, p);
    StepSettles(r, Leave(id), p);
    StepOrders(r, Leave(id), p);
    EliminateField(r, id, p);
    EliminateDecides(r, id, p);
  }

  lemma EliminateDecides(r: Race, id: int, p: RaceParams)
    requires |p.stageTimes| == 6 && ById(r.racers) && !r.finished
    ensures var r' := Eliminate(r, id, p).0; (r'.finished ==> LiveCount(r'.racers) == 1) && r'.started == r.started
  {
    hide Ranked, CurrentLast, LiveCount;
  }

  // A departure while the race is on.
  lemma DepartureKeepsRace(h: Host, j: nat, p: RaceParams)
    requires p.Valid() && CarsById(h.cars) && Raced(h, p) && !h.race.finished && j < |h.cars|
    ensures Raced(h.(cars := h.cars[j := h.cars[j].(left := true)], race := Eliminate(h.race, h.cars[j].id, p).0), p)
  {
    hide Eliminate, RaceOk, Members, CarsCarryRace, SameCars, SameCarsButDistance, ById, LiveCount;
    RaceById(h.race, p);
    var race := Eliminate(h.race, h.cars[j].id, p).0;
    EliminateKeepsRace(h.race, h.cars[j].id, p);
    LeaverOut(h.race, h.cars[j].id, p);
    MembersLeave(h.race.racers, race.racers, h.cars, j, h.early + h.late);
    if h.inStep {
      SameCarsCarry(h.race, race, h.cars);
      CarryMarked(race, h.cars, j);
    }
  }

  lemma DroppedOut(rs: seq<Racer>, id: int, other: int)
    requires ById(rs)
    ensures IndexOf(Dropped(rs, id), other) == |Dropped(rs, id)| <==> other == id || IndexOf(rs, other) == |rs|
  {
    var d := Dropped(rs, id);
    DroppedById(rs, id);
    var m, n := IndexOf(rs, other), IndexOf(d, other);
    if n < |d| {
      assert d[n] in d && d[n] in rs;
    }
    if m < |rs| && other != id {
      assert rs[m] in rs && rs[m] in d;
    }
  }

  // A departure after the finish: the racer is dropped and its car left outside.
  lemma MembersDrop(rs: seq<Racer>, cars: seq<HostCar>, j: nat, gone: seq<int>)
    requires Members(rs, cars, gone) && ById(rs) && CarsById(cars) && j < |cars|
    ensures Members(Dropped(rs, cars[j].id), cars[j := cars[j].(left := true)], gone + [cars[j].id])
  {
    hide HasCar, Driven, IndexOf, Dropped;
    var id := cars[j].id;
    var d, more := Dropped(rs, id), cars[j := cars[j].(left := true)];
    DroppedById(rs, id);
    forall i | 0 <= i < |d|
      ensures Manned(more, d[i])
    {
      assert d[i] in d && d[i] in rs;
      var k :| 0 <= k < |rs| && rs[k] == d[i];
      assert Manned(cars, rs[k]);
      OthersDrive(cars, j, d[i].id);
    }
    forall k | 0 <= k < |more|
      ensures more[k].id in gone + [id] <==> IndexOf(d, more[k].id) == |d|
    {
      DroppedOut(rs, id, more[k].id);
      assert more[k].id == cars[k].id;
    }
    HasOwnCar(cars, j);
    forall other | other in gone + [id]
      ensures HasCar(more, other)
    {
      OthersDrive(cars, j, other);
    }
  }

  lemma HasOwnCar(cars: seq<HostCar>, j: nat)
    requires j < |cars|
    ensures HasCar(cars, cars[j].id)
  {
  }

  lemma RaceRankable(r: Race, p: RaceParams)
    requires p.Valid() && RaceOk(r, p)
    ensures Rankable(r.racers)
  {
    hide Rankable, OrdersExact;
    RankedPlaces(r.racers, p);
    LineRankable(r.racers, r.eliminatedCount);
  }

  lemma LateDeparture(h: Host, j: nat, p: RaceParams)
    requires p.Valid() && HostOk(h, p) && h.race.started && h.race.finished && j < |h.cars|
    ensures HostOk(h.(cars := h.cars[j := h.cars[j].(left := true)], race := Remove(h.race, h.cars[j].id, p).0,
                      late := h.late + [h.cars[j].id]), p)
  {
    hide RaceOk, Members, CarsCarryRace, Dropped, LiveCount;
    assert ById(h.race.racers);
    if h.lined >= 2 {
      if h.late == [] {
        RaceRankable(h.race, p);
      }
      DroppedById(h.race.racers, h.cars[j].id);
      MembersDrop(h.race.racers, h.cars, j, h.early + h.late);
      assert h.early + (h.late + [h.cars[j].id]) == (h.early + h.late) + [h.cars[j].id];
    }
  }

  lemma DepartureKeeps(h: Host, id: int, p: RaceParams)
    requires p.Valid() && HostOk(h, p)
    ensures HostOk(PlayerLeft(h, id, p), p)
  {
    hide Eliminate, Raced, ById, IndexOf, Dropped;
    var j := CarIndex(h.cars, id);
    if j < |h.cars| && !h.cars[j].left {
      if !h.race.started {
        EarlyLeaver(h, j);
      } else if h.race.finished {
        LateDeparture(h, j, p);
      } else {
        EliminateDecides(h.race, id, p);
        if h.lined >= 2 {
          DepartureKeepsRace(h, j, p);
        }
      }
    }
  }

  lemma EarlyLeaver(h: Host, j: nat)
    requires Waiting(h) && CarsById(h.cars) && j < |h.cars|
    ensures Waiting(h.(cars := h.cars[j := h.cars[j].(left := true)], early := h.early + [h.cars[j].id],
                       race := h.race.(racers := Dropped(h.race.racers, h.cars[j].id))))
  {
    hide Dropped;
    DroppedById(h.race.racers, h.cars[j].id);
    var more := h.cars[j := h.cars[j].(left := true)];
    forall id | id in h.early + [h.cars[j].id]
      ensures HasCar(more, id)
    {
      if id in h.early {
        OthersDrive(h.cars, j, id);
      } else {
        assert more[j].id == id;
      }
    }
  }

  // ---- migrations -------------------------------------------------------------------

  // Nobody is out before the start: cars keep their marks, and all racers come back live.
  lemma MarksKept(r: Race, cars: seq<HostCar>)
    requires CarsById(cars) && forall x | x in r.racers :: x.Live()
    ensures var taken, rs := CarsTaken(r, cars), FromCars(Publish(r, cars).cars);
            && |taken| == |cars| == |rs| && (forall j | 0 <= j < |cars| :: taken[j].id == cars[j].id && taken[j].left == cars[j].left)
            && (forall j | 0 <= j < |cars| :: rs[j].Live())
  {
    forall j | 0 <= j < |cars|
      ensures RecordOf(r, cars[j]).eliminatedOrder == 0 && RecordOf(r, cars[j]).eliminated == cars[j].left
    {
      NobodyOut(r.racers, cars[j].id);
    }
  }

  lemma WaitingRace(h: Host, p: RaceParams)
    requires p.Valid() && CarsById(h.cars) && forall j | 0 <= j < |h.cars| :: FromCars(Publish(h.race, h.cars).cars)[j].Live()
    ensures var b := RestoredWaiting(h, p); !b.started && !b.finished && forall r | r in b.racers :: r.Live()
  {
    hide Ranked, RecordOf, MaxOrder;
    CarsSorted(h.race, h.cars);
    RankedLive(FromCars(Publish(h.race, h.cars).cars), p);
  }

  lemma WaitingPromoted(h: Host, p: RaceParams)
    requires p.Valid() && CarsById(h.cars) && Waiting(h) && h.clock.active
    ensures Waiting(Promoted(h, p))
  {
    hide RestoredWaiting, CarsTaken, Publish, HasCar;
    MarksKept(h.race, h.cars);
    WaitingRace(h, p);
    forall id | id in h.early
      ensures HasCar(CarsTaken(h.race, h.cars), id)
    {
      SameIdsHave(h.cars, CarsTaken(h.race, h.cars), id);
    }
  }

  lemma NobodyOut(rs: seq<Racer>, id: int)
    requires forall r | r in rs :: r.Live()
    ensures var i := IndexOf(rs, id); i < |rs| ==> rs[i].eliminatedOrder == 0
  {
    hide IndexOf;
    assert IndexOf(rs, id) < |rs| ==> rs[IndexOf(rs, id)] in rs;
  }

  lemma RankedLive(rs: seq<Racer>, p: RaceParams)
    requires ById(rs) && forall i | 0 <= i < |rs| :: rs[i].Live()
    ensures forall r | r in Ranked(rs, p) :: r.Live()
  {
    hide Ranked;
    RankedIds(rs, p);
    forall r | r in Ranked(rs, p)
      ensures r.Live()
    {
      var i :| 0 <= i < |Ranked(rs, p)| && Ranked(rs, p)[i] == r;
      assert rs[i].Live();
    }
  }

  lemma SameIdsHave(a: seq<HostCar>, b: seq<HostCar>, id: int)
    requires |a| == |b| && forall j | 0 <= j < |a| :: a[j].id == b[j].id
    ensures HasCar(a, id) ==> HasCar(b, id)
  {
    if HasCar(a, id) {
      var j :| 0 <= j < |a| && a[j].id == id;
      assert b[j].id == id;
    }
  }

  // With no car outside the race, the promoted host's racers have their cars, driven while
  // they are in.
  lemma PromotedMembers(r: Race, cars: seq<HostCar>, p: RaceParams)
    requires Publishable(r, p) && CarsById(cars) && Members(r.racers, cars, [])
    ensures Members(Restored(r, cars, p).racers, CarsTaken(r, cars), [])
  {
    hide Restored, Ranked, IndexOf, HasCar, Driven;
    OutsideIsGone(r, cars, []);
    TakenFrom(r, cars, p);
    var b, taken, rs := Restored(r, cars, p).racers, CarsTaken(r, cars), FromCars(Publish(r, cars).cars);
    RankedIds(rs, p);
    forall i | 0 <= i < |b|
      ensures Manned(taken, b[i])
    {
      assert Manned(cars, r.racers[i]);
      OwnCar(r, cars, i);
    }
    forall j | 0 <= j < |taken|
      ensures IndexOf(b, taken[j].id) < |b|
    {
      assert b[j].id == taken[j].id;
      IndexOfId(b, j);
    }
  }

  lemma RankedIds(rs: seq<Racer>, p: RaceParams)
    requires ById(rs)
    ensures var b := Ranked(rs, p);
            |b| == |rs| && ById(b) && forall i | 0 <= i < |rs| :: b[i].id == rs[i].id && b[i].eliminatedOrder == rs[i].eliminatedOrder
  {
    hide LiveOrder, PlaceOf;
  }

  lemma OwnCar(r: Race, cars: seq<HostCar>, i: nat)
    requires ById(r.racers) && CarsById(cars) && i < |cars| && i < |r.racers| && cars[i].id == r.racers[i].id && Manned(cars, r.racers[i])
    ensures HasCar(CarsTaken(r, cars), r.racers[i].id) && (r.racers[i].Live() ==> Driven(CarsTaken(r, cars), r.racers[i].id))
  {
    var taken := CarsTaken(r, cars);
    IndexOfId(r.racers, i);
    assert taken[i].id == r.racers[i].id;
    if r.racers[i].Live() {
      var j :| 0 <= j < |cars| && cars[j].id == r.racers[i].id && !cars[j].left;
      assert j == i && !taken[i].left;
    }
  }

  // A race that is on is on for the promoted host, with the same field.
  lemma RunningPromoted(r: Race, cars: seq<HostCar>, p: RaceParams)
    requires p.Valid() && RaceOk(r, p) && !r.finished && CarsById(cars) && AllHaveCars(r, cars) && NoCarOutside(r, cars)
    ensures var b := Restored(r, cars, p); !b.finished && Running(b, |b.racers|, p)
  {
    hide Restored, Ranked, LiveCount, OrdersExact, LineUp, Settled, AllHaveCars, NoCarOutside, CarsCarryRace;
    RacePublishable(r, p);
    RestoredHead(r, cars, p);
    RestoredLine(r, cars, p);
    LineSays(r.racers, r.eliminatedCount, |r.racers|);
  }

  lemma LineSays(rs: seq<Racer>, count: nat, n: nat)
    requires LineUp(rs, count, n)
    ensures |rs| == n
  {
  }

  lemma RestoredLine(r: Race, cars: seq<HostCar>, p: RaceParams)
    requires p.Valid() && RaceOk(r, p) && !r.finished && CarsById(cars) && AllHaveCars(r, cars) && NoCarOutside(r, cars)
    ensures var b := Restored(r, cars, p);
            LineUp(b.racers, b.eliminatedCount, |b.racers|) && LiveCount(b.racers) == LiveCount(r.racers)
  {
    hide Restored, Ranked, LiveCount, OrdersExact, PlacesRight, Settled, AllHaveCars, NoCarOutside, CarsCarryRace, SameBehaviour, MaxOrder;
    RacePublishable(r, p);
    TakenFrom(r, cars, p);
    MigratesAgain(r, cars, p);
    RestoredHead(r, cars, p);
    var rs := FromCars(Publish(r, cars).cars);
    RankedIds(rs, p);
    RankedPlaces(rs, p);
    SameLiveIndices(rs, r.racers, |rs|);
    SameCount(rs, r.racers);
    OrderCounted(r, Publish(r, cars).cars);
    OrdersOf(Restored(r, cars, p), p);
  }

  lemma OrdersOf(r: Race, p: RaceParams)
    requires Publishable(r, p)
    ensures OrdersExact(r.racers, r.eliminatedCount)
  {
  }

  // What a restored race takes over besides the racers.
  lemma RestoredHead(r: Race, cars: seq<HostCar>, p: RaceParams)
    requires CarsById(cars) && r.timer >= 0.0 && (r.finished <==> r.winnerId != 0)
    ensures var b := Restored(r, cars, p);
            && b.started && b.finished == r.finished && b.timer == r.timer && b.stage == r.stage && b.winnerId == r.winnerId
            && b.eliminatedCount == MaxOrder(Publish(r, cars).cars)
  {
    hide Ranked, MaxOrder;
  }

  // A decided race is decided for the promoted host, the same racer placed first.
  lemma DecidedPromoted(r: Race, cars: seq<HostCar>, p: RaceParams)
    requires p.Valid() && RaceOk(r, p) && r.finished && CarsById(cars) && AllHaveCars(r, cars) && NoCarOutside(r, cars)
    requires LiveCount(r.racers) == 1 || CarsCarryRace(r, cars)
    ensures var b := Restored(r, cars, p); b.finished && Decided(b) && LiveCount(b.racers) == LiveCount(r.racers)
  {
    hide Restored, LiveCount, Settled, OrdersExact, AllHaveCars, NoCarOutside, CarsCarryRace, SightOf, Look, HostMigration.After;
    RacePublishable(r, p);
    RestoreFaithful(r, cars, p);
    var b := Restored(r, cars, p);
    SeenAlike(b, r, p);
    SameLook(b, r);
    forall i | 0 <= i < |b.racers|
      ensures b.racers[i].id == r.racers[i].id && b.racers[i].place == r.racers[i].place && b.racers[i].Live() == r.racers[i].Live()
    {
      SightSays(b.racers[i], r.racers[i]);
    }
    SameLiveIndices(b.racers, r.racers, |b.racers|);
    SameCount(b.racers, r.racers);
  }

  lemma SeenAlike(a: Race, b: Race, p: RaceParams)
    requires |p.stageTimes| == 6 && ById(a.racers) && ById(b.racers) && SameBehaviour(a, b, p)
    ensures Look(a, []) == Look(b, [])
  {
    assert Observed(a, [], p) == Observed(b, [], p);
  }

  lemma SightSays(a: Racer, b: Racer)
    requires SightOf(a) == SightOf(b)
    ensures a.id == b.id && a.place == b.place && a.Live() == b.Live()
  {
  }

  lemma RacedPromoted(h: Host, p: RaceParams)
    requires p.Valid() && CarsById(h.cars) && ById(h.race.racers) && Raced(h, p) && h.clock.active
    requires h.race.started && h.early == [] && h.late == []
    ensures Raced(Promoted(h, p), p)
  {
    hide Restored, RaceOk, Members, CarsCarryRace, LiveCount, CarsTaken, Running, Decided, Settled, OrdersExact, NoCarOutside, AllHaveCars;
    assert h.early + h.late == [];
    var b := Restored(h.race, h.cars, p);
    RacePublishable(h.race, p);
    OutsideIsGone(h.race, h.cars, []);
    PromotedMembers(h.race, h.cars, p);
    MigratesAgain(h.race, h.cars, p);
    if h.race.finished {
      DecidedPromoted(h.race, h.cars, p);
    } else {
      RunningPromoted(h.race, h.cars, p);
    }
    PromotedRaceOk(b, p);
  }

  lemma PromotedRaceOk(b: Race, p: RaceParams)
    requires p.Valid() && Publishable(b, p) && if b.finished then Decided(b) else Running(b, |b.racers|, p)
    ensures RaceOk(b, p)
  {
  }

  // A promoted host is as good as one that began the match, unless somebody outside the
  // race has come back with it.
  lemma PromotedKeeps(h: Host, p: RaceParams)
    requires p.Valid() && HostOk(h, p) && ById(h.race.racers) && Clean(h)
    ensures HostOk(Promoted(h, p), p)
  {
    hide Restored, Raced, Waiting, RestoredWaiting, ById;
    if h.clock.active {
      TakenIds(h);
      if h.clock.phase == Countdown {
        WaitingPromoted(h, p);
      } else {
        RestoredStarts(h.race, h.cars, p);
        if h.lined >= 2 {
          RacedPromoted(h, p);
        }
      }
    }
  }

  lemma TakenIds(h: Host)
    requires CarsById(h.cars) && forall j | 0 <= j < |h.cars| :: h.cars[j].id != 0
    ensures forall j | 0 <= j < |CarsTaken(h.race, h.cars)| :: CarsTaken(h.race, h.cars)[j].id != 0
  {
  }

  lemma RestoredStarts(r: Race, cars: seq<HostCar>, p: RaceParams)
    requires CarsById(cars)
    ensures Restored(r, cars, p).started
  {
    hide Ranked;
  }

  // ---- every run --------------------------------------------------------------------

  // Whenever the host is replaced after the green light, nobody is left outside the race.
  ghost predicate CleanMigrations(h: Host, events: seq<Event>, c: Config, p: RaceParams)
    requires CarsById(h.cars) && ById(h.race.racers) && |p.stageTimes| == 6
  {
    forall k | 0 <= k < |events| && events[k].Migration? :: Clean(HostRun(h, events[..k], c, p))
  }

  ghost predicate Clean(t: Host) {
    t.race.started ==> t.early == [] && t.late == []
  }

  lemma {:induction false} HostRunKeeps(h: Host, events: seq<Event>, c: Config, p: RaceParams)
    requires p.Valid() && c.dt > 0.0 && HostOk(h, p) && ById(h.race.racers) && CleanMigrations(h, events, c, p)
    ensures HostOk(HostRun(h, events, c, p), p)
  {
    assert CarsById(h.cars);
    hide HostAfter, HostOk, Clean, CarsById, ById;
    if events != [] {
      var n := |events| - 1;
      var front := events[..n];
      assert forall k | 0 <= k < n :: front[k] == events[k] && front[..k] == events[..k];
      HostRunKeeps(h, front, c, p);
      assert events[n].Migration? ==> Clean(HostRun(h, events[..n], c, p));
      HostAfterKeeps(HostRun(h, front, c, p), events[n], c, p);
    }
  }

  lemma HostAfterKeeps(h: Host, e: Event, c: Config, p: RaceParams)
    requires p.Valid() && c.dt > 0.0 && HostOk(h, p) && ById(h.race.racers) && (e.Migration? ==> Clean(h))
    ensures HostOk(HostAfter(h, e, c, p), p)
  {
    assert CarsById(h.cars);
    hide HostTicked, PlayerLeft, Promoted, HostOk, Clean, CarsById, ById;
    match e
    case HostTick(moved) => HostTickKeeps(h, moved, c, p);
    case Departure(id) => DepartureKeeps(h, id, p);
    case Migration => PromotedKeeps(h, p);
  }

  // A match begins that way.
  lemma BeginningOk(h: Host, c: Config, p: RaceParams)
    requires p.Valid() && Begins(h, c)
    ensures HostOk(h, p)
  {
  }

  lemma OutsideIsGone(r: Race, cars: seq<HostCar>, gone: seq<int>)
    requires Members(r.racers, cars, gone)
    ensures NoCarOutside(r, cars) <==> gone == []
    ensures AllHaveCars(r, cars)
  {
    hide IndexOf;
    if gone != [] {
      var id := gone[0];
      assert HasCar(cars, id);
      var j: int :| 0 <= j < |cars| && cars[j].id == id;
      assert IndexOf(r.racers, cars[j].id) == |r.racers|;
    }
    forall i | 0 <= i < |r.racers|
      ensures HasCar(cars, r.racers[i].id)
    {
      assert Manned(cars, r.racers[i]);
    }
  }

  ghost predicate Replaceable(t: Host, p: RaceParams)
    requires CarsById(t.cars) && ById(t.race.racers) && |p.stageTimes| == 6
  {
    SameBehaviour(Restored(t.race, t.cars, p), t.race, p)
  }

  lemma WholeReplaceable(t: Host, p: RaceParams)
    requires p.Valid() && CarsById(t.cars) && ById(t.race.racers) && Raced(t, p) && t.late == []
    ensures Replaceable(t, p) <==> t.early == [] && (t.inStep || t.race.finished || CarsCarryRace(t.race, t.cars))
  {
    hide RaceOk, Members, CarsCarryRace, SameBehaviour, Restored, NoCarOutside, AllHaveCars, LiveCount;
    assert t.early + t.late == t.early;
    OutsideIsGone(t.race, t.cars, t.early);
    RacePublishable(t.race, p);
    RestoreFaithful(t.race, t.cars, p);
  }

  lemma LateSeen(t: Host, p: RaceParams)
    requires p.Valid() && CarsById(t.cars) && ById(t.race.racers) && Raced(t, p) && t.late != []
    ensures !Replaceable(t, p)
  {
    hide RaceOk, Members, CarsCarryRace, SameBehaviour, Restored, NoCarOutside, AllHaveCars, LiveCount;
    assert |t.early + t.late| > 0;
    OutsideIsGone(t.race, t.cars, t.early + t.late);
    OutsiderSeen(t.race, t.cars, p);
  }

  lemma RacedAlways(h: Host, events: seq<Event>, c: Config, p: RaceParams)
    requires p.Valid() && c.dt > 0.0 && HostOk(h, p) && ById(h.race.racers) && CleanMigrations(h, events, c, p)
    requires HostRun(h, events, c, p).race.started && HostRun(h, events, c, p).lined >= 2
    ensures Raced(HostRun(h, events, c, p), p)
  {
    hide HostRun, Raced;
    HostRunKeeps(h, events, c, p);
  }

  // After any run of a match in which at least two lined up, earlier migrations included: a
  // race restored from what
  // the host publishes behaves like the host's under everything that can follow exactly
  // when nobody left before the start, nobody was dropped after the finish, and the race
  // has taken in where the cars stand, unless it is decided or they stand as it has them.
  lemma HostReplaceable(h: Host, events: seq<Event>, c: Config, p: RaceParams)
    requires p.Valid() && c.dt > 0.0 && HostOk(h, p) && ById(h.race.racers) && CleanMigrations(h, events, c, p)
    requires HostRun(h, events, c, p).race.started && HostRun(h, events, c, p).lined >= 2
    ensures var t := HostRun(h, events, c, p);
            Replaceable(t, p) <==>
              t.early == [] && t.late == [] && (t.inStep || t.race.finished || CarsCarryRace(t.race, t.cars))
  {
    hide HostRun, Raced, CarsCarryRace, Replaceable;
    RacedAlways(h, events, c, p);
    if HostRun(h, events, c, p).late == [] {
      WholeReplaceable(HostRun(h, events, c, p), p);
    } else {
      LateSeen(HostRun(h, events, c, p), p);
    }
  }

  lemma RacePublishable(r: Race, p: RaceParams)
    requires p.Valid() && RaceOk(r, p)
    ensures Publishable(r, p) && (!r.finished ==> LiveCount(r.racers) >= 2 && r.timer > 0.0)
  {
    hide LiveCount;
  }
}
