/** A race restored from the published snapshot goes on exactly like the original. */
module HostMigration {
  import opened Basics
  import opened RaceRules
  import opened RaceRuns
  import opened Snapshots
  import opened Sorting

  // The host's car of a player: kept, marked as left, when the player leaves.
  datatype HostCar = HostCar(id: int, distance: real, left: bool)

  ghost predicate CarsById(cars: seq<HostCar>) {
    forall i, j | 0 <= i < j < |cars| :: cars[i].id < cars[j].id
  }

  function RecordOf(r: Race, car: HostCar): CarRecord {
    var i := IndexOf(r.racers, car.id);
    var order := if i < |r.racers| then r.racers[i].eliminatedOrder else 0;
    var place := if r.started && i < |r.racers| then r.racers[i].place else 0;
    CarRecord(car.id, car.distance, order, place, order != 0 || car.left)
  }

  // The snapshot of a race that is on or decided.
  function Publish(r: Race, cars: seq<HostCar>): Snapshot {
    Snapshot(if r.finished then Results else Racing,
             if r.timer < 0.0 then 0.0 else r.timer,
             r.stage, r.lastPlaceId, r.winnerId,
             seq(|cars|, i requires 0 <= i < |cars| => RecordOf(r, cars[i])))
  }

  // Places and multipliers are those of the distances, as after every update.
  ghost predicate Settled(r: Race, p: RaceParams) {
    ById(r.racers) && r.racers == Ranked(r.racers, p)
  }

  ghost predicate HasCar(cars: seq<HostCar>, id: int) {
    exists j :: 0 <= j < |cars| && cars[j].id == id
  }

  ghost predicate AllHaveCars(r: Race, cars: seq<HostCar>) {
    forall i | 0 <= i < |r.racers| :: HasCar(cars, r.racers[i].id)
  }

  // Every racer has a car, and the cars still in stand where the race has them.
  ghost predicate CarsCarryRace(r: Race, cars: seq<HostCar>) {
    forall i | 0 <= i < |r.racers| :: Carried(cars, r.racers[i])
  }

  ghost predicate Carried(cars: seq<HostCar>, racer: Racer) {
    exists j :: 0 <= j < |cars| && CarriesRacer(cars[j], racer)
  }

  predicate CarriesRacer(car: HostCar, racer: Racer) {
    car.id == racer.id && (racer.Live() ==> car.distance == racer.distance)
  }

  // No car is outside the race, as one would be whose player left before the start.
  ghost predicate NoCarOutside(r: Race, cars: seq<HostCar>) {
    forall j | 0 <= j < |cars| :: IndexOf(r.racers, cars[j].id) < |r.racers|
  }

  // ---- what can be told apart ---------------------------------------------

  datatype Sight = Sight(id: int, order: nat, place: nat, multiplier: real)

  function SightOf(racer: Racer): Sight {
    Sight(racer.id, racer.eliminatedOrder, racer.place, if racer.Live() then racer.multiplier else 0.0)
  }

  datatype Observation = Observation(
    started: bool, finished: bool, timer: real, stage: nat, lastPlaceId: int, winnerId: int,
    racers: seq<Sight>, events: seq<seq<Event>>)

  function Look(r: Race, events: seq<seq<Event>>): Observation {
    Observation(r.started, r.finished, r.timer, r.stage, r.lastPlaceId, r.winnerId,
                seq(|r.racers|, i requires 0 <= i < |r.racers| => SightOf(r.racers[i])), events)
  }

  // The race after the operations, and the events of each.
  ghost function After(r: Race, ops: seq<Op>, p: RaceParams): (out: (Race, seq<seq<Event>>))
    requires ById(r.racers) && |p.stageTimes| == 6
    ensures ById(out.0.racers)
  {
    if ops == [] then (r, [])
    else
      var (before, events) := After(r, ops[..|ops| - 1], p);
      var (race, last) := Step(before, ops[|ops| - 1], p);
      (race, events + [last])
  }

  ghost function Observed(r: Race, ops: seq<Op>, p: RaceParams): Observation
    requires ById(r.racers) && |p.stageTimes| == 6
  {
    Look(After(r, ops, p).0, After(r, ops, p).1)
  }

  ghost predicate SameBehaviour(a: Race, b: Race, p: RaceParams)
    requires ById(a.racers) && ById(b.racers) && |p.stageTimes| == 6
  {
    forall ops :: Observed(a, ops, p) == Observed(b, ops, p)
  }

  // ---- the simulation -----------------------------------------------------

  // Equal but for the distance and multiplier of racers that are out.
  ghost predicate SimRacer(a: Racer, b: Racer) {
    && a.id == b.id && a.eliminatedOrder == b.eliminatedOrder && a.place == b.place
    && (a.Live() ==> a == b)
  }

  ghost predicate SimRacers(a: seq<Racer>, b: seq<Racer>) {
    |a| == |b| && forall i | 0 <= i < |a| :: SimRacer(a[i], b[i])
  }

  ghost predicate Sim(a: Race, b: Race) {
    && ById(a.racers) && ById(b.racers) && SimRacers(a.racers, b.racers)
    && a.started == b.started && a.finished == b.finished && a.timer == b.timer && a.stage == b.stage
    && a.lastPlaceId == b.lastPlaceId && a.winnerId == b.winnerId
    && (!a.finished ==> a.eliminatedCount == b.eliminatedCount)
  }

  lemma SimIndex(a: seq<Racer>, b: seq<Racer>, id: int)
    requires SimRacers(a, b)
    ensures IndexOf(a, id) == IndexOf(b, id)
  {
  }

  lemma {:induction false} SimProgress(a: seq<Racer>, b: seq<Racer>, progress: seq<Progress>)
    requires SimRacers(a, b)
    ensures SimRacers(ApplyProgress(a, progress), ApplyProgress(b, progress))
    decreases |progress|
  {
    if progress != [] {
      SimIndex(a, b, progress[0].playerId);
      var i, d := IndexOf(a, progress[0].playerId), progress[0].distance;
      if i < |a| {
        SimProgress(a[i := a[i].(distance := d)], b[i := b[i].(distance := d)], progress[1..]);
      } else {
        SimProgress(a, b, progress[1..]);
      }
    }
  }

  // Ranking needs only who is in and where: what is out may differ before it.
  lemma SimRanked(a: seq<Racer>, b: seq<Racer>, p: RaceParams)
    requires ById(a) && ById(b) && SameField(a, b)
    requires forall i | 0 <= i < |a| :: a[i].eliminatedOrder == b[i].eliminatedOrder
    ensures SimRacers(Ranked(a, p), Ranked(b, p))
  {
    hide RankedRacer, LiveOrder, PlaceOf, LiveCount;
    SamePlaces(a, b);
    forall i | 0 <= i < |a|
      ensures SimRacer(Ranked(a, p)[i], Ranked(b, p)[i])
    {
      SimRankedRacer(a, b, i, p);
    }
  }

  lemma SimRankedRacer(a: seq<Racer>, b: seq<Racer>, i: nat, p: RaceParams)
    requires ById(a) && ById(b) && SameField(a, b) && i < |a| && a[i].eliminatedOrder == b[i].eliminatedOrder
    requires LiveOrder(a) == LiveOrder(b) && PlaceOf(a, i) == PlaceOf(b, i)
    ensures SimRacer(RankedRacer(a, i, p), RankedRacer(b, i, p))
  {
    hide LiveOrder, PlaceOf, MultiplierAt;
    LiveOrderMembers(a);
    if a[i].Live() {
      PlaceInOrder(a, i);
      SameMultiplier(a, b, LiveOrder(a), PlaceOf(a, i) - 1, p);
    }
  }

  lemma SameMultiplier(a: seq<Racer>, b: seq<Racer>, order: seq<int>, k: nat, p: RaceParams)
    requires k < |order| && |a| == |b| && forall m | 0 <= m < |order| :: 0 <= order[m] < |a|
    requires forall m | 0 <= m < |order| :: a[order[m]].distance == b[order[m]].distance
    ensures MultiplierAt(a, order, k, p) == MultiplierAt(b, order, k, p)
  {
  }

  lemma SimField(a: seq<Racer>, b: seq<Racer>)
    requires SimRacers(a, b)
    ensures SameField(a, b) && LiveCount(a) == LiveCount(b) && CurrentLast(a) == CurrentLast(b)
  {
    SameLiveIndices(a, b, |a|);
    SimWorst(a, b, |a|);
  }

  lemma {:induction false} SimWorst(a: seq<Racer>, b: seq<Racer>, n: nat)
    requires SimRacers(a, b) && n <= |a|
    ensures WorstPlace(a, n) == WorstPlace(b, n)
  {
    if n != 0 {
      SimWorst(a, b, n - 1);
      assert SimRacer(a[n - 1], b[n - 1]);
    }
  }

  lemma EliminateIs(r: Race, id: int, p: RaceParams)
    requires |p.stageTimes| == 6 && ById(r.racers)
    ensures var i := IndexOf(r.racers, id);
            if i < |r.racers| && r.racers[i].Live() then
              Eliminate(r, id, p) == OutWith(r, Ranked(r.racers[i := r.racers[i].(eliminatedOrder := r.eliminatedCount + 1)], p), id, p)
            else Eliminate(r, id, p) == (r, [])
  {
    hide IndexOf, Ranked, CurrentLast, LiveCount;
  }

  // Ranking again after the same racer went out.
  lemma SimOut(a: seq<Racer>, b: seq<Racer>, i: nat, count: nat, p: RaceParams)
    requires SimRacers(a, b) && ById(a) && ById(b) && i < |a| && a[i].Live() && count > 0
    ensures var oa, ob := a[i := a[i].(eliminatedOrder := count)], b[i := b[i].(eliminatedOrder := count)];
            && ById(oa) && ById(ob) && SimRacers(Ranked(oa, p), Ranked(ob, p))
  {
    hide Ranked;
    var oa, ob := a[i := a[i].(eliminatedOrder := count)], b[i := b[i].(eliminatedOrder := count)];
    forall k | 0 <= k < |a|
      ensures oa[k].id == ob[k].id && oa[k].eliminatedOrder == ob[k].eliminatedOrder && (oa[k].Live() ==> oa[k].distance == ob[k].distance)
    {
      assert SimRacer(a[k], b[k]);
    }
    SimRanked(oa, ob, p);
  }

  lemma SimOutWith(a: Race, b: Race, ra: seq<Racer>, rb: seq<Racer>, id: int, p: RaceParams)
    requires Sim(a, b) && !a.finished && |p.stageTimes| == 6 && ById(ra) && ById(rb) && SimRacers(ra, rb)
    ensures Sim(OutWith(a, ra, id, p).0, OutWith(b, rb, id, p).0) && OutWith(a, ra, id, p).1 == OutWith(b, rb, id, p).1
  {
    hide CurrentLast, LiveCount, SimRacers, ById;
    SimField(ra, rb);
  }

  lemma SimEliminate(a: Race, b: Race, id: int, p: RaceParams)
    requires Sim(a, b) && !a.finished && |p.stageTimes| == 6
    ensures Sim(Eliminate(a, id, p).0, Eliminate(b, id, p).0) && Eliminate(a, id, p).1 == Eliminate(b, id, p).1
  {
    hide Ranked, Eliminate, OutWith, IndexOf;
    SimIndex(a.racers, b.racers, id);
    EliminateIs(a, id, p);
    EliminateIs(b, id, p);
    var i, count := IndexOf(a.racers, id), a.eliminatedCount + 1;
    if i < |a.racers| {
      assert SimRacer(a.racers[i], b.racers[i]);
      if a.racers[i].Live() {
        SimOut(a.racers, b.racers, i, count, p);
        var oa := a.racers[i := a.racers[i].(eliminatedOrder := count)];
        var ob := b.racers[i := b.racers[i].(eliminatedOrder := count)];
        SimOutWith(a, b, Ranked(oa, p), Ranked(ob, p), id, p);
      }
    }
  }

  lemma SimOnTheClock(a: seq<Racer>, b: seq<Racer>, lastPlaceId: int, p: RaceParams)
    requires SimRacers(a, b) && PlacesRight(a) && ById(a)
    ensures OnTheClock(a, lastPlaceId, p) == OnTheClock(b, lastPlaceId, p)
  {
    SimField(a, b);
    SimIndex(a, b, lastPlaceId);
    SimIndex(a, b, CurrentLast(a));
    var cur := IndexOf(a, lastPlaceId);
    if cur < |a| && a[cur].Live() {
      LiveOrderMembers(a);
      PlaceInOrder(a, cur);
      var last := CurrentLastIsLast(a);
      IndexOfId(a, last);
    }
  }

  lemma SimStep(a: Race, b: Race, op: Op, p: RaceParams)
    requires Sim(a, b) && |p.stageTimes| == 6
    ensures Sim(Step(a, op, p).0, Step(b, op, p).0) && Step(a, op, p).1 == Step(b, op, p).1
  {
    match op
    case Tick(progress, dt) => SimUpdate(a, b, progress, dt, p);
    case Leave(id) =>
      if a.started && !a.finished {
        SimEliminate(a, b, id, p);
      } else {
        SimDropped(a.racers, b.racers, id);
      }
    case TimeCap => SimTimeCap(a, b, p);
  }

  lemma SimTimeCap(a: Race, b: Race, p: RaceParams)
    requires Sim(a, b)
    ensures Sim(FinishByLeader(a, p), FinishByLeader(b, p))
  {
    hide Ranked;
    if a.started && !a.finished {
      SimField(a.racers, b.racers);
      SimRanked(a.racers, b.racers, p);
      var ra, rb := Ranked(a.racers, p), Ranked(b.racers, p);
      SimLeader(ra, rb, |ra|, a.winnerId);
    }
  }

  lemma SimTicked(a: Race, b: Race, dt: real, p: RaceParams)
    requires Sim(a, b) && PlacesRight(a.racers) && |p.stageTimes| == 6
    ensures Sim(TickClock(a, dt, p).0, TickClock(b, dt, p).0) && TickClock(a, dt, p).1 == TickClock(b, dt, p).1
  {
    hide OnTheClock, PlacesRight, SimRacers, ById;
    SimOnTheClock(a.racers, b.racers, a.lastPlaceId, p);
  }

  lemma SimRankedRace(a: Race, b: Race, progress: seq<Progress>, p: RaceParams)
    requires Sim(a, b)
    ensures Sim(RankedRace(a, progress, p), RankedRace(b, progress, p)) && PlacesRight(RankedRace(a, progress, p).racers)
  {
    hide Ranked, PlacesRight;
    var ma, mb := ApplyProgress(a.racers, progress), ApplyProgress(b.racers, progress);
    SimProgress(a.racers, b.racers, progress);
    SimField(ma, mb);
    SimRanked(ma, mb, p);
    RankedPlaces(ma, p);
  }

  lemma SimUpdate(a: Race, b: Race, progress: seq<Progress>, dt: real, p: RaceParams)
    requires Sim(a, b) && |p.stageTimes| == 6
    ensures Sim(Update(a, progress, dt, p).0, Update(b, progress, dt, p).0)
    ensures Update(a, progress, dt, p).1 == Update(b, progress, dt, p).1
  {
    hide Ranked, TickClock, Eliminate, PlacesRight;
    if a.started && !a.finished {
      SimRankedRace(a, b, progress, p);
      var ra, rb := RankedRace(a, progress, p), RankedRace(b, progress, p);
      TickKeepsFinished(ra, dt, p);
      TickKeepsFinished(rb, dt, p);
      SimTicked(ra, rb, dt, p);
      SimEliminate(TickClock(ra, dt, p).0, TickClock(rb, dt, p).0, TickClock(ra, dt, p).0.lastPlaceId, p);
    }
  }

  lemma TickKeepsFinished(a: Race, dt: real, p: RaceParams)
    requires |p.stageTimes| == 6
    ensures TickClock(a, dt, p).0.finished == a.finished && TickClock(a, dt, p).0.racers == a.racers
  {
  }

  lemma {:induction false} SimLeader(a: seq<Racer>, b: seq<Racer>, n: nat, none: int)
    requires SimRacers(a, b) && n <= |a|
    ensures Leader(a, n, none) == Leader(b, n, none)
  {
    if n != 0 {
      SimLeader(a, b, n - 1, none);
      assert SimRacer(a[n - 1], b[n - 1]);
    }
  }

  lemma {:induction false} SimDropped(a: seq<Racer>, b: seq<Racer>, id: int)
    requires SimRacers(a, b)
    ensures SimRacers(Dropped(a, id), Dropped(b, id))
  {
    if a != [] {
      assert SimRacer(a[0], b[0]);
      SimDropped(a[1..], b[1..], id);
    }
  }

  lemma {:induction false} SimAfter(a: Race, b: Race, ops: seq<Op>, p: RaceParams)
    requires Sim(a, b) && |p.stageTimes| == 6
    ensures Sim(After(a, ops, p).0, After(b, ops, p).0) && After(a, ops, p).1 == After(b, ops, p).1
  {
    assert ById(a.racers) && ById(b.racers);
    hide Step, Sim;
    if ops == [] {
    } else {
      SimAfter(a, b, ops[..|ops| - 1], p);
      SimStep(After(a, ops[..|ops| - 1], p).0, After(b, ops[..|ops| - 1], p).0, ops[|ops| - 1], p);
    }
  }

  lemma SimLooks(a: Race, b: Race, events: seq<seq<Event>>)
    requires Sim(a, b)
    ensures Look(a, events) == Look(b, events)
  {
    forall i | 0 <= i < |a.racers|
      ensures SightOf(a.racers[i]) == SightOf(b.racers[i])
    {
      assert SimRacer(a.racers[i], b.racers[i]);
    }
  }

  // ---- restoring ----------------------------------------------------------

  lemma CarsSorted(r: Race, cars: seq<HostCar>)
    requires CarsById(cars)
    ensures var rs := FromCars(Publish(r, cars).cars); ById(rs) && SortBy(rs, ID_ORDER) == rs
  {
    var rs := FromCars(Publish(r, cars).cars);
    assert forall i | 0 <= i < |rs| :: rs[i].id == cars[i].id;
    AlreadySorted(rs);
  }

  lemma AlreadySorted(rs: seq<Racer>)
    requires ById(rs)
    ensures SortBy(rs, ID_ORDER) == rs
  {
    SortBySorts(rs, ID_ORDER);
    SortingUnique(SortBy(rs, ID_ORDER), rs, ID_ORDER);
  }

  // The new host's race.
  ghost function Restored(r: Race, cars: seq<HostCar>, p: RaceParams): (b: Race)
    requires CarsById(cars)
    ensures ById(b.racers)
  {
    CarsSorted(r, cars);
    Restore(Publish(r, cars), p)
  }

  lemma {:induction false} IncreasingUnique(s: seq<int>, t: seq<int>)
    requires Increasing(s) && Increasing(t) && forall x :: x in s <==> x in t
    ensures s == t
  {
    BothEmpty(s, t);
    BothEmpty(t, s);
    if s != [] && t != [] {
      var m, n := |s| - 1, |t| - 1;
      SameLast(s, t);
      forall x
        ensures x in s[..m] <==> x in t[..n]
      {
        AllButLast(s, x);
        AllButLast(t, x);
      }
      IncreasingUnique(s[..m], t[..n]);
      assert s == s[..m] + [s[m]] && t == t[..n] + [t[n]];
    }
  }

  lemma BothEmpty(s: seq<int>, t: seq<int>)
    requires forall x :: x in s ==> x in t
    ensures s != [] ==> t != []
  {
    if s != [] {
      var x := s[0];
      assert x in s;
    }
  }

  lemma SameLast(s: seq<int>, t: seq<int>)
    requires Increasing(s) && Increasing(t) && s != [] && t != [] && forall x :: x in s <==> x in t
    ensures s[|s| - 1] == t[|t| - 1]
  {
    assert s[|s| - 1] in s && t[|t| - 1] in t;
    assert s[|s| - 1] in t && t[|t| - 1] in s;
  }

  lemma AllButLast(s: seq<int>, x: int)
    requires Increasing(s) && s != []
    ensures x in s[..|s| - 1] <==> x in s && x != s[|s| - 1]
  {
  }

  ghost function CarIds(cars: seq<HostCar>): seq<int> {
    seq(|cars|, i requires 0 <= i < |cars| => cars[i].id)
  }

  ghost function RacerIds(rs: seq<Racer>): seq<int> {
    seq(|rs|, i requires 0 <= i < |rs| => rs[i].id)
  }

  lemma CarriedHasCars(r: Race, cars: seq<HostCar>)
    requires CarsCarryRace(r, cars)
    ensures AllHaveCars(r, cars)
  {
    forall i | 0 <= i < |r.racers|
      ensures HasCar(cars, r.racers[i].id)
    {
      assert Carried(cars, r.racers[i]);
    }
  }

  lemma SameIds(r: Race, cars: seq<HostCar>, x: int)
    requires AllHaveCars(r, cars) && NoCarOutside(r, cars)
    ensures x in CarIds(cars) <==> x in RacerIds(r.racers)
  {
    var s, t := CarIds(cars), RacerIds(r.racers);
    if x in s {
      var j :| 0 <= j < |s| && s[j] == x;
      assert t[IndexOf(r.racers, cars[j].id)] == x;
    }
    if x in t {
      var i :| 0 <= i < |t| && t[i] == x;
      assert HasCar(cars, r.racers[i].id);
      var j: int :| 0 <= j < |cars| && cars[j].id == r.racers[i].id;
      assert s[j] == x;
    }
  }

  // With no car outside the race, cars and racers match one to one.
  lemma CarsMatchRacers(r: Race, cars: seq<HostCar>)
    requires ById(r.racers) && CarsById(cars) && AllHaveCars(r, cars) && NoCarOutside(r, cars)
    ensures |cars| == |r.racers| && forall i | 0 <= i < |cars| :: cars[i].id == r.racers[i].id
  {
    hide IndexOf, NoCarOutside, AllHaveCars;
    var s, t := CarIds(cars), RacerIds(r.racers);
    forall x
      ensures x in s <==> x in t
    {
      SameIds(r, cars, x);
    }
    IncreasingUnique(s, t);
    assert forall i | 0 <= i < |cars| :: s[i] == cars[i].id && t[i] == r.racers[i].id;
  }

  // Then the cars carry the race exactly when each car stands where its racer does.
  lemma CarriedInPlace(r: Race, cars: seq<HostCar>)
    requires CarsById(cars) && |cars| == |r.racers| && forall i | 0 <= i < |cars| :: cars[i].id == r.racers[i].id
    ensures CarsCarryRace(r, cars) <==> forall i | 0 <= i < |cars| :: CarriesRacer(cars[i], r.racers[i])
  {
    forall i | 0 <= i < |r.racers|
      ensures Carried(cars, r.racers[i]) <==> CarriesRacer(cars[i], r.racers[i])
    {
      if Carried(cars, r.racers[i]) {
        var j :| 0 <= j < |cars| && CarriesRacer(cars[j], r.racers[i]);
        assert j == i;
      }
    }
  }

  lemma {:induction false} MaxOrderBounds(cars: seq<CarRecord>)
    ensures forall i | 0 <= i < |cars| :: cars[i].eliminatedOrder <= MaxOrder(cars)
    ensures MaxOrder(cars) == 0 || exists i :: 0 <= i < |cars| && cars[i].eliminatedOrder == MaxOrder(cars)
  {
    if cars != [] {
      MaxOrderBounds(cars[..|cars| - 1]);
    }
  }

  // What a race that is on or decided looks like when it is published.
  ghost predicate Publishable(r: Race, p: RaceParams) {
    && Settled(r, p) && r.started && r.timer >= 0.0 && (r.finished <==> r.winnerId != 0)
    && OrdersExact(r.racers, r.eliminatedCount)
  }

  // With no car outside the race, the racers a new host takes over are the racers by
  // id and order, standing where their cars do.
  lemma TakenFrom(r: Race, cars: seq<HostCar>, p: RaceParams)
    requires Publishable(r, p) && CarsById(cars) && AllHaveCars(r, cars) && NoCarOutside(r, cars)
    ensures var rs := FromCars(Publish(r, cars).cars);
            && ById(rs) && |rs| == |r.racers| == |cars| && Restored(r, cars, p).racers == Ranked(rs, p)
            && (forall i | 0 <= i < |rs| ::
                  && rs[i].id == r.racers[i].id == cars[i].id && rs[i].eliminatedOrder == r.racers[i].eliminatedOrder
                  && rs[i].distance == cars[i].distance)
            && (forall i | 0 <= i < |rs| :: rs[i].Live() == r.racers[i].Live())
  {
    hide Ranked, RankedRacer, AllHaveCars, NoCarOutside;
    CarsSorted(r, cars);
    CarsMatchRacers(r, cars);
    forall i | 0 <= i < |cars|
      ensures IndexOf(r.racers, cars[i].id) == i
    {
      IndexOfId(r.racers, i);
    }
  }

  lemma RestoredSimulates(r: Race, cars: seq<HostCar>, p: RaceParams)
    requires Publishable(r, p) && CarsById(cars) && CarsCarryRace(r, cars) && NoCarOutside(r, cars)
    ensures Sim(Restored(r, cars, p), r)
  {
    hide Ranked, RankedRacer, AllHaveCars, NoCarOutside, CarsCarryRace, IndexOf, OrdersExact;
    CarriedHasCars(r, cars);
    TakenFrom(r, cars, p);
    CarriedInPlace(r, cars);
    var rs := FromCars(Publish(r, cars).cars);
    assert forall i | 0 <= i < |cars| :: CarriesRacer(cars[i], r.racers[i]);
    SimRanked(rs, r.racers, p);
    OrderCounted(r, Publish(r, cars).cars);
  }

  lemma OrderCounted(r: Race, records: seq<CarRecord>)
    requires OrdersExact(r.racers, r.eliminatedCount) && |records| == |r.racers|
    requires forall i | 0 <= i < |records| :: records[i].eliminatedOrder == r.racers[i].eliminatedOrder
    ensures MaxOrder(records) == r.eliminatedCount
  {
    MaxOrderBounds(records);
    assert r.eliminatedCount == 0 || OrderGiven(r.racers, r.eliminatedCount);
  }

  lemma RestoreCarried(r: Race, cars: seq<HostCar>, p: RaceParams)
    requires |p.stageTimes| == 6 && Publishable(r, p) && CarsById(cars) && CarsCarryRace(r, cars) && NoCarOutside(r, cars)
    ensures SameBehaviour(Restored(r, cars, p), r, p)
  {
    RestoredSimulates(r, cars, p);
    SimBehaves(Restored(r, cars, p), r, p);
  }

  // Host migration keeps the race, under every later sequence of updates, departures
  // and the time cap, exactly when no car is outside the race and, as long as the race
  // is on, the cars stand where the race has them. A decided race with one racer left
  // no longer looks at distances, so there the cars may have driven on.
  lemma RestoreFaithful(r: Race, cars: seq<HostCar>, p: RaceParams)
    requires p.Valid() && Publishable(r, p) && CarsById(cars) && AllHaveCars(r, cars)
    requires if r.finished then LiveCount(r.racers) == 1 || CarsCarryRace(r, cars) else LiveCount(r.racers) >= 2 && r.timer > 0.0
    ensures SameBehaviour(Restored(r, cars, p), r, p) <==> NoCarOutside(r, cars) && (r.finished || CarsCarryRace(r, cars))
  {
    hide Publishable, Restored, CarsCarryRace, AllHaveCars, LiveCount, NoCarOutside, SameBehaviour;
    PublishableById(r, p);
    if !NoCarOutside(r, cars) {
      OutsiderSeen(r, cars, p);
    } else if CarsCarryRace(r, cars) {
      RestoreCarried(r, cars, p);
    } else if r.finished {
      RestoreDecided(r, cars, p);
    } else {
      DistanceSeen(r, cars, p);
    }
  }

  lemma PublishableById(r: Race, p: RaceParams)
    requires Publishable(r, p)
    ensures ById(r.racers)
  {
  }

  // ---- a decided race -------------------------------------------------------

  // Two decided races that look the same.
  ghost predicate DecidedAlike(a: Race, b: Race) {
    && ById(a.racers) && ById(b.racers) && a.started && b.started && a.finished && b.finished
    && Look(a, []) == Look(b, [])
  }

  lemma {:induction false} SightsDropped(a: seq<Racer>, b: seq<Racer>, id: int)
    requires |a| == |b| && forall i | 0 <= i < |a| :: SightOf(a[i]) == SightOf(b[i])
    ensures |Dropped(a, id)| == |Dropped(b, id)|
    ensures forall i | 0 <= i < |Dropped(a, id)| :: SightOf(Dropped(a, id)[i]) == SightOf(Dropped(b, id)[i])
  {
    if a != [] {
      assert SightOf(a[0]) == SightOf(b[0]);
      SightsDropped(a[1..], b[1..], id);
    }
  }

  lemma SameLook(a: Race, b: Race)
    ensures Look(a, []) == Look(b, []) <==>
              && a.started == b.started && a.finished == b.finished && a.timer == b.timer && a.stage == b.stage
              && a.lastPlaceId == b.lastPlaceId && a.winnerId == b.winnerId
              && |a.racers| == |b.racers| && forall i | 0 <= i < |a.racers| :: SightOf(a.racers[i]) == SightOf(b.racers[i])
  {
    if Look(a, []) == Look(b, []) {
      assert |Look(a, []).racers| == |Look(b, []).racers|;
      forall i | 0 <= i < |a.racers|
        ensures SightOf(a.racers[i]) == SightOf(b.racers[i])
      {
        assert Look(a, []).racers[i] == Look(b, []).racers[i];
      }
    }
  }

  lemma DecidedStep(a: Race, b: Race, op: Op, p: RaceParams)
    requires |p.stageTimes| == 6 && DecidedAlike(a, b)
    ensures DecidedAlike(Step(a, op, p).0, Step(b, op, p).0) && Step(a, op, p).1 == Step(b, op, p).1 == []
  {
    hide Look, SightOf;
    SameLook(a, b);
    if op.Leave? {
      SightsDropped(a.racers, b.racers, op.id);
    }
    SameLook(Step(a, op, p).0, Step(b, op, p).0);
  }

  lemma {:induction false} DecidedAfter(a: Race, b: Race, ops: seq<Op>, p: RaceParams)
    requires |p.stageTimes| == 6 && DecidedAlike(a, b)
    ensures DecidedAlike(After(a, ops, p).0, After(b, ops, p).0) && After(a, ops, p).1 == After(b, ops, p).1
  {
    assert ById(a.racers) && ById(b.racers);
    hide Step, DecidedAlike;
    if ops != [] {
      var front := ops[..|ops| - 1];
      DecidedAfter(a, b, front, p);
      DecidedStep(After(a, front, p).0, After(b, front, p).0, ops[|ops| - 1], p);
    }
  }

  lemma DecidedBehave(a: Race, b: Race, p: RaceParams)
    requires |p.stageTimes| == 6 && DecidedAlike(a, b)
    ensures SameBehaviour(a, b, p)
  {
    assert ById(a.racers) && ById(b.racers);
    hide After;
    forall ops
      ensures Observed(a, ops, p) == Observed(b, ops, p)
    {
      DecidedAfter(a, b, ops, p);
    }
  }

  // The one racer left is placed first and recharges at the plain rate.
  lemma AloneRanked(rs: seq<Racer>, i: nat, p: RaceParams)
    requires ById(rs) && i < |rs| && rs[i].Live() && LiveCount(rs) == 1
    ensures RankedRacer(rs, i, p).place == 1 && RankedRacer(rs, i, p).multiplier == 1.0
  {
    hide LiveOrder, PlaceOf;
    LiveOrderMembers(rs);
    PlaceInOrder(rs, i);
  }

  lemma RankedSight(a: seq<Racer>, b: seq<Racer>, i: nat, p: RaceParams)
    requires ById(a) && ById(b) && i < |a| == |b| && LiveCount(a) == LiveCount(b) == 1
    requires a[i].id == b[i].id && a[i].eliminatedOrder == b[i].eliminatedOrder
    ensures SightOf(Ranked(a, p)[i]) == SightOf(Ranked(b, p)[i])
  {
    hide LiveCount, PlaceOf, MultiplierAt;
    if a[i].Live() {
      AloneRanked(a, i, p);
      AloneRanked(b, i, p);
    }
  }

  lemma RestoreDecided(r: Race, cars: seq<HostCar>, p: RaceParams)
    requires |p.stageTimes| == 6 && Publishable(r, p) && CarsById(cars) && AllHaveCars(r, cars) && NoCarOutside(r, cars)
    requires r.finished && LiveCount(r.racers) == 1
    ensures SameBehaviour(Restored(r, cars, p), r, p)
  {
    hide Look, SightOf, SameBehaviour, LiveCount, Ranked, AllHaveCars, NoCarOutside;
    var b := Restored(r, cars, p);
    var rs := FromCars(Publish(r, cars).cars);
    TakenFrom(r, cars, p);
    SameLiveIndices(rs, r.racers, |rs|);
    SameCount(rs, r.racers);
    forall i | 0 <= i < |rs|
      ensures SightOf(b.racers[i]) == SightOf(r.racers[i])
    {
      RankedSight(rs, r.racers, i, p);
    }
    SameLook(b, r);
    DecidedBehave(b, r, p);
  }

  lemma SameCount(a: seq<Racer>, b: seq<Racer>)
    requires |a| == |b| && LiveIndices(a, |a|) == LiveIndices(b, |b|)
    ensures LiveCount(a) == LiveCount(b)
  {
  }

  // ---- a race that is on ------------------------------------------------------

  // A distance given to one racer shows on which side of it another one stands.
  lemma FedApart(rs: seq<Racer>, i: nat, j: nat, d: real, p: RaceParams)
    requires ById(rs) && i < |rs| && j < |rs| && i != j && rs[i].Live() && rs[j].Live() && rs[i].distance != d
    ensures var fed := Ranked(ApplyProgress(rs, [Progress(rs[j].id, d)]), p);
            |fed| == |rs| && (fed[i].place < fed[j].place <==> rs[i].distance > d)
  {
    hide Ranked, RankedRacer, PlacesRight, PlaceOf, LiveCount, LiveOrder, ApplyProgress;
    var moved := ApplyProgress(rs, [Progress(rs[j].id, d)]);
    OneFed(rs, j, d);
    RankedPlaces(moved, p);
    var fed := Ranked(moved, p);
    PlacesAreRanks(fed, i, j);
  }

  lemma OneFed(rs: seq<Racer>, j: nat, d: real)
    requires ById(rs) && j < |rs|
    ensures ApplyProgress(rs, [Progress(rs[j].id, d)]) == rs[j := rs[j].(distance := d)]
  {
    var progress := [Progress(rs[j].id, d)];
    IndexOfId(rs, j);
    assert progress[1..] == [];
  }

  // An update that takes no time off the clock only ranks.
  lemma UpdateRanks(r: Race, progress: seq<Progress>, p: RaceParams)
    requires p.Valid() && ById(r.racers) && r.started && !r.finished && |r.racers| >= 2 && r.timer > 0.0
    ensures Update(r, progress, 0.0, p).0.racers == Ranked(ApplyProgress(r.racers, progress), p)
  {
    hide Ranked, OnTheClock;
  }

  lemma TwoLive(rs: seq<Racer>, i: nat) returns (j: nat)
    requires LiveCount(rs) >= 2
    ensures j < |rs| && j != i && rs[j].Live()
  {
    var live := LiveIndices(rs, |rs|);
    assert live[0] in live && live[1] in live;
    j := if live[0] == i then live[1] else live[0];
  }

  // While the race is on, a car standing elsewhere than its racer can be told by
  // letting another racer move in between.
  lemma DistanceSeen(r: Race, cars: seq<HostCar>, p: RaceParams)
    requires p.Valid() && Publishable(r, p) && CarsById(cars) && AllHaveCars(r, cars) && NoCarOutside(r, cars)
    requires !r.finished && LiveCount(r.racers) >= 2 && r.timer > 0.0 && !CarsCarryRace(r, cars)
    ensures !SameBehaviour(Restored(r, cars, p), r, p)
  {
    hide Ranked, LiveCount, AllHaveCars, NoCarOutside, CarsCarryRace, SameBehaviour, OrdersExact;
    TakenFrom(r, cars, p);
    CarriedInPlace(r, cars);
    var i: nat :| i < |cars| && !CarriesRacer(cars[i], r.racers[i]);
    var j := TwoLive(r.racers, i);
    var rs := FromCars(Publish(r, cars).cars);
    StandsWhere(rs, p, i, j);
    ToldApart(Restored(r, cars, p), r, i, j, p);
  }

  lemma ToldApart(a: Race, b: Race, i: nat, j: nat, p: RaceParams)
    requires p.Valid() && ById(a.racers) && ById(b.racers) && i < |a.racers| == |b.racers| && j < |a.racers| && i != j
    requires a.started && !a.finished && a.timer > 0.0 && b.started && !b.finished && b.timer > 0.0
    requires a.racers[i].Live() && a.racers[j].Live() && b.racers[i].Live() && b.racers[j].Live()
    requires a.racers[j].id == b.racers[j].id && a.racers[i].distance != b.racers[i].distance
    ensures !SameBehaviour(a, b, p)
  {
    hide Ranked, SameBehaviour, Update, ApplyProgress;
    var d := (a.racers[i].distance + b.racers[i].distance) / 2.0;
    var progress := [Progress(b.racers[j].id, d)];
    FedApart(a.racers, i, j, d, p);
    FedApart(b.racers, i, j, d, p);
    UpdateRanks(a, progress, p);
    UpdateRanks(b, progress, p);
    SeenAfter(a, b, Tick(progress, 0.0), i, j, p);
  }

  lemma StandsWhere(rs: seq<Racer>, p: RaceParams, i: nat, j: nat)
    requires ById(rs) && i < |rs| && j < |rs|
    ensures var b := Ranked(rs, p);
            b[i].(place := 0, multiplier := 0.0) == rs[i].(place := 0, multiplier := 0.0) && b[j].id == rs[j].id && b[j].Live() == rs[j].Live()
  {
    hide LiveOrder, PlaceOf;
  }

  lemma AfterOne(r: Race, op: Op, p: RaceParams)
    requires |p.stageTimes| == 6 && ById(r.racers)
    ensures After(r, [op], p) == (Step(r, op, p).0, [Step(r, op, p).1])
  {
    hide Update, Remove, FinishByLeader;
    var ops := [op];
    assert ops[..|ops| - 1] == [] && ops[|ops| - 1] == op;
    assert After(r, ops[..|ops| - 1], p) == (r, []);
    assert [] + [Step(r, op, p).1] == [Step(r, op, p).1];
  }

  lemma SeenAfter(a: Race, b: Race, op: Op, i: nat, j: nat, p: RaceParams)
    requires |p.stageTimes| == 6 && ById(a.racers) && ById(b.racers)
    requires var x, y := Step(a, op, p).0.racers, Step(b, op, p).0.racers;
             i < |x| == |y| && j < |x| && (x[i].place < x[j].place) != (y[i].place < y[j].place)
    ensures !SameBehaviour(a, b, p)
  {
    hide Step;
    var x, y := Step(a, op, p).0.racers, Step(b, op, p).0.racers;
    AfterOne(a, op, p);
    AfterOne(b, op, p);
    var seen, here := Observed(a, [op], p), Observed(b, [op], p);
    assert seen.racers[i].place == x[i].place && seen.racers[j].place == x[j].place;
    assert here.racers[i].place == y[i].place && here.racers[j].place == y[j].place;
    assert seen != here;
  }

  // ---- a second migration -------------------------------------------------------

  // The cars a new host takes over: gone are those flagged out without an order.
  ghost function CarsTaken(r: Race, cars: seq<HostCar>): (taken: seq<HostCar>)
    requires CarsById(cars)
    ensures CarsById(taken)
  {
    seq(|cars|, i requires 0 <= i < |cars| =>
      HostCar(cars[i].id, cars[i].distance, RecordOf(r, cars[i]).eliminated && RecordOf(r, cars[i]).eliminatedOrder == 0))
  }

  // Each record tells the order of its racer, and none when its car is outside.
  ghost predicate TellsOrders(rs: seq<Racer>, racers: seq<Racer>) {
    && (forall j | 0 <= j < |rs| ::
          rs[j].eliminatedOrder == if IndexOf(racers, rs[j].id) < |racers| then racers[IndexOf(racers, rs[j].id)].eliminatedOrder else 0)
    && (forall i, j | 0 <= i < j < |rs| :: rs[i].id < rs[j].id)
    && (forall i | 0 <= i < |racers| :: Named(rs, racers[i].id))
  }

  ghost predicate Named(rs: seq<Racer>, id: int) {
    exists j :: 0 <= j < |rs| && rs[j].id == id
  }

  lemma RecordsTell(r: Race, cars: seq<HostCar>)
    requires CarsById(cars) && AllHaveCars(r, cars)
    ensures TellsOrders(FromCars(Publish(r, cars).cars), r.racers)
  {
    var rs := FromCars(Publish(r, cars).cars);
    assert forall j | 0 <= j < |rs| :: rs[j].id == cars[j].id;
    forall i | 0 <= i < |r.racers|
      ensures Named(rs, r.racers[i].id)
    {
      assert HasCar(cars, r.racers[i].id);
      var j: int :| 0 <= j < |cars| && cars[j].id == r.racers[i].id;
      assert rs[j].id == r.racers[i].id;
    }
  }

  lemma ToldOrders(rs: seq<Racer>, racers: seq<Racer>, count: nat, most: nat)
    requires ById(racers) && TellsOrders(rs, racers) && OrdersExact(racers, count)
    requires forall i | 0 <= i < |rs| :: rs[i].eliminatedOrder <= most
    requires most == 0 || OrderGiven(rs, most)
    ensures OrdersExact(rs, most)
  {
    hide IndexOf;
    forall i, j | 0 <= i < j < |rs| && !rs[i].Live()
      ensures rs[i].eliminatedOrder != rs[j].eliminatedOrder
    {
      var m, n := IndexOf(racers, rs[i].id), IndexOf(racers, rs[j].id);
      assert n < |racers| ==> m != n;
    }
    forall k: nat | 1 <= k <= most
      ensures OrderGiven(rs, k)
    {
      var m :| 0 <= m < |rs| && rs[m].eliminatedOrder == most;
      assert most <= count;
      assert OrderGiven(racers, k);
      var i :| 0 <= i < |racers| && racers[i].eliminatedOrder == k;
      assert Named(rs, racers[i].id);
      var j :| 0 <= j < |rs| && rs[j].id == racers[i].id;
      IndexOfId(racers, i);
      assert rs[j].eliminatedOrder == k;
    }
  }

  lemma RecordOrders(r: Race, cars: seq<HostCar>)
    requires ById(r.racers) && CarsById(cars) && AllHaveCars(r, cars) && OrdersExact(r.racers, r.eliminatedCount)
    ensures OrdersExact(FromCars(Publish(r, cars).cars), MaxOrder(Publish(r, cars).cars))
  {
    hide TellsOrders, OrdersExact, Publish, AllHaveCars, CarsById;
    var records := Publish(r, cars).cars;
    var rs := FromCars(records);
    MaxOrderBounds(records);
    RecordsTell(r, cars);
    if MaxOrder(records) != 0 {
      var m :| 0 <= m < |records| && records[m].eliminatedOrder == MaxOrder(records);
      assert rs[m].eliminatedOrder == MaxOrder(records);
    }
    ToldOrders(rs, r.racers, r.eliminatedCount, MaxOrder(records));
  }

  // Whatever the first migration kept, the race it restored can be published and
  // restored again, and the second migration loses nothing.
  lemma MigratesAgain(r: Race, cars: seq<HostCar>, p: RaceParams)
    requires |p.stageTimes| == 6 && Publishable(r, p) && CarsById(cars) && AllHaveCars(r, cars)
    ensures var b, taken := Restored(r, cars, p), CarsTaken(r, cars);
            Publishable(b, p) && CarsCarryRace(b, taken) && SameBehaviour(Restored(b, taken, p), b, p)
  {
    hide Ranked, SameBehaviour, OrdersExact, AllHaveCars;
    var b, taken, rs := Restored(r, cars, p), CarsTaken(r, cars), FromCars(Publish(r, cars).cars);
    CarsSorted(r, cars);
    RankedTwice(rs, p);
    RecordOrders(r, cars);
    RankedOrders(rs, MaxOrder(Publish(r, cars).cars), p);
    forall i | 0 <= i < |b.racers|
      ensures Carried(taken, b.racers[i]) && taken[i].id == b.racers[i].id
    {
      StandsWhere(rs, p, i, i);
      assert CarriesRacer(taken[i], b.racers[i]);
    }
    forall j | 0 <= j < |taken|
      ensures IndexOf(b.racers, taken[j].id) < |b.racers|
    {
      assert taken[j].id == b.racers[j].id;
      IndexOfId(b.racers, j);
    }
    RestoreCarried(b, taken, p);
  }

  lemma SimBehaves(a: Race, b: Race, p: RaceParams)
    requires |p.stageTimes| == 6 && Sim(a, b)
    ensures SameBehaviour(a, b, p)
  {
    assert ById(a.racers) && ById(b.racers);
    hide Sim, Look, After;
    forall ops
      ensures Observed(a, ops, p) == Observed(b, ops, p)
    {
      SimAfter(a, b, ops, p);
      SimLooks(After(a, ops, p).0, After(b, ops, p).0, After(b, ops, p).1);
    }
  }

  lemma RestoredIds(r: Race, cars: seq<HostCar>, p: RaceParams)
    requires CarsById(cars)
    ensures |Restored(r, cars, p).racers| == |cars|
    ensures forall j | 0 <= j < |cars| :: Restored(r, cars, p).racers[j].id == cars[j].id
  {
    hide RankedRacer, Ranked;
    var rs := FromCars(Publish(r, cars).cars);
    assert forall j | 0 <= j < |cars| :: rs[j].id == cars[j].id;
    CarsSorted(r, cars);
    RankedPlaces(rs, p);
  }

  lemma OutsiderSeen(r: Race, cars: seq<HostCar>, p: RaceParams)
    requires |p.stageTimes| == 6 && ById(r.racers) && CarsById(cars) && !NoCarOutside(r, cars)
    ensures !SameBehaviour(Restored(r, cars, p), r, p)
  {
    hide Restored;
    RestoredIds(r, cars, p);
    var j :| 0 <= j < |cars| && IndexOf(r.racers, cars[j].id) == |r.racers|;
    var seen, here := Observed(Restored(r, cars, p), [], p).racers, Observed(r, [], p).racers;
    assert seen[j].id == cars[j].id;
    assert forall i | 0 <= i < |here| :: here[i].id == r.racers[i].id;
    assert Observed(Restored(r, cars, p), [], p) != Observed(r, [], p);
  }

  // The case the session can produce: a player who left during the countdown has
  // a car but no place in the race, and comes back as a rival.
  lemma LeftBeforeStartComesBack(r: Race, cars: seq<HostCar>, p: RaceParams)
    requires p.Valid() && ById(Grid([1, 2])) && r == Start([1, 2], p)
    requires cars == [HostCar(1, 0.0, false), HostCar(2, 0.0, false), HostCar(3, 0.0, true)]
    ensures CarsById(cars) && !SameBehaviour(Restored(r, cars, p), r, p)
  {
    hide *;
    StartOfTwo(r, p);
    ThirdCarOutside(r, cars);
    ValidStages(p);
    PublishableById(r, p);
    OutsiderSeen(r, cars, p);
  }

  lemma ValidStages(p: RaceParams)
    requires p.Valid()
    ensures |p.stageTimes| == 6
  {
  }

  lemma StartOfTwo(r: Race, p: RaceParams)
    requires p.Valid() && ById(Grid([1, 2])) && r == Start([1, 2], p)
    ensures Publishable(r, p) && |r.racers| == 2 && r.racers[0].id == 1 && r.racers[1].id == 2
    ensures r.racers[0].distance == r.racers[1].distance == 0.0
  {
    hide Ranked, RankedRacer, PlacesRight, LiveCount, Settled, Grid;
    StartKeeps([1, 2], p);
    StartSettled([1, 2], p);
    GridOfTwo();
    RankedField(Grid([1, 2]), p);
  }

  lemma ThirdCarOutside(r: Race, cars: seq<HostCar>)
    requires |r.racers| == 2 && r.racers[0].id == 1 && r.racers[1].id == 2
    requires r.racers[0].distance == r.racers[1].distance == 0.0
    requires cars == [HostCar(1, 0.0, false), HostCar(2, 0.0, false), HostCar(3, 0.0, true)]
    ensures CarsById(cars) && CarsCarryRace(r, cars) && !NoCarOutside(r, cars)
  {
    assert CarriesRacer(cars[0], r.racers[0]) && CarriesRacer(cars[1], r.racers[1]);
    assert cars[2].id == 3 && IndexOf(r.racers, 3) != 0 && IndexOf(r.racers, 3) != 1;
  }

  lemma GridOfTwo()
    ensures Grid([1, 2]) == [Racer(1, 0.0, 0, 0, 1.0), Racer(2, 0.0, 0, 0, 1.0)]
  {
    var rs := [Racer(1, 0.0, 0, 0, 1.0), Racer(2, 0.0, 0, 0, 1.0)];
    assert rs == seq(2, i requires 0 <= i < 2 => Racer([1, 2][i], 0.0, 0, 0, 1.0));
    AlreadySorted(rs);
  }

  lemma StartSettled(ids: seq<int>, p: RaceParams)
    requires |p.stageTimes| == 6 && ById(Grid(ids))
    ensures Settled(Start(ids, p), p)
  {
    RankedTwice(Grid(ids), p);
  }

  lemma RankedTwice(rs: seq<Racer>, p: RaceParams)
    requires ById(rs)
    ensures Ranked(Ranked(rs, p), p) == Ranked(rs, p)
  {
    hide RankedRacer, PlaceOf, LiveOrder, LiveCount, PlacesRight;
    RankedPlaces(rs, p);
    SamePlaces(rs, Ranked(rs, p));
    forall i | 0 <= i < |rs|
      ensures RankedRacer(Ranked(rs, p), i, p) == Ranked(rs, p)[i]
    {
      RankedRacerTwice(rs, Ranked(rs, p), i, p);
    }
  }

  lemma RankedRacerTwice(rs: seq<Racer>, once: seq<Racer>, i: int, p: RaceParams)
    requires ById(rs) && ById(once) && SameField(rs, once) && 0 <= i < |rs|
    requires LiveOrder(rs) == LiveOrder(once) && PlaceOf(rs, i) == PlaceOf(once, i)
    requires once[i] == RankedRacer(rs, i, p)
    ensures RankedRacer(once, i, p) == once[i]
  {
    hide PlaceOf, LiveOrder, RechargeMultiplier;
    LiveOrderMembers(rs);
    if rs[i].Live() {
      PlaceInOrder(rs, i);
      SameMultiplier(rs, once, LiveOrder(rs), PlaceOf(rs, i) - 1, p);
    }
  }

  // ---- published races are such races ---------------------------------------

  lemma EliminateSettles(r: Race, id: int, p: RaceParams)
    requires |p.stageTimes| == 6 && Settled(r, p)
    ensures Settled(Eliminate(r, id, p).0, p)
  {
    hide RankedRacer;
    var i := IndexOf(r.racers, id);
    if i < |r.racers| && r.racers[i].Live() {
      EliminateShape(r, i, p);
      IndexOfId(r.racers, i);
      RankedTwice(r.racers[i := r.racers[i].(eliminatedOrder := r.eliminatedCount + 1)], p);
    }
  }

  lemma StepSettles(r: Race, op: Op, p: RaceParams)
    requires |p.stageTimes| == 6 && Settled(r, p) && (op.Leave? ==> r.started && !r.finished)
    ensures Settled(Step(r, op, p).0, p)
  {
    hide Ranked, RankedRacer, Eliminate, OnTheClock;
    match op
    case Tick(progress, dt) =>
      if r.started && !r.finished {
        var ranked := RankedRace(r, progress, p);
        RankedTwice(ApplyProgress(r.racers, progress), p);
        var ticked := TickClock(ranked, dt, p).0;
        EliminateSettles(ticked, ticked.lastPlaceId, p);
      }
    case Leave(id) => EliminateSettles(r, id, p);
    case TimeCap => RankedTwice(r.racers, p);
  }

  lemma EliminateOrders(r: Race, id: int, p: RaceParams)
    requires |p.stageTimes| == 6 && ById(r.racers) && OrdersExact(r.racers, r.eliminatedCount)
    ensures OrdersExact(Eliminate(r, id, p).0.racers, Eliminate(r, id, p).0.eliminatedCount)
  {
    hide RankedRacer;
    var i := IndexOf(r.racers, id);
    if i < |r.racers| && r.racers[i].Live() {
      EliminateShape(r, i, p);
      IndexOfId(r.racers, i);
      var out := r.racers[i := r.racers[i].(eliminatedOrder := r.eliminatedCount + 1)];
      OrdersGrow(r.racers, i, r.eliminatedCount);
      RankedOrders(out, r.eliminatedCount + 1, p);
    }
  }

  lemma RankedOrders(rs: seq<Racer>, count: nat, p: RaceParams)
    requires ById(rs) && OrdersExact(rs, count)
    ensures OrdersExact(Ranked(rs, p), count)
  {
    OrdersKept(rs, Ranked(rs, p), count);
  }

  lemma StepOrders(r: Race, op: Op, p: RaceParams)
    requires |p.stageTimes| == 6 && ById(r.racers) && OrdersExact(r.racers, r.eliminatedCount)
    requires op.Leave? ==> r.started && !r.finished
    ensures OrdersExact(Step(r, op, p).0.racers, Step(r, op, p).0.eliminatedCount)
  {
    hide Ranked, RankedRacer, Eliminate, OnTheClock, OrdersExact;
    match op
    case Tick(progress, dt) =>
      var moved := ApplyProgress(r.racers, progress);
      OrdersKept(r.racers, moved, r.eliminatedCount);
      RankedOrders(moved, r.eliminatedCount, p);
      var ticked := TickClock(RankedRace(r, progress, p), dt, p).0;
      EliminateOrders(ticked, ticked.lastPlaceId, p);
    case Leave(id) => EliminateOrders(r, id, p);
    case TimeCap => RankedOrders(r.racers, r.eliminatedCount, p);
  }

  // Until somebody is dropped after the finish, a race can be published.
  lemma {:induction false} RunPublishable(ids: seq<int>, ops: seq<Op>, maxDt: real, p: RaceParams)
    requires p.Valid() && LaterStagesShorter(p) && Distinct(ids) && 0 !in ids && |ids| >= 2
    requires maxDt > 0.0 && TicksUpTo(ops, maxDt)
    ensures |Run(ids, ops, p).race.racers| == |ids| ==> Publishable(Run(ids, ops, p).race, p)
  {
    hide Step, Ranked, RankedRacer, TimeBounded, Start, OrdersExact;
    RunKeeps(ids, ops, maxDt, p);
    if ops == [] {
      GridById(ids);
      StartSettled(ids, p);
      StartOrders(ids, p);
    } else {
      var front, op := ops[..|ops| - 1], ops[|ops| - 1];
      var r := Run(ids, front, p).race;
      RunPublishable(ids, front, maxDt, p);
      RunKeeps(ids, front, maxDt, p);
      FieldNeverGrows(ids, front, p);
      StepField(r, op, p);
      if op.Leave? && r.finished {
        NoneDropped(r, op.id, p);
      } else if |r.racers| == |ids| {
        StepSettles(r, op, p);
        StepOrders(r, op, p);
      }
    }
  }

  lemma {:induction false} DroppedSize(rs: seq<Racer>, id: int)
    ensures |Dropped(rs, id)| <= |rs| && (|Dropped(rs, id)| == |rs| ==> Dropped(rs, id) == rs)
  {
    if rs != [] {
      DroppedSize(rs[1..], id);
      assert rs == [rs[0]] + rs[1..];
    }
  }

  lemma NoneDropped(r: Race, id: int, p: RaceParams)
    requires |p.stageTimes| == 6 && ById(r.racers) && r.finished
    ensures |Step(r, Leave(id), p).0.racers| == |r.racers| ==> Step(r, Leave(id), p).0 == r
  {
    DroppedSize(r.racers, id);
  }

  lemma StepField(r: Race, op: Op, p: RaceParams)
    requires |p.stageTimes| == 6 && ById(r.racers)
    ensures |Step(r, op, p).0.racers| <= |r.racers|
  {
    hide Ranked, Eliminate, Update;
    match op
    case Tick(progress, dt) =>
      if r.started && !r.finished {
        UpdateField(r, progress, dt, p);
      } else {
        IdleUpdate(r, progress, dt, p);
      }
    case Leave(id) =>
      EliminateField(r, id, p);
      DroppedSize(r.racers, id);
    case TimeCap => RankedField(r.racers, p);
  }

  lemma IdleUpdate(r: Race, progress: seq<Progress>, dt: real, p: RaceParams)
    requires |p.stageTimes| == 6 && ById(r.racers) && (!r.started || r.finished)
    ensures Update(r, progress, dt, p) == (r, [])
  {
  }

  lemma {:induction false} FieldNeverGrows(ids: seq<int>, ops: seq<Op>, p: RaceParams)
    requires Distinct(ids) && |p.stageTimes| == 6
    ensures |Run(ids, ops, p).race.racers| <= |ids|
  {
    hide Step, Ranked;
    if ops == [] {
      GridById(ids);
    } else {
      FieldNeverGrows(ids, ops[..|ops| - 1], p);
      StepField(Run(ids, ops[..|ops| - 1], p).race, ops[|ops| - 1], p);
    }
  }

  lemma StartOrders(ids: seq<int>, p: RaceParams)
    requires |p.stageTimes| == 6 && Distinct(ids) && ById(Grid(ids))
    ensures OrdersExact(Start(ids, p).racers, Start(ids, p).eliminatedCount)
  {
    GridById(ids);
    assert forall i | 0 <= i < |Grid(ids)| :: Grid(ids)[i] in Grid(ids);
    RankedOrders(Grid(ids), 0, p);
  }

  // What the host feeds the race each tick: every car that is in and has not left.
  function HostProgress(r: Race, cars: seq<HostCar>): seq<Progress> {
    if cars == [] then []
    else
      var i := IndexOf(r.racers, cars[0].id);
      if cars[0].left || (i < |r.racers| && !r.racers[i].Live()) then HostProgress(r, cars[1..])
      else [Progress(cars[0].id, cars[0].distance)] + HostProgress(r, cars[1..])
  }

  lemma {:induction false} ProgressLands(rs: seq<Racer>, progress: seq<Progress>, i: int)
    requires ById(rs) && 0 <= i < |rs|
    requires forall m, n | 0 <= m < n < |progress| :: progress[m].playerId != progress[n].playerId
    ensures forall m | 0 <= m < |progress| && progress[m].playerId == rs[i].id ::
              ApplyProgress(rs, progress)[i].distance == progress[m].distance
    ensures (forall m | 0 <= m < |progress| :: progress[m].playerId != rs[i].id) ==>
              ApplyProgress(rs, progress)[i].distance == rs[i].distance
    decreases |progress|
  {
    hide IndexOf;
    if progress != [] {
      var k := IndexOf(rs, progress[0].playerId);
      var next := if k < |rs| then rs[k := rs[k].(distance := progress[0].distance)] else rs;
      ProgressLands(next, progress[1..], i);
      if progress[0].playerId == rs[i].id {
        IndexOfId(rs, i);
      }
    }
  }

  // A car that is still driven by its player.
  ghost predicate Driven(cars: seq<HostCar>, id: int) {
    exists j :: 0 <= j < |cars| && cars[j].id == id && !cars[j].left
  }

  lemma {:induction false} HostProgressLists(r: Race, cars: seq<HostCar>)
    requires CarsById(cars)
    ensures forall m, n | 0 <= m < n < |HostProgress(r, cars)| ::
              HostProgress(r, cars)[m].playerId < HostProgress(r, cars)[n].playerId
    ensures forall x :: x in HostProgress(r, cars) ==> HasCar(cars, x.playerId)
  {
    hide IndexOf, HasCar;
    if cars != [] {
      HostProgressLists(r, cars[1..]);
      var rest := HostProgress(r, cars[1..]);
      forall x | x in rest
        ensures cars[0].id < x.playerId && HasCar(cars, x.playerId)
      {
        LaterCar(cars, x.playerId);
      }
      FirstHasCar(cars);
      assert forall m | 0 <= m < |rest| :: rest[m] in rest;
    }
  }

  lemma LaterCar(cars: seq<HostCar>, id: int)
    requires CarsById(cars) && cars != [] && HasCar(cars[1..], id)
    ensures cars[0].id < id && HasCar(cars, id)
  {
    var j :| 0 <= j < |cars[1..]| && cars[1..][j].id == id;
    assert cars[j + 1].id == id;
  }

  lemma FirstHasCar(cars: seq<HostCar>)
    requires cars != []
    ensures HasCar(cars, cars[0].id)
  {
  }

  lemma {:induction false} LiveReported(r: Race, cars: seq<HostCar>, i: int, j: int)
    requires ById(r.racers) && 0 <= i < |r.racers| && 0 <= j < |cars|
    requires r.racers[i].Live() && cars[j].id == r.racers[i].id && !cars[j].left
    ensures Progress(cars[j].id, cars[j].distance) in HostProgress(r, cars)
  {
    if j == 0 {
      IndexOfId(r.racers, i);
    } else {
      LiveReported(r, cars[1..], i, j - 1);
    }
  }

  // The same cars at the same distances, nobody brought back.
  ghost predicate SameCars(a: seq<Racer>, b: seq<Racer>) {
    |a| == |b| && forall i | 0 <= i < |a| ::
      a[i].id == b[i].id && a[i].distance == b[i].distance && (a[i].Live() ==> b[i].Live())
  }

  lemma EliminateField(r: Race, id: int, p: RaceParams)
    requires |p.stageTimes| == 6 && ById(r.racers)
    ensures SameCars(Eliminate(r, id, p).0.racers, r.racers)
  {
    hide CurrentLast, LiveCount;
  }

  lemma UpdateField(r: Race, progress: seq<Progress>, dt: real, p: RaceParams)
    requires |p.stageTimes| == 6 && ById(r.racers) && r.started && !r.finished
    ensures SameCars(Update(r, progress, dt, p).0.racers, ApplyProgress(r.racers, progress))
  {
    hide OnTheClock, Eliminate, RankedRacer;
    var ranked := RankedRace(r, progress, p);
    RankedField(ApplyProgress(r.racers, progress), p);
    var ticked := TickClock(ranked, dt, p).0;
    EliminateField(ticked, ticked.lastPlaceId, p);
  }

  lemma RankedField(rs: seq<Racer>, p: RaceParams)
    requires ById(rs)
    ensures SameCars(Ranked(rs, p), rs)
  {
  }

  // Fed with the host's cars, an update leaves cars and race standing alike.
  lemma UpdateCarries(r: Race, cars: seq<HostCar>, dt: real, p: RaceParams)
    requires |p.stageTimes| == 6 && ById(r.racers) && r.started && !r.finished && CarsById(cars)
    requires forall i | 0 <= i < |r.racers| :: HasCar(cars, r.racers[i].id) && (r.racers[i].Live() ==> Driven(cars, r.racers[i].id))
    ensures CarsCarryRace(Update(r, HostProgress(r, cars), dt, p).0, cars)
  {
    hide Update, HostProgress, IndexOf;
    var progress := HostProgress(r, cars);
    HostProgressLists(r, cars);
    UpdateField(r, progress, dt, p);
    var a := Update(r, progress, dt, p).0.racers;
    forall i | 0 <= i < |a|
      ensures Carried(cars, a[i])
    {
      assert HasCar(cars, r.racers[i].id);
      if r.racers[i].Live() {
        assert Driven(cars, r.racers[i].id);
        var j :| 0 <= j < |cars| && cars[j].id == r.racers[i].id && !cars[j].left;
        ProgressLands(r.racers, progress, i);
        LiveReported(r, cars, i, j);
        assert Progress(cars[j].id, cars[j].distance) in progress;
        assert CarriesRacer(cars[j], a[i]);
      } else {
        var j :| 0 <= j < |cars| && cars[j].id == r.racers[i].id;
        assert CarriesRacer(cars[j], a[i]);
      }
    }
  }
}
