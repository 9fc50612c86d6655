/** What every run of an elimination race keeps. */
module RaceRuns {
  import opened RaceRules
  import opened Sorting

  datatype Op = Tick(progress: seq<Progress>, dt: real) | Leave(id: int) | TimeCap

  ghost function Step(r: Race, op: Op, p: RaceParams): (out: (Race, seq<Event>))
    requires ById(r.racers) && |p.stageTimes| == 6
    ensures ById(out.0.racers)
  {
    match op
    case Tick(progress, dt) => Update(r, progress, dt, p)
    case Leave(id) => Remove(r, id, p)
    case TimeCap => (FinishByLeader(r, p), [])
  }

  // ---- ranking ----------------------------------------------------------

  ghost predicate PlacesRight(rs: seq<Racer>) {
    forall i | 0 <= i < |rs| :: rs[i].place == PlaceOf(rs, i)
  }

  // Two line-ups with the same racers in, standing at the same distances.
  ghost predicate SameField(a: seq<Racer>, b: seq<Racer>) {
    |a| == |b| && forall i | 0 <= i < |a| ::
      a[i].id == b[i].id && a[i].Live() == b[i].Live() && (a[i].Live() ==> a[i].distance == b[i].distance)
  }

  lemma {:induction false} SameLiveIndices(a: seq<Racer>, b: seq<Racer>, n: nat)
    requires n <= |a| == |b| && forall i | 0 <= i < n :: a[i].Live() == b[i].Live()
    ensures LiveIndices(a, n) == LiveIndices(b, n)
  {
    if n != 0 {
      SameLiveIndices(a, b, n - 1);
    }
  }

  lemma SamePlace(a: seq<Racer>, b: seq<Racer>, i: int)
    requires SameField(a, b) && 0 <= i < |a|
    ensures PlaceOf(a, i) == PlaceOf(b, i)
  {
    if a[i].Live() {
      assert AheadSet(a, i) == AheadSet(b, i);
    }
  }

  lemma SameOrder(a: seq<Racer>, b: seq<Racer>)
    requires SameField(a, b) && ById(a) && ById(b)
    ensures LiveOrder(a) == LiveOrder(b) && LiveCount(a) == LiveCount(b)
  {
    SameLiveIndices(a, b, |a|);
    LiveOrderMembers(a);
    LiveOrderMembers(b);
    LiveOrderSorted(a);
    LiveOrderSorted(b);
    BetterPlacedOrders(a, Elements(LiveOrder(a)));
    SortedAlike(a, b, LiveOrder(b));
    hide *;
    LiveOrderPermutes(a, b);
    SortingUnique(LiveOrder(a), LiveOrder(b), BetterPlaced(a));
  }

  lemma LiveOrderPermutes(a: seq<Racer>, b: seq<Racer>)
    requires LiveIndices(a, |a|) == LiveIndices(b, |b|)
    ensures multiset(LiveOrder(a)) == multiset(LiveOrder(b))
  {
  }

  lemma SortedAlike(a: seq<Racer>, b: seq<Racer>, order: seq<int>)
    requires SameField(a, b) && Sorted(order, BetterPlaced(b))
    requires forall m | 0 <= m < |order| :: 0 <= order[m] < |a| && b[order[m]].Live()
    ensures Sorted(order, BetterPlaced(a))
  {
    forall i, j | 0 <= i < j < |order|
      ensures BetterPlaced(a)(order[i], order[j])
    {
      assert BetterPlaced(b)(order[i], order[j]);
    }
  }

  // The order and the places depend only on who is in and where they stand.
  lemma SamePlaces(a: seq<Racer>, b: seq<Racer>)
    requires SameField(a, b) && ById(a)
    ensures ById(b) && LiveOrder(a) == LiveOrder(b) && LiveCount(a) == LiveCount(b)
    ensures forall i | 0 <= i < |a| :: PlaceOf(a, i) == PlaceOf(b, i)
  {
    hide PlaceOf, LiveOrder, LiveCount;
    SameOrder(a, b);
    forall i | 0 <= i < |a|
      ensures PlaceOf(a, i) == PlaceOf(b, i)
    {
      SamePlace(a, b, i);
    }
  }

  // Ranking a racer changes place and multiplier only.
  lemma RankedAlike(rs: seq<Racer>, i: nat, p: RaceParams)
    requires ById(rs) && i < |rs|
    ensures var r := RankedRacer(rs, i, p);
            r.place == PlaceOf(rs, i) && r.id == rs[i].id && r.distance == rs[i].distance && r.eliminatedOrder == rs[i].eliminatedOrder
  {
    hide LiveOrder, MultiplierAt;
  }

  lemma RankedPlaces(rs: seq<Racer>, p: RaceParams)
    requires ById(rs)
    ensures SameField(rs, Ranked(rs, p)) && PlacesRight(Ranked(rs, p))
    ensures LiveCount(Ranked(rs, p)) == LiveCount(rs) && LiveOrder(Ranked(rs, p)) == LiveOrder(rs)
    ensures forall i | 0 <= i < |rs| :: Ranked(rs, p)[i].eliminatedOrder == rs[i].eliminatedOrder && Ranked(rs, p)[i].id == rs[i].id
  {
    hide PlaceOf, LiveOrder, LiveCount, RankedRacer, Ranked;
    forall i | 0 <= i < |rs|
      ensures var r := Ranked(rs, p)[i];
              r.place == PlaceOf(rs, i) && r.id == rs[i].id && r.distance == rs[i].distance && r.eliminatedOrder == rs[i].eliminatedOrder
    {
      RankedAlike(rs, i, p);
    }
    SamePlaces(rs, Ranked(rs, p));
  }

  // Live places are exactly 1 to the number of live racers, best first.
  lemma PlacesAreRanks(rs: seq<Racer>, i: int, j: int)
    requires ById(rs) && PlacesRight(rs)
    requires 0 <= i < |rs| && 0 <= j < |rs| && rs[i].Live() && rs[j].Live() && i != j
    ensures 1 <= rs[i].place <= LiveCount(rs)
    ensures rs[i].place < rs[j].place <==> Ahead(rs[i], rs[j])
    ensures rs[i].place != rs[j].place
  {
    LiveOrderMembers(rs);
    LiveOrderSorted(rs);
    PlaceInOrder(rs, i);
    PlaceInOrder(rs, j);
    var order := LiveOrder(rs);
    var k, l := rs[i].place - 1, rs[j].place - 1;
    assert k < l ==> BetterPlaced(rs)(order[k], order[l]);
    assert l < k ==> BetterPlaced(rs)(order[l], order[k]);
  }

  lemma EveryPlaceTaken(rs: seq<Racer>, place: nat)
    requires ById(rs) && PlacesRight(rs) && 1 <= place <= LiveCount(rs)
    ensures exists i :: 0 <= i < |rs| && rs[i].Live() && rs[i].place == place
  {
    OrderPlaces(rs, place - 1);
  }

  lemma {:induction false} WorstPlaceMeaning(rs: seq<Racer>, n: nat)
    requires n <= |rs|
    ensures var (worst, id) := WorstPlace(rs, n);
            && (forall i | 0 <= i < n && rs[i].Live() :: rs[i].place <= worst)
            && (worst > 0 ==> exists i :: 0 <= i < n && rs[i].Live() && rs[i].place == worst && rs[i].id == id)
            && (worst == 0 ==> id == 0)
  {
    if n != 0 {
      WorstPlaceMeaning(rs, n - 1);
    }
  }

  // Racer i is in and everyone else who is in is ahead of it.
  ghost predicate IsLast(rs: seq<Racer>, i: int) {
    && 0 <= i < |rs| && rs[i].Live()
    && forall j | 0 <= j < |rs| && rs[j].Live() && j != i :: Ahead(rs[j], rs[i])
  }

  lemma CurrentLastIsLast(rs: seq<Racer>) returns (i: int)
    requires ById(rs) && PlacesRight(rs) && LiveCount(rs) >= 1
    ensures IsLast(rs, i) && rs[i].id == CurrentLast(rs)
  {
    WorstPlaceMeaning(rs, |rs|);
    EveryPlaceTaken(rs, 1);
    var worst := WorstPlace(rs, |rs|).0;
    i :| 0 <= i < |rs| && rs[i].Live() && rs[i].place == worst && rs[i].id == CurrentLast(rs);
    forall j | 0 <= j < |rs| && rs[j].Live() && j != i
      ensures Ahead(rs[j], rs[i])
    {
      PlacesAreRanks(rs, j, i);
    }
  }

  lemma IndexOfId(rs: seq<Racer>, i: int)
    requires ById(rs) && 0 <= i < |rs|
    ensures IndexOf(rs, rs[i].id) == i
  {
  }

  // ---- the invariant ----------------------------------------------------

  // Elimination orders are exactly 1 to count, each given once.
  ghost predicate OrdersExact(rs: seq<Racer>, count: nat) {
    && (forall i | 0 <= i < |rs| :: rs[i].eliminatedOrder <= count)
    && (forall i, j | 0 <= i < j < |rs| && !rs[i].Live() :: rs[i].eliminatedOrder != rs[j].eliminatedOrder)
    && (forall k: nat | 1 <= k <= count :: OrderGiven(rs, k))
  }

  ghost predicate OrderGiven(rs: seq<Racer>, k: nat) {
    exists i :: 0 <= i < |rs| && rs[i].eliminatedOrder == k
  }

  // Places of the racers in and orders of the racers out tell them apart.
  ghost predicate Rankable(rs: seq<Racer>) {
    forall x, y | x in rs && y in rs && x.id != y.id && x.Live() == y.Live() ::
      if x.Live() then x.place != y.place else x.eliminatedOrder != y.eliminatedOrder
  }

  lemma LineRankable(rs: seq<Racer>, count: nat)
    requires ById(rs) && PlacesRight(rs) && OrdersExact(rs, count)
    ensures Rankable(rs)
  {
    hide PlacesRight, LiveCount;
    forall x, y | x in rs && y in rs && x.id != y.id && x.Live() == y.Live()
      ensures if x.Live() then x.place != y.place else x.eliminatedOrder != y.eliminatedOrder
    {
      var i :| 0 <= i < |rs| && rs[i] == x;
      var j :| 0 <= j < |rs| && rs[j] == y;
      if x.Live() {
        PlacesAreRanks(rs, i, j);
      }
    }
  }

  // A race of n cars that is still being decided.
  ghost predicate Running(r: Race, n: nat, p: RaceParams)
    requires p.Valid()
  {
    && r.started && !r.finished && r.winnerId == 0
    && LineUp(r.racers, r.eliminatedCount, n) && LiveCount(r.racers) >= 2
    && r.stage <= 5 && 0.0 < r.timer <= p.StageTime(r.stage)
  }

  // A decided race: the winner, unless dropped since, is in and placed first.
  ghost predicate Decided(r: Race) {
    && r.started && r.finished && r.winnerId != 0 && r.timer > 0.0 && ById(r.racers)
    && forall i | 0 <= i < |r.racers| && r.racers[i].id == r.winnerId :: r.racers[i].Live() && r.racers[i].place == 1
  }

  ghost predicate HasRacer(rs: seq<Racer>, id: int) {
    exists i :: 0 <= i < |rs| && rs[i].id == id && rs[i].Live()
  }

  // The car on the clock is in, and at most the margin ahead of every car that is in.
  ghost predicate ClockOnLast(r: Race, p: RaceParams) {
    exists i :: 0 <= i < |r.racers| && r.racers[i].Live() && r.racers[i].id == r.lastPlaceId
      && forall j | 0 <= j < |r.racers| && r.racers[j].Live() :: r.racers[i].distance <= r.racers[j].distance + p.overtakeMargin
  }

  lemma {:induction false} OneLess(rs: seq<Racer>, i: int, order: nat, n: nat)
    requires 0 <= i < |rs| && rs[i].Live() && order > 0 && n <= |rs|
    ensures |LiveIndices(rs[i := rs[i].(eliminatedOrder := order)], n)| == |LiveIndices(rs, n)| - (if i < n then 1 else 0)
  {
    if n != 0 {
      OneLess(rs, i, order, n - 1);
    }
  }

  lemma OrdersGrow(rs: seq<Racer>, i: int, count: nat)
    requires OrdersExact(rs, count) && 0 <= i < |rs| && rs[i].Live()
    ensures OrdersExact(rs[i := rs[i].(eliminatedOrder := count + 1)], count + 1)
  {
    var out := rs[i := rs[i].(eliminatedOrder := count + 1)];
    forall k: nat | 1 <= k <= count + 1
      ensures OrderGiven(out, k)
    {
      if k == count + 1 {
        assert out[i].eliminatedOrder == k;
      } else {
        assert OrderGiven(rs, k);
        var j :| 0 <= j < |rs| && rs[j].eliminatedOrder == k;
        assert out[j].eliminatedOrder == k;
      }
    }
  }

  lemma OrdersKept(rs: seq<Racer>, rs': seq<Racer>, count: nat)
    requires OrdersExact(rs, count) && |rs'| == |rs|
    requires forall i | 0 <= i < |rs| :: rs'[i].eliminatedOrder == rs[i].eliminatedOrder
    ensures OrdersExact(rs', count)
  {
    forall k: nat | 1 <= k <= count
      ensures OrderGiven(rs', k)
    {
      assert OrderGiven(rs, k);
      var j :| 0 <= j < |rs| && rs[j].eliminatedOrder == k;
      assert rs'[j].eliminatedOrder == k;
    }
  }

  // The line-up of a race of n cars: ids, places and elimination orders.
  ghost predicate LineUp(rs: seq<Racer>, count: nat, n: nat) {
    && ById(rs) && |rs| == n && PlacesRight(rs)
    && (forall i | 0 <= i < n :: rs[i].id != 0)
    && OrdersExact(rs, count) && LiveCount(rs) + count == n
  }

  lemma LineUpAfterOut(rs: seq<Racer>, i: int, count: nat, n: nat, p: RaceParams)
    requires LineUp(rs, count, n) && 0 <= i < n && rs[i].Live()
    ensures var out := rs[i := rs[i].(eliminatedOrder := count + 1)];
            && ById(out) && LineUp(Ranked(out, p), count + 1, n)
            && LiveCount(Ranked(out, p)) == LiveCount(rs) - 1
  {
    var out := rs[i := rs[i].(eliminatedOrder := count + 1)];
    OneLess(rs, i, count + 1, n);
    OrdersGrow(rs, i, count);
    OrdersKept(out, Ranked(out, p), count + 1);
    RankedPlaces(out, p);
  }

  // With someone in, the current last place is held by a car that is in and
  // behind everyone else.
  lemma LastIsOnClock(r: Race, n: nat, p: RaceParams)
    requires p.Valid() && LineUp(r.racers, r.eliminatedCount, n) && LiveCount(r.racers) >= 1
    requires r.lastPlaceId == CurrentLast(r.racers)
    ensures ClockOnLast(r, p) && r.lastPlaceId != 0 && HasRacer(r.racers, r.lastPlaceId)
    ensures LiveCount(r.racers) == 1 ==>
              forall i | 0 <= i < n && r.racers[i].id == r.lastPlaceId :: r.racers[i].Live() && r.racers[i].place == 1
  {
    var last := CurrentLastIsLast(r.racers);
    if LiveCount(r.racers) == 1 {
      IndexOfId(r.racers, last);
      LiveOrderMembers(r.racers);
      PlaceInOrder(r.racers, last);
    }
  }

  lemma EliminateShape(r: Race, i: int, p: RaceParams)
    requires |p.stageTimes| == 6 && ById(r.racers) && 0 <= i < |r.racers| && r.racers[i].Live()
    ensures var out := r.racers[i := r.racers[i].(eliminatedOrder := r.eliminatedCount + 1)];
            var r' := Eliminate(r, r.racers[i].id, p).0;
            && ById(out) && r'.racers == Ranked(out, p) && r'.lastPlaceId == CurrentLast(r'.racers)
            && r'.eliminatedCount == r.eliminatedCount + 1 && r'.stage == 0 && r'.timer == p.StageTime(0)
            && r'.started == r.started && r'.finished == (r.finished || LiveCount(r'.racers) == 1)
            && r'.winnerId == if LiveCount(r'.racers) == 1 then r'.lastPlaceId else r.winnerId
  {
    hide Ranked, LiveCount, CurrentLast, IndexOf;
    IndexOfId(r.racers, i);
    var out := r.racers[i := r.racers[i].(eliminatedOrder := r.eliminatedCount + 1)];
    assert ById(out);
    assert Eliminate(r, r.racers[i].id, p) == OutWith(r, Ranked(out, p), r.racers[i].id, p);
  }

  lemma EliminateKeeps(r: Race, i: int, n: nat, p: RaceParams)
    requires p.Valid() && LineUp(r.racers, r.eliminatedCount, n) && LiveCount(r.racers) >= 2
    requires r.started && !r.finished && r.winnerId == 0 && 0 <= i < n && r.racers[i].Live()
    ensures var r' := Eliminate(r, r.racers[i].id, p).0;
            && r'.timer == p.StageTime(0) && r'.stage == 0
            && r'.eliminatedCount == r.eliminatedCount + 1 && ClockOnLast(r', p)
            && (if r'.finished then Decided(r') && HasRacer(r'.racers, r'.winnerId) else Running(r', n, p))
  {
    hide Eliminate, Ranked, PlacesRight, OrdersExact, ClockOnLast, HasRacer, LiveCount, CurrentLast;
    EliminateShape(r, i, p);
    LineUpAfterOut(r.racers, i, r.eliminatedCount, n, p);
    LastIsOnClock(Eliminate(r, r.racers[i].id, p).0, n, p);
  }

  lemma LineUpAfterProgress(rs: seq<Racer>, progress: seq<Progress>, count: nat, n: nat, p: RaceParams)
    requires LineUp(rs, count, n)
    ensures var moved := ApplyProgress(rs, progress);
            && ById(moved) && LineUp(Ranked(moved, p), count, n)
            && LiveCount(Ranked(moved, p)) == LiveCount(rs)
  {
    var moved := ApplyProgress(rs, progress);
    SameLiveIndices(rs, moved, n);
    RankedPlaces(moved, p);
    OrdersKept(rs, Ranked(moved, p), count);
  }

  // Whoever ends up on the clock is in and within the margin of true last.
  lemma OnTheClockWithin(rs: seq<Racer>, lastPlaceId: int, count: nat, n: nat, p: RaceParams) returns (i: int)
    requires p.Valid() && LineUp(rs, count, n) && LiveCount(rs) >= 1
    ensures 0 <= i < n && rs[i].Live() && rs[i].id == OnTheClock(rs, lastPlaceId, p).0
    ensures forall j | 0 <= j < n && rs[j].Live() :: rs[i].distance <= rs[j].distance + p.overtakeMargin
  {
    var last := CurrentLastIsLast(rs);
    IndexOfId(rs, last);
    var cur := IndexOf(rs, lastPlaceId);
    i := if OnTheClock(rs, lastPlaceId, p).0 == rs[last].id then last else cur;
  }

  lemma UpdateKeeps(r: Race, progress: seq<Progress>, dt: real, n: nat, p: RaceParams)
    requires p.Valid() && Running(r, n, p) && dt > 0.0
    ensures var r' := Update(r, progress, dt, p).0;
            && ClockOnLast(r', p)
            && (if r'.finished then Decided(r') && HasRacer(r'.racers, r'.winnerId) else Running(r', n, p))
  {
    hide Ranked, PlacesRight, OrdersExact, LiveCount, OnTheClock, Eliminate, CurrentLast;
    LineUpAfterProgress(r.racers, progress, r.eliminatedCount, n, p);
    var ranked := RankedRace(r, progress, p);
    LiveCountBounded(ranked.racers);
    var i := OnTheClockWithin(ranked.racers, r.lastPlaceId, r.eliminatedCount, n, p);
    var ticked := TickClock(ranked, dt, p).0;
    if ticked.timer <= 0.0 {
      EliminateKeeps(ticked, i, n, p);
    }
  }

  lemma LiveCountBounded(rs: seq<Racer>)
    ensures LiveCount(rs) <= |rs|
  {
    LiveIndicesBounded(rs, |rs|);
  }

  lemma {:induction false} LiveIndicesBounded(rs: seq<Racer>, n: nat)
    requires n <= |rs|
    ensures |LiveIndices(rs, n)| <= n
  {
    if n != 0 {
      LiveIndicesBounded(rs, n - 1);
    }
  }

  lemma LeaveKeeps(r: Race, id: int, n: nat, p: RaceParams)
    requires p.Valid() && Running(r, n, p)
    ensures var r' := Remove(r, id, p).0;
            if r'.finished then Decided(r') && HasRacer(r'.racers, r'.winnerId) else Running(r', n, p)
  {
    var i := IndexOf(r.racers, id);
    if i < n && r.racers[i].Live() {
      EliminateKeeps(r, i, n, p);
    }
  }

  lemma {:induction false} LeaderMeaning(rs: seq<Racer>, n: nat, none: int)
    requires n <= |rs|
    ensures Leader(rs, n, none) == none || exists i :: 0 <= i < n && rs[i].place == 1 && rs[i].id == Leader(rs, n, none)
    ensures (exists i :: 0 <= i < n && rs[i].place == 1) ==>
              exists i :: 0 <= i < n && rs[i].place == 1 && rs[i].id == Leader(rs, n, none)
  {
    if n != 0 {
      LeaderMeaning(rs, n - 1, none);
    }
  }

  lemma LeaderWins(rs: seq<Racer>, none: int) returns (i: int)
    requires ById(rs) && PlacesRight(rs) && LiveCount(rs) >= 1
    ensures 0 <= i < |rs| && rs[i].Live() && rs[i].place == 1 && rs[i].id == Leader(rs, |rs|, none)
  {
    EveryPlaceTaken(rs, 1);
    LeaderMeaning(rs, |rs|, none);
    i :| 0 <= i < |rs| && rs[i].place == 1 && rs[i].id == Leader(rs, |rs|, none);
  }

  lemma TimeCapKeeps(r: Race, n: nat, p: RaceParams)
    requires p.Valid() && Running(r, n, p)
    ensures var r' := FinishByLeader(r, p); Decided(r') && HasRacer(r'.racers, r'.winnerId)
  {
    var rs := Ranked(r.racers, p);
    RankedPlaces(r.racers, p);
    var i := LeaderWins(rs, r.winnerId);
    hide Ranked, PlacesRight, OrdersExact, LiveCount, Leader;
    IndexOfId(rs, i);
    assert forall j | 0 <= j < |rs| && rs[j].id == rs[i].id :: j == i;
  }

  // ---- runs -------------------------------------------------------------

  function CountKind(events: seq<Event>, kind: EventKind): nat {
    if events == [] then 0 else (if events[0].kind == kind then 1 else 0) + CountKind(events[1..], kind)
  }

  // A race with what has happened in it: time raced, last-place changes, eliminations.
  datatype Tally = Tally(race: Race, elapsed: real, changes: nat, outs: nat)

  ghost function Tallied(t: Tally, op: Op, p: RaceParams): (t': Tally)
    requires ById(t.race.racers) && |p.stageTimes| == 6
    ensures ById(t'.race.racers)
  {
    var (race, events) := Step(t.race, op, p);
    Tally(race,
          if op.Tick? && t.race.started && !t.race.finished then t.elapsed + op.dt else t.elapsed,
          t.changes + CountKind(events, LastPlaceChanged),
          t.outs + CountKind(events, Eliminated))
  }

  ghost function Run(ids: seq<int>, ops: seq<Op>, p: RaceParams): (t: Tally)
    requires Distinct(ids) && |p.stageTimes| == 6
    ensures ById(t.race.racers)
  {
    if ops == [] then
      GridById(ids);
      Tally(Start(ids, p), 0.0, 0, 0)
    else
      Tallied(Run(ids, ops[..|ops| - 1], p), ops[|ops| - 1], p)
  }

  lemma GridById(ids: seq<int>)
    requires Distinct(ids)
    ensures ById(Grid(ids)) && |Grid(ids)| == |ids|
    ensures forall r :: r in Grid(ids) ==> r.Live() && r.id in ids
  {
    var rs := seq(|ids|, i requires 0 <= i < |ids| => Racer(ids[i], 0.0, 0, 0, 1.0));
    assert forall i, j | 0 <= i < j < |rs| :: rs[i].id != rs[j].id;
    SortBySorts(rs, ID_ORDER);
    SameMembers(Grid(ids), rs);
  }

  lemma {:induction false} AllLive(rs: seq<Racer>, n: nat)
    requires n <= |rs| && forall i | 0 <= i < n :: rs[i].Live()
    ensures |LiveIndices(rs, n)| == n
  {
    if n != 0 {
      AllLive(rs, n - 1);
    }
  }

  lemma StartKeeps(ids: seq<int>, p: RaceParams)
    requires p.Valid() && Distinct(ids) && 0 !in ids && |ids| >= 2
    ensures ById(Grid(ids)) && Running(Start(ids, p), |ids|, p) && !Start(ids, p).finished
  {
    hide Grid, Ranked, LineUp, LiveCount;
    GridById(ids);
    var grid := Grid(ids);
    forall i | 0 <= i < |grid|
      ensures grid[i].Live() && grid[i].id != 0
    {
      assert grid[i] in grid;
    }
    FreshLine(grid, p);
  }

  // Nobody out yet: ranked, that is a line-up.
  lemma FreshLine(rs: seq<Racer>, p: RaceParams)
    requires ById(rs) && forall i | 0 <= i < |rs| :: rs[i].Live() && rs[i].id != 0
    ensures LineUp(Ranked(rs, p), 0, |rs|) && LiveCount(Ranked(rs, p)) == |rs|
  {
    hide Ranked, RankedRacer, PlacesRight, LiveCount, OrdersExact;
    AllCounted(rs);
    RankedPlaces(rs, p);
    NobodyOrdered(Ranked(rs, p));
  }

  lemma AllCounted(rs: seq<Racer>)
    requires forall i | 0 <= i < |rs| :: rs[i].Live()
    ensures LiveCount(rs) == |rs|
  {
    AllLive(rs, |rs|);
  }

  lemma NobodyOrdered(rs: seq<Racer>)
    requires forall i | 0 <= i < |rs| :: rs[i].Live()
    ensures OrdersExact(rs, 0)
  {
  }

  function Repeated(a: real, n: nat): real {
    a * (n as real)
  }

  // Time raced so far and time left on the clock, against what the events allow:
  // each change of last place adds a later stage, each elimination a first stage
  // and the part of a tick by which the clock overran.
  ghost predicate TimeBounded(t: Tally, maxDt: real, p: RaceParams)
    requires p.Valid()
  {
    t.elapsed + t.race.timer
      <= p.StageTime(0) + Repeated(p.StageTime(1), t.changes) + Repeated(p.StageTime(0) + maxDt, t.outs)
  }

  ghost predicate LaterStagesShorter(p: RaceParams)
    requires p.Valid()
  {
    forall i | 1 <= i < 6 :: p.stageTimes[i] <= p.stageTimes[1]
  }

  lemma EliminateTime(r: Race, i: int, p: RaceParams)
    requires |p.stageTimes| == 6 && ById(r.racers) && 0 <= i < |r.racers| && r.racers[i].Live()
    ensures var (r', events) := Eliminate(r, r.racers[i].id, p);
            && r'.timer == p.StageTime(0)
            && CountKind(events, LastPlaceChanged) == 0 && CountKind(events, Eliminated) == 1
  {
    IndexOfId(r.racers, i);
    var events := Eliminate(r, r.racers[i].id, p).1;
    CountFirst(events, LastPlaceChanged);
    CountFirst(events, Eliminated);
  }

  lemma CountFirst(events: seq<Event>, kind: EventKind)
    requires |events| == 1 || (|events| == 2 && events[1].kind == Winner && kind != Winner)
    ensures CountKind(events, kind) == if events[0].kind == kind then 1 else 0
  {
    if |events| == 2 {
      assert events[1..] == [events[1]];
      assert CountKind([events[1]], kind) == CountKind([], kind);
    }
  }

  lemma ZeroOrOne(a: real, n: nat)
    requires n <= 1
    ensures Repeated(a, n) == if n == 1 then a else 0.0
  {
  }

  // What one step adds to time raced plus time left, by its events.
  ghost predicate TimeGrowsBy(r: Race, dt: real, r': Race, events: seq<Event>, maxDt: real, p: RaceParams)
    requires p.Valid()
  {
    r'.timer + dt <= r.timer + Repeated(p.StageTime(1), CountKind(events, LastPlaceChanged))
                   + Repeated(p.StageTime(0) + maxDt, CountKind(events, Eliminated))
  }

  lemma UpdateTime(r: Race, progress: seq<Progress>, dt: real, n: nat, maxDt: real, p: RaceParams)
    requires p.Valid() && LaterStagesShorter(p) && Running(r, n, p) && 0.0 < dt <= maxDt
    ensures var (r', events) := Update(r, progress, dt, p); TimeGrowsBy(r, dt, r', events, maxDt, p)
  {
    hide Ranked, PlacesRight, OrdersExact, LiveCount, OnTheClock, Eliminate, CurrentLast, TimeGrowsBy;
    LineUpAfterProgress(r.racers, progress, r.eliminatedCount, n, p);
    var ranked := RankedRace(r, progress, p);
    LiveCountBounded(ranked.racers);
    var i := OnTheClockWithin(ranked.racers, r.lastPlaceId, r.eliminatedCount, n, p);
    var (ticked, events) := TickClock(ranked, dt, p);
    var changes := CountKind(events, LastPlaceChanged);
    assert changes == |events| <= 1 && CountKind(events, Eliminated) == 0;
    if ticked.timer <= 0.0 {
      EliminateTime(ticked, i, p);
      var (r', more) := Eliminate(ticked, ticked.lastPlaceId, p);
      CountKindAdds(events, more, LastPlaceChanged);
      CountKindAdds(events, more, Eliminated);
      GrowsBy(r, dt, r', events + more, maxDt, p);
    } else {
      GrowsBy(r, dt, ticked, events, maxDt, p);
    }
  }

  lemma GrowsBy(r: Race, dt: real, r': Race, events: seq<Event>, maxDt: real, p: RaceParams)
    requires p.Valid() && CountKind(events, LastPlaceChanged) <= 1 && CountKind(events, Eliminated) <= 1
    requires r'.timer + dt <= r.timer + (if CountKind(events, LastPlaceChanged) == 1 then p.StageTime(1) else 0.0)
                            + (if CountKind(events, Eliminated) == 1 then p.StageTime(0) + maxDt else 0.0)
    ensures TimeGrowsBy(r, dt, r', events, maxDt, p)
  {
    ZeroOrOne(p.StageTime(1), CountKind(events, LastPlaceChanged));
    ZeroOrOne(p.StageTime(0) + maxDt, CountKind(events, Eliminated));
  }

  lemma StepTime(r: Race, op: Op, n: nat, maxDt: real, p: RaceParams)
    requires p.Valid() && LaterStagesShorter(p) && Running(r, n, p) && maxDt > 0.0
    requires op.Tick? ==> 0.0 < op.dt <= maxDt
    ensures var (r', events) := Step(r, op, p);
            TimeGrowsBy(r, if op.Tick? then op.dt else 0.0, r', events, maxDt, p)
  {
    hide TimeGrowsBy;
    match op
    case Tick(progress, dt) => UpdateTime(r, progress, dt, n, maxDt, p);
    case Leave(id) =>
      var i := IndexOf(r.racers, id);
      if i < n && r.racers[i].Live() {
        EliminateTime(r, i, p);
      }
      GrowsBy(r, 0.0, Remove(r, id, p).0, Remove(r, id, p).1, maxDt, p);
    case TimeCap =>
      GrowsBy(r, 0.0, FinishByLeader(r, p), [], maxDt, p);
  }

  lemma {:induction false} CountKindAdds(a: seq<Event>, b: seq<Event>, kind: EventKind)
    ensures CountKind(a + b, kind) == CountKind(a, kind) + CountKind(b, kind)
  {
    if a == [] {
      assert a + b == b;
    } else {
      assert (a + b)[1..] == a[1..] + b;
      CountKindAdds(a[1..], b, kind);
    }
  }

  ghost predicate TicksUpTo(ops: seq<Op>, maxDt: real) {
    forall i | 0 <= i < |ops| && ops[i].Tick? :: 0.0 < ops[i].dt <= maxDt
  }

  // The invariant of every run from a start with at least two different cars:
  // until the finish the line-up and the clock are as Running says, from the
  // finish on there is a winner; and the time bound holds throughout.
  lemma {:induction false} RunKeeps(ids: seq<int>, ops: seq<Op>, maxDt: real, p: RaceParams)
    requires p.Valid() && LaterStagesShorter(p) && Distinct(ids) && 0 !in ids && |ids| >= 2
    requires maxDt > 0.0 && TicksUpTo(ops, maxDt)
    ensures var t := Run(ids, ops, p);
            && (if t.race.finished then Decided(t.race) else Running(t.race, |ids|, p))
            && TimeBounded(t, maxDt, p)
  {
    hide Step, Running, Decided, TimeBounded, Start, TimeGrowsBy;
    if ops == [] {
      StartKeeps(ids, p);
      StartTime(ids, maxDt, p);
    } else {
      var front, op := ops[..|ops| - 1], ops[|ops| - 1];
      RunKeeps(ids, front, maxDt, p);
      var t := Run(ids, front, p);
      if t.race.finished {
        DecidedStays(t.race, op, p);
        TallyStays(t, op, maxDt, p);
      } else {
        RunningStarted(t.race, |ids|, p);
        StepKeeps(t.race, op, |ids|, p);
        StepTime(t.race, op, |ids|, maxDt, p);
        TallyBound(t, op, maxDt, p);
      }
    }
  }

  lemma StepKeeps(r: Race, op: Op, n: nat, p: RaceParams)
    requires p.Valid() && Running(r, n, p) && (op.Tick? ==> op.dt > 0.0)
    ensures var r' := Step(r, op, p).0;
            && (if r'.finished then Decided(r') && HasRacer(r'.racers, r'.winnerId) else Running(r', n, p))
            && (op.Tick? ==> ClockOnLast(r', p))
  {
    match op
    case Tick(progress, dt) => UpdateKeeps(r, progress, dt, n, p);
    case Leave(id) => LeaveKeeps(r, id, n, p);
    case TimeCap => TimeCapKeeps(r, n, p);
  }

  lemma DecidedStays(r: Race, op: Op, p: RaceParams)
    requires p.Valid() && Decided(r)
    ensures var (r', events) := Step(r, op, p); Decided(r') && events == [] && r' == r.(racers := r'.racers)
  {
    if op.Leave? {
      var rs := Dropped(r.racers, op.id);
      DroppedById(r.racers, op.id);
      assert forall i | 0 <= i < |rs| :: rs[i] in rs;
    }
  }

  lemma StartTime(ids: seq<int>, maxDt: real, p: RaceParams)
    requires p.Valid() && ById(Grid(ids))
    ensures TimeBounded(Tally(Start(ids, p), 0.0, 0, 0), maxDt, p)
  {
    ZeroOrOne(p.StageTime(1), 0);
    ZeroOrOne(p.StageTime(0) + maxDt, 0);
  }

  lemma RunningStarted(r: Race, n: nat, p: RaceParams)
    requires p.Valid() && Running(r, n, p)
    ensures r.started && !r.finished
  {
  }

  lemma TallyStays(t: Tally, op: Op, maxDt: real, p: RaceParams)
    requires p.Valid() && ById(t.race.racers) && t.race.finished && TimeBounded(t, maxDt, p)
    requires var (r', events) := Step(t.race, op, p); events == [] && r' == t.race.(racers := r'.racers)
    ensures TimeBounded(Tallied(t, op, p), maxDt, p)
  {
    hide Step;
    var t' := Tallied(t, op, p);
    assert t'.changes == t.changes && t'.outs == t.outs && t'.elapsed == t.elapsed && t'.race.timer == t.race.timer;
  }

  lemma TallyBound(t: Tally, op: Op, maxDt: real, p: RaceParams)
    requires p.Valid() && ById(t.race.racers) && t.race.started && !t.race.finished && TimeBounded(t, maxDt, p)
    requires var (r', events) := Step(t.race, op, p);
             TimeGrowsBy(t.race, if op.Tick? then op.dt else 0.0, r', events, maxDt, p)
    ensures TimeBounded(Tallied(t, op, p), maxDt, p)
  {
    hide Step, Repeated;
    var events := Step(t.race, op, p).1;
    var c, e := CountKind(events, LastPlaceChanged), CountKind(events, Eliminated);
    TimesAdds(p.StageTime(1), t.changes, c);
    TimesAdds(p.StageTime(0) + maxDt, t.outs, e);
  }

  lemma TimesAdds(a: real, m: nat, n: nat)
    ensures Repeated(a, m + n) == Repeated(a, m) + Repeated(a, n)
  {
    assert (m + n) as real == m as real + n as real;
  }

  // With the shipped stage times: 32 s to begin with, at most 16 s more for each
  // change of last place and 32 s and a tick for each elimination.
  lemma TimeBoundDefault(ids: seq<int>, ops: seq<Op>, dt: real)
    requires Distinct(ids) && 0 !in ids && |ids| >= 2 && dt > 0.0 && TicksUpTo(ops, dt)
    ensures var t := Run(ids, ops, DEFAULT_PARAMS);
            t.elapsed + t.race.timer <= 32.0 + 16.0 * (t.changes as real) + (32.0 + dt) * (t.outs as real)
  {
    hide Run, Step, Running, Decided;
    var p := DEFAULT_PARAMS;
    assert p.StageTime(0) == 32.0 && p.StageTime(1) == 16.0;
    RunKeeps(ids, ops, dt, p);
  }
}
