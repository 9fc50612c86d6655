/** The rules of the elimination race, as functions of the race's state. */
module RaceRules {
  import opened Basics
  import opened Snapshots
  import opened Sorting

  datatype RaceParams = RaceParams(stageTimes: seq<real>, overtakeMargin: real, rechargeLeader: real, rechargeLast: real) {
    predicate Valid() {
      && |stageTimes| == 6 && (forall i | 0 <= i < 6 :: stageTimes[i] > 0.0)
      && overtakeMargin >= 0.0
    }

    function StageTime(stage: nat): real
      requires |stageTimes| == 6
    {
      stageTimes[if stage < 5 then stage else 5]
    }
  }

  const DEFAULT_PARAMS := RaceParams([32.0, 16.0, 8.0, 4.0, 2.0, 1.0], 1.5, 0.5, 2.0)

  datatype Racer = Racer(id: int, distance: real, eliminatedOrder: nat, place: nat, multiplier: real) {
    predicate Live() {
      eliminatedOrder == 0
    }
  }

  datatype EventKind = LastPlaceChanged | Eliminated | Winner
  datatype Event = Event(kind: EventKind, playerId: int, stage: nat)
  datatype Progress = Progress(playerId: int, distance: real)

  datatype Race = Race(
    racers: seq<Racer>,
    started: bool,
    finished: bool,
    timer: real,
    stage: nat,
    lastPlaceId: int,
    winnerId: int,
    eliminatedCount: nat)

  // The racers are kept in id order, each id once.
  ghost predicate ById(rs: seq<Racer>) {
    forall i, j | 0 <= i < j < |rs| :: rs[i].id < rs[j].id
  }

  // ---- places -----------------------------------------------------------

  // Further along is better; ties go to the lower id.
  predicate Ahead(a: Racer, b: Racer) {
    if a.distance != b.distance then a.distance > b.distance else a.id < b.id
  }

  function LiveIndices(rs: seq<Racer>, n: nat): (live: seq<int>)
    requires n <= |rs|
    ensures forall i :: i in live <==> 0 <= i < n && rs[i].Live()
    ensures Distinct(live)
  {
    if n == 0 then []
    else if rs[n - 1].Live() then LiveIndices(rs, n - 1) + [n - 1]
    else LiveIndices(rs, n - 1)
  }

  function BetterPlaced(rs: seq<Racer>): (int, int) -> bool {
    (i, j) => 0 <= i < |rs| && 0 <= j < |rs| && Ahead(rs[i], rs[j])
  }

  // The live racers, leader first.
  function LiveOrder(rs: seq<Racer>): (order: seq<int>) {
    SortBy(LiveIndices(rs, |rs|), BetterPlaced(rs))
  }

  function LiveCount(rs: seq<Racer>): nat {
    |LiveIndices(rs, |rs|)|
  }

  // The live racers ahead of racer i.
  ghost function AheadSet(rs: seq<Racer>, i: int): (s: set<int>)
    requires 0 <= i < |rs|
    ensures forall j :: j in s <==> 0 <= j < |rs| && rs[j].Live() && Ahead(rs[j], rs[i])
  {
    set j | 0 <= j < |rs| && rs[j].Live() && Ahead(rs[j], rs[i])
  }

  // 1 for the leader, one more for each live racer ahead; 0 for a racer that is out.
  ghost function PlaceOf(rs: seq<Racer>, i: int): nat
    requires 0 <= i < |rs|
  {
    if rs[i].Live() then |AheadSet(rs, i)| + 1 else 0
  }

  // The recharge multiplier: rechargeLeader for the leader up to rechargeLast
  // for the last car, linear in progress in between.
  function RechargeMultiplier(progress: real, leader: real, last: real, p: RaceParams): real {
    var span := leader - last;
    if span < 0.001 then
      if progress >= leader then p.rechargeLeader else p.rechargeLast
    else
      var q := (leader - progress) / span;
      var t := if q < 0.0 then 0.0 else if q > 1.0 then 1.0 else q;
      p.rechargeLeader + (p.rechargeLast - p.rechargeLeader) * t
  }

  // The multiplier of the racer at position k of the live order.
  function MultiplierAt(rs: seq<Racer>, order: seq<int>, k: nat, p: RaceParams): real
    requires k < |order| && forall m | 0 <= m < |order| :: 0 <= order[m] < |rs|
  {
    if |order| == 1 then 1.0
    else if k == 0 then p.rechargeLeader
    else if k + 1 == |order| then p.rechargeLast
    else RechargeMultiplier(rs[order[k]].distance, rs[order[0]].distance, rs[order[|order| - 1]].distance, p)
  }

  ghost function RankedRacer(rs: seq<Racer>, i: int, p: RaceParams): Racer
    requires ById(rs) && 0 <= i < |rs|
  {
    if !rs[i].Live() then rs[i].(place := 0)
    else
      LiveOrderMembers(rs);
      PlaceInOrder(rs, i);
      rs[i].(place := PlaceOf(rs, i), multiplier := MultiplierAt(rs, LiveOrder(rs), PlaceOf(rs, i) - 1, p))
  }

  // Recomputed places and multipliers; nothing else changes.
  ghost function Ranked(rs: seq<Racer>, p: RaceParams): (r: seq<Racer>)
    requires ById(rs)
    ensures |r| == |rs| && ById(r)
    ensures forall i | 0 <= i < |rs| :: r[i] == RankedRacer(rs, i, p)
  {
    seq(|rs|, i requires 0 <= i < |rs| => RankedRacer(rs, i, p))
  }

  lemma LiveOrderMembers(rs: seq<Racer>)
    ensures forall i :: i in LiveOrder(rs) <==> 0 <= i < |rs| && rs[i].Live()
    ensures |LiveOrder(rs)| == LiveCount(rs)
    ensures forall m | 0 <= m < |LiveOrder(rs)| :: 0 <= LiveOrder(rs)[m] < |rs| && rs[LiveOrder(rs)[m]].Live()
  {
    forall m | 0 <= m < |LiveOrder(rs)|
      ensures LiveOrder(rs)[m] in LiveOrder(rs)
    {
    }
    SameMembers(LiveOrder(rs), LiveIndices(rs, |rs|));
  }

  lemma BetterPlacedOrders(rs: seq<Racer>, dom: set<int>)
    requires ById(rs) && forall i | i in dom :: 0 <= i < |rs|
    ensures StrictOrder(BetterPlaced(rs), dom)
  {
  }

  lemma LiveOrderSorted(rs: seq<Racer>)
    requires ById(rs)
    ensures Sorted(LiveOrder(rs), BetterPlaced(rs)) && Distinct(LiveOrder(rs))
  {
    var live, order, less := LiveIndices(rs, |rs|), LiveOrder(rs), BetterPlaced(rs);
    BetterPlacedOrders(rs, Elements(live));
    SortBySorts(live, less);
    SameMembers(order, live);
    SortedDistinct(order, less);
  }

  // Sorting the live racers and counting the racers ahead give the same places.
  lemma OrderPlaces(rs: seq<Racer>, k: nat)
    requires ById(rs) && k < LiveCount(rs)
    ensures |LiveOrder(rs)| == LiveCount(rs) && 0 <= LiveOrder(rs)[k] < |rs|
    ensures rs[LiveOrder(rs)[k]].Live() && PlaceOf(rs, LiveOrder(rs)[k]) == k + 1
  {
    var order := LiveOrder(rs);
    LiveOrderMembers(rs);
    LiveOrderSorted(rs);
    var i := order[k];
    assert i in order;
    var before := order[..k];
    forall j
      ensures j in AheadSet(rs, i) <==> j in before
    {
      AheadInOrder(rs, order, k, j);
    }
    assert AheadSet(rs, i) == Elements(before);
    DistinctCount(before);
  }

  lemma AheadInOrder(rs: seq<Racer>, order: seq<int>, k: nat, j: int)
    requires ById(rs) && k < |order| && Sorted(order, BetterPlaced(rs))
    requires forall m | 0 <= m < |order| :: 0 <= order[m] < |rs| && rs[order[m]].Live()
    requires forall x :: x in order <==> 0 <= x < |rs| && rs[x].Live()
    ensures j in AheadSet(rs, order[k]) <==> j in order[..k]
  {
    if j in order[..k] {
      var m :| 0 <= m < k && order[m] == j;
      assert BetterPlaced(rs)(order[m], order[k]);
    }
    if j in AheadSet(rs, order[k]) {
      assert j in order;
      var m :| 0 <= m < |order| && order[m] == j;
      assert order[..k][m] == j;
    }
  }

  // Every live racer stands in the order, at its place.
  lemma PlaceInOrder(rs: seq<Racer>, i: int)
    requires ById(rs) && 0 <= i < |rs| && rs[i].Live()
    ensures 1 <= PlaceOf(rs, i) <= |LiveOrder(rs)| && LiveOrder(rs)[PlaceOf(rs, i) - 1] == i
  {
    LiveOrderMembers(rs);
    assert i in LiveOrder(rs);
    var k :| 0 <= k < |LiveOrder(rs)| && LiveOrder(rs)[k] == i;
    OrderPlaces(rs, k);
  }

  lemma {:induction false} DistinctCount(s: seq<int>)
    requires Distinct(s)
    ensures |Elements(s)| == |s|
  {
    if s == [] {
    } else {
      DistinctCount(s[1..]);
      assert Elements(s) == {s[0]} + Elements(s[1..]);
      assert s[0] !in Elements(s[1..]);
    }
  }

  // ---- transitions ------------------------------------------------------

  // The first racer with this id, or |rs|.
  function IndexOf(rs: seq<Racer>, id: int): (i: nat)
    ensures i <= |rs|
    ensures i < |rs| ==> rs[i].id == id
    ensures forall j | 0 <= j < i :: rs[j].id != id
  {
    if rs == [] then 0 else if rs[0].id == id then 0 else 1 + IndexOf(rs[1..], id)
  }

  function ApplyProgress(rs: seq<Racer>, progress: seq<Progress>): (r: seq<Racer>)
    ensures |r| == |rs|
    ensures forall i | 0 <= i < |rs| :: r[i] == rs[i].(distance := r[i].distance)
    decreases |progress|
  {
    if progress == [] then rs
    else
      var i := IndexOf(rs, progress[0].playerId);
      ApplyProgress(if i < |rs| then rs[i := rs[i].(distance := progress[0].distance)] else rs, progress[1..])
  }

  // The live racer with the greatest place among the first n, as (place, id).
  function WorstPlace(rs: seq<Racer>, n: nat): (nat, int)
    requires n <= |rs|
  {
    if n == 0 then (0, 0)
    else
      var (worst, id) := WorstPlace(rs, n - 1);
      if rs[n - 1].Live() && rs[n - 1].place > worst then (rs[n - 1].place, rs[n - 1].id) else (worst, id)
  }

  function CurrentLast(rs: seq<Racer>): int {
    WorstPlace(rs, |rs|).1
  }

  // Everyone on the grid: ids sorted, nobody placed yet.
  function Grid(ids: seq<int>): seq<Racer> {
    SortBy(seq(|ids|, i requires 0 <= i < |ids| => Racer(ids[i], 0.0, 0, 0, 1.0)), ID_ORDER)
  }

  const ID_ORDER := (a: Racer, b: Racer) => a.id < b.id

  ghost function Start(ids: seq<int>, p: RaceParams): Race
    requires |p.stageTimes| == 6 && ById(Grid(ids))
  {
    Race(Ranked(Grid(ids), p), true, false, p.StageTime(0), 0, 0, 0, 0)
  }

  // The racers of a snapshot, nobody placed yet.
  function FromCars(cars: seq<CarRecord>): seq<Racer> {
    seq(|cars|, i requires 0 <= i < |cars| => Racer(cars[i].playerId, cars[i].distance, cars[i].eliminatedOrder, 0, 1.0))
  }

  function MaxOrder(cars: seq<CarRecord>): nat {
    if cars == [] then 0 else MaxNat(MaxOrder(cars[..|cars| - 1]), cars[|cars| - 1].eliminatedOrder)
  }

  // A new host continues the race from the newest snapshot.
  ghost function Restore(snap: Snapshot, p: RaceParams): Race
    requires ById(SortBy(FromCars(snap.cars), ID_ORDER))
  {
    Race(Ranked(SortBy(FromCars(snap.cars), ID_ORDER), p),
         snap.phase.Racing? || snap.phase.Results?,
         snap.winnerPlayerId != 0,
         snap.eliminationTimer, snap.eliminationStage, snap.lastPlacePlayerId, snap.winnerPlayerId,
         MaxOrder(snap.cars))
  }

  // What an elimination makes of the race once the racers are ranked again.
  function OutWith(r: Race, rs: seq<Racer>, id: int, p: RaceParams): (Race, seq<Event>)
    requires |p.stageTimes| == 6
  {
    var next := r.(racers := rs, eliminatedCount := r.eliminatedCount + 1, stage := 0, timer := p.StageTime(0), lastPlaceId := CurrentLast(rs));
    var out := Event(Eliminated, id, 0);
    if LiveCount(rs) == 1 then
      (next.(winnerId := next.lastPlaceId, finished := true), [out, Event(Winner, next.lastPlaceId, 0)])
    else
      (next, [out])
  }

  ghost function Eliminate(r: Race, id: int, p: RaceParams): (out: (Race, seq<Event>))
    requires ById(r.racers) && |p.stageTimes| == 6
    ensures ById(out.0.racers)
  {
    var i := IndexOf(r.racers, id);
    if i == |r.racers| || !r.racers[i].Live() then (r, [])
    else
      OutWith(r, Ranked(r.racers[i := r.racers[i].(eliminatedOrder := r.eliminatedCount + 1)], p), id, p)
  }

  function Dropped(rs: seq<Racer>, id: int): seq<Racer> {
    if rs == [] then []
    else if rs[0].id == id then Dropped(rs[1..], id)
    else [rs[0]] + Dropped(rs[1..], id)
  }

  lemma {:induction false} DroppedById(rs: seq<Racer>, id: int)
    requires ById(rs)
    ensures ById(Dropped(rs, id))
    ensures forall r :: r in Dropped(rs, id) <==> r in rs && r.id != id
  {
    if rs == [] {
    } else {
      DroppedById(rs[1..], id);
      assert rs == [rs[0]] + rs[1..];
      HeadById(rs, Dropped(rs[1..], id));
    }
  }

  lemma HeadById(rs: seq<Racer>, d: seq<Racer>)
    requires ById(rs) && rs != [] && ById(d) && forall r | r in d :: r in rs[1..]
    ensures ById([rs[0]] + d)
  {
    forall i | 0 <= i < |d|
      ensures rs[0].id < d[i].id
    {
      assert d[i] in rs[1..];
    }
  }

  // Places and multipliers handed out along the live order are the ranking.
  lemma RankedByOrder(was: seq<Racer>, rs: seq<Racer>, p: RaceParams)
    requires ById(was) && |rs| == |was|
    requires forall m | 0 <= m < |LiveOrder(was)| :: 0 <= LiveOrder(was)[m] < |was|
    requires forall j | 0 <= j < |was| && !was[j].Live() :: rs[j] == was[j].(place := 0)
    requires forall k | 0 <= k < |LiveOrder(was)| ::
               rs[LiveOrder(was)[k]] == was[LiveOrder(was)[k]].(place := k + 1, multiplier := MultiplierAt(was, LiveOrder(was), k, p))
    ensures rs == Ranked(was, p)
  {
    forall j | 0 <= j < |was|
      ensures rs[j] == RankedRacer(was, j, p)
    {
      if was[j].Live() {
        PlaceInOrder(was, j);
      }
    }
  }

  // A player who leaves counts as eliminated during the race and is dropped
  // before and after it.
  ghost function Remove(r: Race, id: int, p: RaceParams): (out: (Race, seq<Event>))
    requires ById(r.racers) && |p.stageTimes| == 6
    ensures ById(out.0.racers)
  {
    if r.started && !r.finished then Eliminate(r, id, p)
    else DroppedById(r.racers, id); (r.(racers := Dropped(r.racers, id)), [])
  }

  // The id of the last racer with place 1 among the first n, or the given id.
  function Leader(rs: seq<Racer>, n: nat, none: int): int
    requires n <= |rs|
  {
    if n == 0 then none
    else if rs[n - 1].place == 1 then rs[n - 1].id
    else Leader(rs, n - 1, none)
  }

  // The overall time cap: whoever leads wins.
  ghost function FinishByLeader(r: Race, p: RaceParams): (r': Race)
    requires ById(r.racers)
    ensures ById(r'.racers)
  {
    if r.finished || !r.started then r
    else
      var rs := Ranked(r.racers, p);
      r.(racers := rs, winnerId := Leader(rs, |rs|, r.winnerId), finished := true)
  }

  // Who is on the clock after ranking: (last place, whether it changed hands).
  function OnTheClock(rs: seq<Racer>, lastPlaceId: int, p: RaceParams): (int, bool) {
    var candidate, cur := CurrentLast(rs), IndexOf(rs, lastPlaceId);
    if cur == |rs| || !rs[cur].Live() then (candidate, false)
    else
      var c := IndexOf(rs, candidate);
      if candidate != lastPlaceId && c < |rs| && rs[cur].distance > rs[c].distance + p.overtakeMargin
      then (candidate, true)
      else (lastPlaceId, false)
  }

  // The clock after ranking: last place may change hands, then time passes.
  function TickClock(r: Race, dt: real, p: RaceParams): (Race, seq<Event>)
    requires |p.stageTimes| == 6
  {
    var (last, changed) := OnTheClock(r.racers, r.lastPlaceId, p);
    var stage := if changed then Min(r.stage + 1, 5) else r.stage;
    var timer := (if changed then p.StageTime(stage) else r.timer) - dt;
    (r.(lastPlaceId := last, stage := stage, timer := timer),
     if changed then [Event(LastPlaceChanged, last, stage)] else [])
  }

  ghost function RankedRace(r: Race, progress: seq<Progress>, p: RaceParams): (r': Race)
    requires ById(r.racers)
    ensures ById(r'.racers)
  {
    r.(racers := Ranked(ApplyProgress(r.racers, progress), p))
  }

  // One tick of the race.
  ghost function Update(r: Race, progress: seq<Progress>, dt: real, p: RaceParams): (out: (Race, seq<Event>))
    requires ById(r.racers) && |p.stageTimes| == 6
    ensures ById(out.0.racers)
  {
    if !r.started || r.finished then (r, [])
    else
      var ranked := RankedRace(r, progress, p);
      if |ranked.racers| < 2 then (ranked, [])
      else
        var (ticked, events) := TickClock(ranked, dt, p);
        if ticked.timer <= 0.0 then
          var (next, more) := Eliminate(ticked, ticked.lastPlaceId, p);
          (next, events + more)
        else
          (ticked, events)
  }

  function Min(a: nat, b: nat): nat {
    if a < b then a else b
  }
}
