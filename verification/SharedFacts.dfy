/** Facts the host computes from its race and a client computes from the snapshot. */
module SharedFacts {
  import opened Basics
  import opened HostMigration
  import HostRuns
  import MatchPhases
  import opened RaceRules
  import opened RaceRuns
  import opened Snapshots
  import opened Sorting

  // ---- finishing order ------------------------------------------------------

  // What both orders look at.
  datatype Standing = Standing(id: int, order: nat, place: nat)

  // The winner, then the cars still in by place, then the latest eliminated first.
  function FinishesBefore(winner: int): (Standing, Standing) -> bool {
    (a: Standing, b: Standing) =>
      if (a.id == winner) != (b.id == winner) then a.id == winner
      else if (a.order == 0) != (b.order == 0) then a.order == 0
      else if a.order == 0 then a.place < b.place
      else a.order > b.order
  }

  function RacerStandings(rs: seq<Racer>): seq<Standing> {
    seq(|rs|, i requires 0 <= i < |rs| => Standing(rs[i].id, rs[i].eliminatedOrder, rs[i].place))
  }

  function CarStandings(cars: seq<CarRecord>): seq<Standing> {
    seq(|cars|, i requires 0 <= i < |cars| => Standing(cars[i].playerId, cars[i].eliminatedOrder, cars[i].place))
  }

  function Ids(s: seq<Standing>): seq<int> {
    seq(|s|, i requires 0 <= i < |s| => s[i].id)
  }

  // On the host.
  function FinishingOrder(r: Race): seq<int> {
    Ids(SortBy(RacerStandings(r.racers), FinishesBefore(r.winnerId)))
  }

  // On a client.
  function FinishingOrderFrom(snap: Snapshot): seq<int> {
    Ids(SortBy(CarStandings(snap.cars), FinishesBefore(snap.winnerPlayerId)))
  }

  ghost predicate RacedOut(r: Race) {
    ById(r.racers) && Rankable(r.racers)
  }

  lemma StandingsOrdered(r: Race)
    requires RacedOut(r)
    ensures Distinct(RacerStandings(r.racers))
    ensures StrictOrder(FinishesBefore(r.winnerId), Elements(RacerStandings(r.racers)))
  {
    var rs, s, less := r.racers, RacerStandings(r.racers), FinishesBefore(r.winnerId);
    forall x, y | x in Elements(s) && y in Elements(s)
      ensures x == y || less(x, y) || less(y, x)
    {
      var i :| 0 <= i < |s| && s[i] == x;
      var j :| 0 <= j < |s| && s[j] == y;
      assert rs[i] in rs && rs[j] in rs;
    }
  }

  lemma OrderSorted(r: Race)
    requires RacedOut(r)
    ensures var s, t, less := RacerStandings(r.racers), SortBy(RacerStandings(r.racers), FinishesBefore(r.winnerId)), FinishesBefore(r.winnerId);
      Sorted(t, less) && Distinct(t) && |t| == |s| && forall x :: x in t <==> x in s
  {
    var s, less := RacerStandings(r.racers), FinishesBefore(r.winnerId);
    StandingsOrdered(r);
    SortBySorts(s, less);
    SameMembers(SortBy(s, less), s);
    SortedDistinct(SortBy(s, less), less);
  }

  lemma IdsNamed(rs: seq<Racer>, t: seq<Standing>, id: int)
    requires forall x :: x in t <==> x in RacerStandings(rs)
    ensures id in Ids(t) <==> IndexOf(rs, id) < |rs|
  {
    var s := RacerStandings(rs);
    if id in Ids(t) {
      var k :| 0 <= k < |t| && Ids(t)[k] == id;
      assert t[k] in s;
      var i :| 0 <= i < |s| && s[i] == t[k];
      assert rs[i].id == id;
    }
    if IndexOf(rs, id) < |rs| {
      var i := IndexOf(rs, id);
      assert s[i] in t;
      var k :| 0 <= k < |t| && t[k] == s[i];
      assert Ids(t)[k] == id;
    }
  }

  // The finishing order names every racer once, the winner first.
  lemma FinishingOrderMeaning(r: Race)
    requires RacedOut(r)
    ensures Distinct(FinishingOrder(r)) && |FinishingOrder(r)| == |r.racers|
    ensures forall id :: id in FinishingOrder(r) <==> IndexOf(r.racers, id) < |r.racers|
    ensures IndexOf(r.racers, r.winnerId) < |r.racers| ==> FinishingOrder(r)[0] == r.winnerId
  {
    var t, less := SortBy(RacerStandings(r.racers), FinishesBefore(r.winnerId)), FinishesBefore(r.winnerId);
    OrderSorted(r);
    IdsDistinct(r.racers, t);
    forall id
      ensures id in FinishingOrder(r) <==> IndexOf(r.racers, id) < |r.racers|
    {
      IdsNamed(r.racers, t, id);
    }
    if IndexOf(r.racers, r.winnerId) < |r.racers| {
      assert r.winnerId in FinishingOrder(r);
      var k :| 0 <= k < |t| && Ids(t)[k] == r.winnerId;
      LeastFirst(t, t[k], less);
    }
  }

  // Of two racers in the finishing order, neither the winner, the first one is
  // still in and the other is not, or is better placed, or went out later.
  lemma FinishingOrderRanks(r: Race, i: int, j: int)
    requires RacedOut(r) && 0 <= i < |r.racers| && 0 <= j < |r.racers| && i != j
    requires r.racers[i].id != r.winnerId && r.racers[j].id != r.winnerId
    ensures exists k, l :: 0 <= k < |FinishingOrder(r)| && 0 <= l < |FinishingOrder(r)|
              && FinishingOrder(r)[k] == r.racers[i].id && FinishingOrder(r)[l] == r.racers[j].id
              && (k < l <==> (var a, b := r.racers[i], r.racers[j];
                              if a.Live() && b.Live() then a.place < b.place
                              else if a.Live() || b.Live() then a.Live()
                              else a.eliminatedOrder > b.eliminatedOrder))
  {
    hide RacedOut, FinishesBefore, SortBy;
    var k := StandsAt(r, i);
    var l := StandsAt(r, j);
    assert FinishingOrder(r)[k] == r.racers[i].id && FinishingOrder(r)[l] == r.racers[j].id;
    RacedOutIds(r, i, j);
    if k < l {
      BeforeMeans(r, k, l);
    } else {
      BeforeMeans(r, l, k);
    }
    BeforeSays(r.racers, i, j, r.winnerId);
    BeforeSays(r.racers, j, i, r.winnerId);
  }

  lemma RacedOutIds(r: Race, i: int, j: int)
    requires RacedOut(r) && 0 <= i < |r.racers| && 0 <= j < |r.racers| && i != j
    ensures r.racers[i].id != r.racers[j].id
    ensures r.racers[i].Live() == r.racers[j].Live() ==>
              if r.racers[i].Live() then r.racers[i].place != r.racers[j].place
              else r.racers[i].eliminatedOrder != r.racers[j].eliminatedOrder
  {
    assert r.racers[i] in r.racers && r.racers[j] in r.racers;
  }

  lemma StandsAt(r: Race, i: int) returns (k: nat)
    requires RacedOut(r) && 0 <= i < |r.racers|
    ensures var t := SortBy(RacerStandings(r.racers), FinishesBefore(r.winnerId));
            k < |t| && t[k] == RacerStandings(r.racers)[i]
  {
    var s, t := RacerStandings(r.racers), SortBy(RacerStandings(r.racers), FinishesBefore(r.winnerId));
    OrderSorted(r);
    assert s[i] in t;
    k :| k < |t| && t[k] == s[i];
  }

  lemma BeforeMeans(r: Race, k: nat, l: nat)
    requires RacedOut(r) && k <= l < |SortBy(RacerStandings(r.racers), FinishesBefore(r.winnerId))|
    ensures var t := SortBy(RacerStandings(r.racers), FinishesBefore(r.winnerId));
            k == l || FinishesBefore(r.winnerId)(t[k], t[l])
  {
    OrderSorted(r);
  }

  lemma BeforeSays(rs: seq<Racer>, i: int, j: int, winner: int)
    requires 0 <= i < |rs| && 0 <= j < |rs| && rs[i].id != winner && rs[j].id != winner
    ensures FinishesBefore(winner)(RacerStandings(rs)[i], RacerStandings(rs)[j])
       <==> (var a, b := rs[i], rs[j];
             if a.Live() && b.Live() then a.place < b.place
             else if a.Live() || b.Live() then a.Live()
             else a.eliminatedOrder > b.eliminatedOrder)
  {
  }

  lemma IdsDistinct(rs: seq<Racer>, t: seq<Standing>)
    requires ById(rs) && Distinct(t) && forall x :: x in t <==> x in RacerStandings(rs)
    ensures Distinct(Ids(t))
  {
    var s := RacerStandings(rs);
    forall k, l | 0 <= k < l < |t|
      ensures t[k].id != t[l].id
    {
      assert t[k] in s && t[l] in s;
      var i :| 0 <= i < |s| && s[i] == t[k];
      var j :| 0 <= j < |s| && s[j] == t[l];
    }
  }

  // Host and clients show the same finishing order exactly when no car is outside
  // the race: the order never looks at distances.
  lemma FinishingOrdersAgree(r: Race, cars: seq<HostCar>)
    requires RacedOut(r) && r.started && CarsById(cars) && AllHaveCars(r, cars)
    ensures FinishingOrderFrom(Publish(r, cars)) == FinishingOrder(r) <==> NoCarOutside(r, cars)
  {
    if NoCarOutside(r, cars) {
      SameStandings(r, cars);
    } else {
      var j :| 0 <= j < |cars| && IndexOf(r.racers, cars[j].id) == |r.racers|;
      FinishingOrderMeaning(r);
      ClientNames(r, cars, j);
    }
  }

  lemma SameStandings(r: Race, cars: seq<HostCar>)
    requires ById(r.racers) && r.started && CarsById(cars) && AllHaveCars(r, cars) && NoCarOutside(r, cars)
    ensures CarStandings(Publish(r, cars).cars) == RacerStandings(r.racers)
  {
    CarsMatchRacers(r, cars);
    forall i | 0 <= i < |cars|
      ensures CarStandings(Publish(r, cars).cars)[i] == RacerStandings(r.racers)[i]
    {
      IndexOfId(r.racers, i);
    }
  }

  // At every moment of every match in which at least two lined up, from the green light
  // on: both orders agree exactly when nobody left before the start or was dropped after
  // the finish.
  lemma FinishingOrdersInRuns(h: HostRuns.Host, events: seq<HostRuns.Event>, c: MatchPhases.Config, p: RaceParams)
    requires p.Valid() && c.dt > 0.0 && HostRuns.HostOk(h, p) && ById(h.race.racers) && HostRuns.CleanMigrations(h, events, c, p)
    requires HostRuns.HostRun(h, events, c, p).race.started && HostRuns.HostRun(h, events, c, p).lined >= 2
    ensures var t := HostRuns.HostRun(h, events, c, p);
            && RacedOut(t.race)
            && (FinishingOrderFrom(Publish(t.race, t.cars)) == FinishingOrder(t.race) <==> t.early == [] && t.late == [])
  {
    hide HostRuns.HostRun, HostRuns.RaceOk, HostRuns.Members, CarsCarryRace, Rankable, LiveCount, NoCarOutside, AllHaveCars,
      FinishingOrder, FinishingOrderFrom;
    HostRuns.RacedAlways(h, events, c, p);
    var t := HostRuns.HostRun(h, events, c, p);
    HostRuns.OutsideIsGone(t.race, t.cars, t.early + t.late);
    assert t.early + t.late == [] <==> t.early == [] && t.late == [] by {
      assert |t.early + t.late| == |t.early| + |t.late|;
    }
    if t.late == [] {
      HostRuns.RaceRankable(t.race, p);
    }
    FinishingOrdersAgree(t.race, t.cars);
  }

  lemma ClientNames(r: Race, cars: seq<HostCar>, j: int)
    requires 0 <= j < |cars|
    ensures cars[j].id in FinishingOrderFrom(Publish(r, cars))
  {
    var snap := Publish(r, cars);
    var s := CarStandings(snap.cars);
    var t := SortBy(s, FinishesBefore(snap.winnerPlayerId));
    SameMembers(t, s);
    assert s[j] in s && s[j] in t;
    var k :| 0 <= k < |t| && t[k] == s[j];
    assert FinishingOrderFrom(snap)[k] == cars[j].id;
  }

  // ---- recharge multiplier --------------------------------------------------

  function CountIn(cars: seq<CarRecord>): nat {
    if cars == [] then 0
    else CountIn(cars[..|cars| - 1]) + (if CarIn(cars[|cars| - 1]) then 1 else 0)
  }

  predicate CarIn(c: CarRecord) {
    c.eliminatedOrder == 0 && !c.eliminated
  }

  // The greatest and the least distance of the cars that are in, from the client's start values.
  function Furthest(cars: seq<CarRecord>): real {
    if cars == [] then -FAR
    else
      var c, d := cars[|cars| - 1], Furthest(cars[..|cars| - 1]);
      if CarIn(c) && c.distance > d then c.distance else d
  }

  function Nearest(cars: seq<CarRecord>): real {
    if cars == [] then FAR
    else
      var c, d := cars[|cars| - 1], Nearest(cars[..|cars| - 1]);
      if CarIn(c) && c.distance < d then c.distance else d
  }

  const FAR := 1000000000000000000000000000000.0

  // How far our own car is, if it is in.
  function Mine(cars: seq<CarRecord>, id: int): real {
    if cars == [] then 0.0
    else
      var c := cars[|cars| - 1];
      if CarIn(c) && c.playerId == id then c.distance else Mine(cars[..|cars| - 1], id)
  }

  // The multiplier the client of player id predicts with; kept when fewer than two
  // cars are in.
  function ClientMultiplier(cars: seq<CarRecord>, id: int, kept: real, p: RaceParams): real {
    var mine, leader, last := Mine(cars, id), Furthest(cars), Nearest(cars);
    if CountIn(cars) < 2 then kept
    else if mine >= leader then p.rechargeLeader
    else if mine <= last then p.rechargeLast
    else RechargeMultiplier(mine, leader, last, p)
  }

  lemma {:induction false} FurthestMeaning(cars: seq<CarRecord>)
    ensures Furthest(cars) >= -FAR && forall i | 0 <= i < |cars| && CarIn(cars[i]) :: cars[i].distance <= Furthest(cars)
    ensures Furthest(cars) == -FAR || exists i :: 0 <= i < |cars| && CarIn(cars[i]) && cars[i].distance == Furthest(cars)
  {
    if cars != [] {
      FurthestMeaning(cars[..|cars| - 1]);
    }
  }

  lemma {:induction false} NearestMeaning(cars: seq<CarRecord>)
    ensures Nearest(cars) <= FAR && forall i | 0 <= i < |cars| && CarIn(cars[i]) :: cars[i].distance >= Nearest(cars)
    ensures Nearest(cars) == FAR || exists i :: 0 <= i < |cars| && CarIn(cars[i]) && cars[i].distance == Nearest(cars)
  {
    if cars != [] {
      NearestMeaning(cars[..|cars| - 1]);
    }
  }

  lemma {:induction false} MineMeaning(cars: seq<CarRecord>, i: nat)
    requires RecordsById(cars) && i < |cars| && CarIn(cars[i])
    ensures Mine(cars, cars[i].playerId) == cars[i].distance
  {
    if i < |cars| - 1 {
      MineMeaning(cars[..|cars| - 1], i);
    }
  }

  ghost predicate RecordsById(cars: seq<CarRecord>) {
    forall i, j | 0 <= i < j < |cars| :: cars[i].playerId < cars[j].playerId
  }

  // The players in, by the records and by the race.
  ghost function IdsIn(cars: seq<CarRecord>): (ids: seq<int>)
    ensures |ids| == CountIn(cars)
  {
    if cars == [] then []
    else
      var c := cars[|cars| - 1];
      IdsIn(cars[..|cars| - 1]) + (if CarIn(c) then [c.playerId] else [])
  }

  ghost function LiveIds(rs: seq<Racer>, n: nat): (ids: seq<int>)
    requires n <= |rs|
    ensures |ids| == |LiveIndices(rs, n)|
  {
    if n == 0 then [] else LiveIds(rs, n - 1) + (if rs[n - 1].Live() then [rs[n - 1].id] else [])
  }

  ghost predicate InAs(cars: seq<CarRecord>, id: int) {
    exists i :: 0 <= i < |cars| && CarIn(cars[i]) && cars[i].playerId == id
  }

  ghost predicate LiveAs(rs: seq<Racer>, n: nat, id: int)
    requires n <= |rs|
  {
    exists i :: 0 <= i < n && rs[i].Live() && rs[i].id == id
  }

  lemma InAsSplits(cars: seq<CarRecord>, id: int)
    requires cars != []
    ensures var c := cars[|cars| - 1]; InAs(cars, id) <==> InAs(cars[..|cars| - 1], id) || (CarIn(c) && c.playerId == id)
  {
    var front := cars[..|cars| - 1];
    if InAs(front, id) {
      var i :| 0 <= i < |front| && CarIn(front[i]) && front[i].playerId == id;
      assert cars[i] == front[i];
    }
    if InAs(cars, id) {
      var i :| 0 <= i < |cars| && CarIn(cars[i]) && cars[i].playerId == id;
      assert i < |front| ==> front[i] == cars[i];
    }
  }

  lemma Appended(ids: seq<int>, x: int)
    requires Increasing(ids) && forall id | id in ids :: id < x
    ensures Increasing(ids + [x])
  {
    assert forall k | 0 <= k < |ids| :: ids[k] in ids;
  }

  lemma {:induction false} IdsInMeaning(cars: seq<CarRecord>)
    requires RecordsById(cars)
    ensures Increasing(IdsIn(cars)) && forall id :: id in IdsIn(cars) <==> InAs(cars, id)
  {
    hide CarIn, Increasing;
    if cars == [] {
      assert Increasing([]) by {
        Sole();
      }
    } else {
      var front, last := cars[..|cars| - 1], cars[|cars| - 1];
      IdsInMeaning(front);
      forall id
        ensures id in IdsIn(cars) <==> InAs(cars, id)
      {
        InAsSplits(cars, id);
      }
      Appended(IdsIn(front), last.playerId);
      assert IdsIn(cars) == if CarIn(last) then IdsIn(front) + [last.playerId] else IdsIn(front);
    }
  }

  lemma Sole()
    ensures Increasing([])
  {
  }

  lemma LiveAsSplits(rs: seq<Racer>, n: nat, id: int)
    requires 1 <= n <= |rs|
    ensures LiveAs(rs, n, id) <==> LiveAs(rs, n - 1, id) || (rs[n - 1].Live() && rs[n - 1].id == id)
  {
  }

  lemma {:induction false} LiveIdsMeaning(rs: seq<Racer>, n: nat)
    requires ById(rs) && n <= |rs|
    ensures Increasing(LiveIds(rs, n)) && forall id :: id in LiveIds(rs, n) <==> LiveAs(rs, n, id)
  {
    hide Increasing;
    if n == 0 {
      Sole();
    } else {
      var front := LiveIds(rs, n - 1);
      LiveIdsMeaning(rs, n - 1);
      forall id
        ensures id in LiveIds(rs, n) <==> LiveAs(rs, n, id)
      {
        LiveAsSplits(rs, n, id);
      }
      BelowNext(rs, n - 1);
      Appended(front, rs[n - 1].id);
      assert LiveIds(rs, n) == if rs[n - 1].Live() then front + [rs[n - 1].id] else front;
    }
  }

  lemma BelowNext(rs: seq<Racer>, n: nat)
    requires ById(rs) && n < |rs| && forall id :: id in LiveIds(rs, n) <==> LiveAs(rs, n, id)
    ensures forall id | id in LiveIds(rs, n) :: id < rs[n].id
  {
    hide LiveIds;
  }

  // The records show who is in and where, within the client's start values; records of
  // cars outside the race may stand among them, flagged.
  ghost predicate Shows(cars: seq<CarRecord>, rs: seq<Racer>) {
    && RecordsById(cars)
    && (forall j | 0 <= j < |cars| && CarIn(cars[j]) :: ShownFrom(rs, cars[j]))
    && (forall i | 0 <= i < |rs| && rs[i].Live() :: InAs(cars, rs[i].id) && -FAR < rs[i].distance < FAR)
  }

  ghost predicate ShownFrom(rs: seq<Racer>, c: CarRecord) {
    exists i :: 0 <= i < |rs| && rs[i].Live() && rs[i].id == c.playerId && rs[i].distance == c.distance
  }

  lemma CountInLive(rs: seq<Racer>, cars: seq<CarRecord>)
    requires ById(rs) && Shows(cars, rs)
    ensures CountIn(cars) == LiveCount(rs)
  {
    IdsInMeaning(cars);
    LiveIdsMeaning(rs, |rs|);
    forall id
      ensures id in IdsIn(cars) <==> id in LiveIds(rs, |rs|)
    {
      if InAs(cars, id) {
        var j :| 0 <= j < |cars| && CarIn(cars[j]) && cars[j].playerId == id;
        assert ShownFrom(rs, cars[j]);
      }
    }
    IncreasingUnique(IdsIn(cars), LiveIds(rs, |rs|));
  }

  // The record of a racer that is in.
  lemma RecordIn(rs: seq<Racer>, cars: seq<CarRecord>, i: nat) returns (j: nat)
    requires ById(rs) && Shows(cars, rs) && i < |rs| && rs[i].Live()
    ensures j < |cars| && CarIn(cars[j]) && cars[j].playerId == rs[i].id && cars[j].distance == rs[i].distance
  {
    assert InAs(cars, rs[i].id);
    j :| j < |cars| && CarIn(cars[j]) && cars[j].playerId == rs[i].id;
    assert ShownFrom(rs, cars[j]);
  }

  // First and last in live order are the greatest and the least distance.
  lemma OrderEnds(rs: seq<Racer>, i: int)
    requires ById(rs) && 0 <= i < |rs| && rs[i].Live()
    ensures var order := LiveOrder(rs);
            && |order| > 0 && 0 <= order[0] < |rs| && 0 <= order[|order| - 1] < |rs|
            && rs[order[|order| - 1]].distance <= rs[i].distance <= rs[order[0]].distance
  {
    hide LiveOrder;
    var order := LiveOrder(rs);
    LiveOrderMembers(rs);
    LiveOrderSorted(rs);
    assert i in order;
    var k :| 0 <= k < |order| && order[k] == i;
    assert k > 0 ==> BetterPlaced(rs)(order[0], order[k]);
    assert k < |order| - 1 ==> BetterPlaced(rs)(order[k], order[|order| - 1]);
  }

  lemma EndsOfField(rs: seq<Racer>, cars: seq<CarRecord>)
    requires ById(rs) && Shows(cars, rs) && LiveCount(rs) >= 1
    ensures var order := LiveOrder(rs);
            && |order| == LiveCount(rs) && (forall m | 0 <= m < |order| :: 0 <= order[m] < |rs|)
            && CountIn(cars) == |order|
            && Furthest(cars) == rs[order[0]].distance
            && Nearest(cars) == rs[order[|order| - 1]].distance
  {
    hide LiveOrder, LiveCount, CountIn, Furthest, Nearest, ById, CarIn, Shows;
    var order := LiveOrder(rs);
    LiveOrderMembers(rs);
    CountInLive(rs, cars);
    FurthestMeaning(cars);
    NearestMeaning(cars);
    LiveNear(rs, cars, order[0]);
    LiveNear(rs, cars, order[|order| - 1]);
    var first := RecordIn(rs, cars, order[0]);
    var last := RecordIn(rs, cars, order[|order| - 1]);
    assert forall j | 0 <= j < |cars| && CarIn(cars[j]) ::
      rs[order[|order| - 1]].distance <= cars[j].distance <= rs[order[0]].distance by {
      InsideOrder(rs, cars);
    }
  }

  lemma LiveNear(rs: seq<Racer>, cars: seq<CarRecord>, i: nat)
    requires Shows(cars, rs) && i < |rs| && rs[i].Live()
    ensures -FAR < rs[i].distance < FAR
  {
  }

  lemma InsideOrder(rs: seq<Racer>, cars: seq<CarRecord>)
    requires ById(rs) && Shows(cars, rs) && LiveCount(rs) >= 1
    ensures var order := LiveOrder(rs);
            && |order| > 0 && (forall m | 0 <= m < |order| :: 0 <= order[m] < |rs|)
            && forall j | 0 <= j < |cars| && CarIn(cars[j]) ::
                 rs[order[|order| - 1]].distance <= cars[j].distance <= rs[order[0]].distance
  {
    hide LiveOrder, LiveCount, CarIn, RecordsById;
    var order := LiveOrder(rs);
    LiveOrderMembers(rs);
    forall j | 0 <= j < |cars| && CarIn(cars[j])
      ensures rs[order[|order| - 1]].distance <= cars[j].distance <= rs[order[0]].distance
    {
      assert ShownFrom(rs, cars[j]);
      var i :| 0 <= i < |rs| && rs[i].Live() && rs[i].id == cars[j].playerId && rs[i].distance == cars[j].distance;
      OrderEnds(rs, i);
    }
  }

  lemma RechargeEnds(mine: real, leader: real, last: real, p: RaceParams)
    requires last < leader
    ensures mine == leader ==> RechargeMultiplier(mine, leader, last, p) == p.rechargeLeader
    ensures mine == last ==> RechargeMultiplier(mine, leader, last, p) == p.rechargeLast
  {
    if mine == last {
      assert (leader - mine) / (leader - last) == 1.0;
    }
  }

  lemma HostMultiplier(r: Race, i: int, p: RaceParams)
    requires Settled(r, p) && 0 <= i < |r.racers| && r.racers[i].Live()
    ensures var rs, order, k := r.racers, LiveOrder(r.racers), r.racers[i].place - 1;
      && 0 <= k < |order| && order[k] == i && (forall m | 0 <= m < |order| :: 0 <= order[m] < |rs|)
      && rs[i].multiplier == MultiplierAt(rs, order, k, p)
  {
    LiveOrderMembers(r.racers);
    PlaceInOrder(r.racers, i);
    assert r.racers[i] == RankedRacer(r.racers, i, p);
  }

  // A client predicts with the multiplier the host gives its car, unless all cars
  // that are in stand level and its car is ranked last of them.
  lemma MultipliersAgree(r: Race, cars: seq<CarRecord>, i: int, kept: real, p: RaceParams)
    requires Settled(r, p) && Shows(cars, r.racers) && LiveCount(r.racers) >= 2
    requires 0 <= i < |r.racers| && r.racers[i].Live()
    ensures ClientMultiplier(cars, r.racers[i].id, kept, p) == r.racers[i].multiplier
       <==> Nearest(cars) < Furthest(cars) || r.racers[i].place < LiveCount(r.racers) || p.rechargeLeader == p.rechargeLast
  {
    hide RechargeMultiplier, Settled, LiveOrder, LiveCount, Furthest, Nearest, CountIn, Mine, CarIn;
    var rs := r.racers;
    assert ById(rs) by { SettledById(r, p); }
    EndsOfField(rs, cars);
    HostMultiplier(r, i, p);
    var j := RecordIn(rs, cars, i);
    MineMeaning(cars, j);
    InField(cars, j);
    var leader, last := Furthest(cars), Nearest(cars);
    if last < leader {
      RechargeEnds(rs[i].distance, leader, last, p);
    } else {
      RechargeLevel(leader, p);
    }
  }

  // The host's own records show the race, whoever left early, once it has taken in
  // where the cars stand.
  lemma PublishShows(r: Race, cars: seq<HostCar>, gone: seq<int>)
    requires ById(r.racers) && CarsById(cars) && HostRuns.Members(r.racers, cars, gone) && CarsCarryRace(r, cars)
    requires forall i | 0 <= i < |r.racers| && r.racers[i].Live() :: -FAR < r.racers[i].distance < FAR
    ensures Shows(Publish(r, cars).cars, r.racers)
  {
    hide IndexOf, HasCar;
    var rs, records := r.racers, Publish(r, cars).cars;
    forall j | 0 <= j < |records| && CarIn(records[j])
      ensures ShownFrom(rs, records[j])
    {
      var i := IndexOf(rs, cars[j].id);
      assert !cars[j].left && i < |rs|;
      assert Carried(cars, rs[i]);
      var k :| 0 <= k < |cars| && CarriesRacer(cars[k], rs[i]);
      assert k == j;
    }
    forall i | 0 <= i < |rs| && rs[i].Live()
      ensures InAs(records, rs[i].id)
    {
      assert HostRuns.Manned(cars, rs[i]);
      var j: int :| 0 <= j < |cars| && cars[j].id == rs[i].id && !cars[j].left;
      IndexOfId(rs, i);
      assert CarIn(records[j]) && records[j].playerId == rs[i].id;
    }
  }

  // In every match: the multiplier clients take from what the host publishes.
  lemma MultipliersInRuns(h: HostRuns.Host, events: seq<HostRuns.Event>, c: MatchPhases.Config, i: int, kept: real, p: RaceParams)
    requires p.Valid() && c.dt > 0.0 && HostRuns.HostOk(h, p) && ById(h.race.racers) && HostRuns.CleanMigrations(h, events, c, p)
    requires var t := HostRuns.HostRun(h, events, c, p);
             && t.inStep && t.late == [] && t.race.started && t.lined >= 2 && LiveCount(t.race.racers) >= 2
             && 0 <= i < |t.race.racers| && t.race.racers[i].Live()
             && forall j | 0 <= j < |t.race.racers| && t.race.racers[j].Live() :: -FAR < t.race.racers[j].distance < FAR
    ensures var t := HostRuns.HostRun(h, events, c, p);
            var cars := Publish(t.race, t.cars).cars;
            (ClientMultiplier(cars, t.race.racers[i].id, kept, p) == t.race.racers[i].multiplier) <==>
              (Nearest(cars) < Furthest(cars) || t.race.racers[i].place < LiveCount(t.race.racers) || p.rechargeLeader == p.rechargeLast)
  {
    hide HostRuns.HostRun, HostRuns.Members, CarsCarryRace, LiveCount, Shows, Settled, ClientMultiplier, Nearest, Furthest, OrdersExact;
    HostRuns.RacedAlways(h, events, c, p);
    var t := HostRuns.HostRun(h, events, c, p);
    PublishShows(t.race, t.cars, t.early + t.late);
    MultipliersAgree(t.race, Publish(t.race, t.cars).cars, i, kept, p);
  }

  lemma SettledById(r: Race, p: RaceParams)
    requires Settled(r, p)
    ensures ById(r.racers)
  {
  }

  lemma InField(cars: seq<CarRecord>, i: int)
    requires 0 <= i < |cars| && CarIn(cars[i])
    ensures Nearest(cars) <= cars[i].distance <= Furthest(cars)
  {
    FurthestMeaning(cars);
    NearestMeaning(cars);
  }

  lemma RechargeLevel(d: real, p: RaceParams)
    ensures RechargeMultiplier(d, d, d, p) == p.rechargeLeader
  {
  }
}
