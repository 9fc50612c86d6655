/** What an update, an elimination and the ranking do, told racer by racer. */
module RaceFacts {
  import opened Basics
  import opened HostMigration
  import opened RaceRules
  import opened RaceRuns
  import opened Snapshots
  import opened Sorting

  // ---- progress -------------------------------------------------------------------------

  // A racer stands where its last report puts it; without one, where it stood.
  ghost predicate LastReport(progress: seq<Progress>, id: int, k: int) {
    && 0 <= k < |progress| && progress[k].playerId == id
    && forall j | k < j < |progress| :: progress[j].playerId != id
  }

  lemma {:induction false} ProgressSays(rs: seq<Racer>, progress: seq<Progress>, i: int)
    requires ById(rs) && 0 <= i < |rs|
    ensures ApplyProgress(rs, progress)[i].(distance := 0.0) == rs[i].(distance := 0.0)
    ensures forall k | LastReport(progress, rs[i].id, k) :: ApplyProgress(rs, progress)[i].distance == progress[k].distance
    ensures (forall k | 0 <= k < |progress| :: progress[k].playerId != rs[i].id) ==> ApplyProgress(rs, progress)[i].distance == rs[i].distance
    decreases |progress|
  {
    hide IndexOf;
    if progress != [] {
      var first, rest := progress[0], progress[1..];
      var m := IndexOf(rs, first.playerId);
      var next := if m < |rs| then rs[m := rs[m].(distance := first.distance)] else rs;
      ProgressSays(next, rest, i);
      if first.playerId == rs[i].id {
        IndexOfId(rs, i);
      }
      forall k | LastReport(progress, rs[i].id, k)
        ensures ApplyProgress(rs, progress)[i].distance == progress[k].distance
      {
        if k > 0 {
          assert LastReport(rest, rs[i].id, k - 1);
        } else {
          assert forall j | 0 <= j < |rest| :: rest[j] == progress[j + 1];
        }
      }
    }
  }

  // ---- the clock ---------------------------------------------------------------------------

  // Who is on the clock after ranking, on which stage, with how much time left, and
  // whether last place changed hands.
  datatype OnClock = OnClock(id: int, stage: nat, timer: real, changed: bool)

  ghost predicate OnIt(line: seq<Racer>, id: int, c: int) {
    0 <= c < |line| && line[c].id == id && line[c].Live()
  }

  // The car on the clock stays on it while it is in, unless it is more than the margin
  // ahead of the last one; then that one is on it, a stage further, on that stage's time.
  // When the car on the clock is out, the last one takes its place on what is left.
  ghost predicate ClockSays(r: Race, line: seq<Racer>, dt: real, p: RaceParams, last: int, k: OnClock)
    requires |p.stageTimes| == 6 && IsLast(line, last)
  {
    && (forall c | OnIt(line, r.lastPlaceId, c) ::
          && k.changed == (line[c].distance > line[last].distance + p.overtakeMargin)
          && k.id == if k.changed then line[last].id else r.lastPlaceId)
    && ((forall c :: !OnIt(line, r.lastPlaceId, c)) ==> !k.changed && k.id == line[last].id)
    && k.stage == (if !k.changed then r.stage else if r.stage < 5 then r.stage + 1 else 5)
    && k.timer == (if k.changed && k.stage <= 5 then p.stageTimes[k.stage] else r.timer) - dt
  }

  // Exactly racer x went out, last of those out so far; the clock starts again on the last
  // one left; and the race is decided when only one is.
  ghost predicate OutSays(line: seq<Racer>, count: nat, x: int, r: Race, events: seq<RaceRules.Event>, p: RaceParams)
    requires |p.stageTimes| == 6
  {
    && |r.racers| == |line| && r.eliminatedCount == count + 1
    && (forall j | 0 <= j < |line| ::
          && r.racers[j].id == line[j].id && r.racers[j].distance == line[j].distance
          && r.racers[j].eliminatedOrder == if line[j].id == x then count + 1 else line[j].eliminatedOrder)
    && r.timer == p.stageTimes[0] && r.stage == 0 && r.started
    && (forall i | IsLast(r.racers, i) :: r.lastPlaceId == r.racers[i].id)
    && (r.finished <==> exists i :: OnlyOne(r.racers, i))
    && (forall i | OnlyOne(r.racers, i) :: r.winnerId == r.racers[i].id)
    && events == [Event(Eliminated, x, 0)] + if r.finished then [Event(Winner, r.winnerId, 0)] else []
  }

  ghost predicate OnlyOne(rs: seq<Racer>, i: int) {
    0 <= i < |rs| && rs[i].Live() && forall j | 0 <= j < |rs| && rs[j].Live() :: j == i
  }

  lemma {:induction false} OneLiveIs(rs: seq<Racer>, n: nat)
    requires n <= |rs|
    ensures |LiveIndices(rs, n)| == 1 <==> exists i :: 0 <= i < n && rs[i].Live() && forall j | 0 <= j < n && rs[j].Live() :: j == i
  {
    var live := LiveIndices(rs, n);
    if |live| == 1 {
      var i := live[0];
      assert i in live;
      forall j | 0 <= j < n && rs[j].Live()
        ensures j == i
      {
        assert j in live;
      }
    }
    if i :| 0 <= i < n && rs[i].Live() && forall j | 0 <= j < n && rs[j].Live() :: j == i {
      assert i in live;
      forall k | 0 <= k < |live|
        ensures live[k] == i
      {
        assert live[k] in live;
      }
      AllTheSame(live, i);
    }
  }

  lemma AllTheSame(s: seq<int>, x: int)
    requires Distinct(s) && forall k | 0 <= k < |s| :: s[k] == x
    ensures |s| <= 1
  {
    DistinctCount(s);
    if s != [] {
      assert Elements(s) == {x} by {
        assert s[0] in s;
      }
    }
  }

  lemma LastUnique(rs: seq<Racer>, i: int, j: int)
    requires IsLast(rs, i) && IsLast(rs, j)
    ensures i == j
  {
  }

  // What ranking leaves alone, so that the last one is last before and after.
  lemma LastRanked(rs: seq<Racer>, more: seq<Racer>, i: int)
    requires SameField(rs, more)
    ensures IsLast(rs, i) <==> IsLast(more, i)
  {
  }

  // Eliminating a racer that is in.
  lemma EliminateSays(r: Race, x: int, p: RaceParams)
    requires |p.stageTimes| == 6 && ById(r.racers) && r.started && !r.finished && r.winnerId == 0 && LiveCount(r.racers) >= 2
    requires 0 <= x < |r.racers| && r.racers[x].Live()
    ensures OutSays(r.racers, r.eliminatedCount, r.racers[x].id, Eliminate(r, r.racers[x].id, p).0, Eliminate(r, r.racers[x].id, p).1, p)
  {
    hide Ranked, LiveCount, PlacesRight, OutSays, OutWith, Eliminate;
    IndexOfId(r.racers, x);
    EliminateIs(r, r.racers[x].id, p);
    var out := r.racers[x := r.racers[x].(eliminatedOrder := r.eliminatedCount + 1)];
    RankedPlaces(out, p);
    RankedStanding(out, p);
    OneFewer(r.racers, x, r.eliminatedCount + 1);
    OutWithSays(r, x, Ranked(out, p), p);
  }

  lemma OutWithSays(r: Race, x: int, rs: seq<Racer>, p: RaceParams)
    requires |p.stageTimes| == 6 && ById(r.racers) && r.started && !r.finished && r.winnerId == 0
    requires 0 <= x < |r.racers| && SameStanding(rs, r.racers[x := r.racers[x].(eliminatedOrder := r.eliminatedCount + 1)])
    requires ById(rs) && PlacesRight(rs) && LiveCount(rs) >= 1
    ensures var (t, events) := OutWith(r, rs, r.racers[x].id, p); OutSays(r.racers, r.eliminatedCount, r.racers[x].id, t, events, p)
  {
    hide LiveCount, CurrentLast, IsLast, PlacesRight;
    var last := CurrentLastIsLast(rs);
    forall i | IsLast(rs, i)
      ensures i == last
    {
      LastUnique(rs, i, last);
    }
    OneLiveCounts(rs);
    forall i | OnlyOne(rs, i)
      ensures i == last
    {
      LastLives(rs, last);
    }
  }

  lemma LastLives(rs: seq<Racer>, i: int)
    requires IsLast(rs, i)
    ensures 0 <= i < |rs| && rs[i].Live()
  {
  }

  lemma OneLiveCounts(rs: seq<Racer>)
    ensures LiveCount(rs) == 1 <==> exists i :: OnlyOne(rs, i)
  {
    OneLiveIs(rs, |rs|);
    if i :| OnlyOne(rs, i) {
      assert 0 <= i < |rs| && rs[i].Live() && forall j | 0 <= j < |rs| && rs[j].Live() :: j == i;
    }
    if LiveCount(rs) == 1 {
      var i :| 0 <= i < |rs| && rs[i].Live() && forall j | 0 <= j < |rs| && rs[j].Live() :: j == i;
      assert OnlyOne(rs, i);
    }
  }

  lemma OneFewer(rs: seq<Racer>, x: int, order: nat)
    requires 0 <= x < |rs| && rs[x].Live() && order > 0
    ensures LiveCount(rs[x := rs[x].(eliminatedOrder := order)]) == LiveCount(rs) - 1
  {
    OneLess(rs, x, order, |rs|);
  }

  // ---- updates --------------------------------------------------------------------------------

  lemma TickSays(r: Race, dt: real, p: RaceParams, last: int)
    requires p.Valid() && ById(r.racers) && PlacesRight(r.racers) && IsLast(r.racers, last)
    ensures var (t, events) := TickClock(r, dt, p);
            exists k :: ClockSays(r, r.racers, dt, p, last, k)
              && t == r.(lastPlaceId := k.id, stage := k.stage, timer := k.timer)
              && events == if k.changed then [Event(LastPlaceChanged, k.id, k.stage)] else []
  {
    hide PlacesRight, PlaceOf, CurrentLast;
    var rs := r.racers;
    var (t, events) := TickClock(r, dt, p);
    LiveOnes(rs, last);
    var i := CurrentLastIsLast(rs);
    LastUnique(rs, i, last);
    IndexOfId(rs, last);
    var k := OnClock(t.lastPlaceId, t.stage, t.timer, events != []);
    forall c | OnIt(rs, r.lastPlaceId, c)
      ensures k.changed == (rs[c].distance > rs[last].distance + p.overtakeMargin)
      ensures k.id == if k.changed then rs[last].id else r.lastPlaceId
    {
      IndexOfId(rs, c);
    }
    if forall c :: !OnIt(rs, r.lastPlaceId, c) {
      assert !OnIt(rs, r.lastPlaceId, IndexOf(rs, r.lastPlaceId));
    }
    assert ClockSays(r, rs, dt, p, last, k);
  }

  lemma LiveOnes(rs: seq<Racer>, i: int)
    requires IsLast(rs, i)
    ensures LiveCount(rs) >= 1
  {
    assert i in LiveIndices(rs, |rs|);
  }

  // What an update of a race that is on does, from where its racers then stand: the clock
  // moves as it should, and when it runs out the one then on it is out.
  ghost predicate UpdateSaysSo(r: Race, line: seq<Racer>, dt: real, p: RaceParams, last: int, k: OnClock, r': Race, events: seq<RaceRules.Event>)
    requires |p.stageTimes| == 6 && IsLast(line, last)
  {
    && ClockSays(r, line, dt, p, last, k)
    && var change := if k.changed then [Event(LastPlaceChanged, k.id, k.stage)] else [];
       if k.timer > 0.0 then
         && r' == r.(racers := r'.racers, lastPlaceId := k.id, stage := k.stage, timer := k.timer) && events == change
         && SameStanding(r'.racers, line)
       else
         exists out :: events == change + out && OutSays(line, r.eliminatedCount, k.id, r', out, p)
  }

  // The same racers, in and out alike, standing alike.
  ghost predicate SameStanding(a: seq<Racer>, b: seq<Racer>) {
    |a| == |b| && forall i | 0 <= i < |a| ::
      a[i].id == b[i].id && a[i].distance == b[i].distance && a[i].eliminatedOrder == b[i].eliminatedOrder
  }

  lemma UpdateSays(r: Race, progress: seq<Progress>, dt: real, n: nat, p: RaceParams) returns (last: int)
    requires p.Valid() && Running(r, n, p) && dt > 0.0
    ensures IsLast(ApplyProgress(r.racers, progress), last)
    ensures exists k :: UpdateSaysSo(r, ApplyProgress(r.racers, progress), dt, p, last, k, Update(r, progress, dt, p).0, Update(r, progress, dt, p).1)
  {
    hide Ranked, PlacesRight, OrdersExact, LiveCount, IsLast, TickClock, Eliminate, ClockSays, OutSays, SameField;
    var line := ApplyProgress(r.racers, progress);
    LineUpAfterProgress(r.racers, progress, r.eliminatedCount, n, p);
    var ranked := RankedRace(r, progress, p);
    RankedPlaces(line, p);
    RankedStanding(line, p);
    last := CurrentLastIsLast(ranked.racers);
    LastRanked(line, ranked.racers, last);
    LiveCountBounded(ranked.racers);
    TickSays(ranked, dt, p, last);
    var (t, change) := TickClock(ranked, dt, p);
    var k :| ClockSays(ranked, ranked.racers, dt, p, last, k)
      && t == ranked.(lastPlaceId := k.id, stage := k.stage, timer := k.timer)
      && change == if k.changed then [Event(LastPlaceChanged, k.id, k.stage)] else [];
    ClockFrom(r, ranked, line, dt, p, last, k);
    if k.timer <= 0.0 {
      var x := OnTheClockIn(ranked, dt, p, last, k);
      EliminateSays(t, x, p);
      var (r', out) := Eliminate(t, t.lastPlaceId, p);
      OutFrom(ranked.racers, line, r.eliminatedCount, k.id, r', out, p);
    }
    assert UpdateSaysSo(r, line, dt, p, last, k, Update(r, progress, dt, p).0, Update(r, progress, dt, p).1);
  }

  lemma RankedStanding(rs: seq<Racer>, p: RaceParams)
    requires ById(rs)
    ensures SameStanding(Ranked(rs, p), rs)
  {
    hide Ranked, RankedRacer;
    forall i | 0 <= i < |rs|
      ensures Ranked(rs, p)[i].id == rs[i].id && Ranked(rs, p)[i].distance == rs[i].distance
      ensures Ranked(rs, p)[i].eliminatedOrder == rs[i].eliminatedOrder
    {
      RankedAlike(rs, i, p);
    }
  }

  lemma ClockFrom(r: Race, ranked: Race, line: seq<Racer>, dt: real, p: RaceParams, last: int, k: OnClock)
    requires |p.stageTimes| == 6 && IsLast(line, last) && IsLast(ranked.racers, last) && SameStanding(ranked.racers, line)
    requires ranked == r.(racers := ranked.racers) && ClockSays(ranked, ranked.racers, dt, p, last, k)
    ensures ClockSays(r, line, dt, p, last, k)
  {
    forall c
      ensures OnIt(line, r.lastPlaceId, c) <==> OnIt(ranked.racers, r.lastPlaceId, c)
    {
    }
  }

  lemma OutFrom(ranked: seq<Racer>, line: seq<Racer>, count: nat, x: int, r: Race, events: seq<RaceRules.Event>, p: RaceParams)
    requires |p.stageTimes| == 6 && SameStanding(ranked, line) && OutSays(ranked, count, x, r, events, p)
    ensures OutSays(line, count, x, r, events, p)
  {
    hide IsLast, OnlyOne;
  }

  // Whoever is on the clock is in.
  lemma OnTheClockIn(r: Race, dt: real, p: RaceParams, last: int, k: OnClock) returns (x: int)
    requires |p.stageTimes| == 6 && ById(r.racers) && IsLast(r.racers, last) && ClockSays(r, r.racers, dt, p, last, k)
    ensures OnIt(r.racers, k.id, x)
  {
    if c :| OnIt(r.racers, r.lastPlaceId, c) {
      x := if k.changed then last else c;
    } else {
      x := last;
    }
  }

  // ---- the time cap and the ranking ---------------------------------------------------------------

  // Racer i is in and ahead of everyone else who is.
  ghost predicate IsFirst(rs: seq<Racer>, i: int) {
    && 0 <= i < |rs| && rs[i].Live()
    && forall j | 0 <= j < |rs| && rs[j].Live() && j != i :: Ahead(rs[i], rs[j])
  }

  lemma FirstPlaced(rs: seq<Racer>, i: int)
    requires ById(rs) && PlacesRight(rs) && 0 <= i < |rs|
    ensures rs[i].Live() ==> (rs[i].place == 1 <==> IsFirst(rs, i))
    ensures !rs[i].Live() ==> rs[i].place == 0
  {
    if rs[i].Live() {
      if rs[i].place == 1 {
        forall j | 0 <= j < |rs| && rs[j].Live() && j != i
          ensures Ahead(rs[i], rs[j])
        {
          PlacesAreRanks(rs, i, j);
        }
      }
      if IsFirst(rs, i) {
        assert AheadSet(rs, i) == {};
      }
    }
  }

  // The time cap makes whoever leads the winner, and changes nothing else that counts.
  lemma TimeCapSays(r: Race, n: nat, p: RaceParams)
    requires p.Valid() && Running(r, n, p)
    ensures var r' := FinishByLeader(r, p);
            && r' == r.(racers := r'.racers, finished := true, winnerId := r'.winnerId) && SameStanding(r'.racers, r.racers)
            && forall i | IsFirst(r.racers, i) :: r'.winnerId == r.racers[i].id
  {
    hide Ranked, RankedRacer, PlacesRight, LiveCount, OrdersExact, PlaceOf;
    var rs := Ranked(r.racers, p);
    RankedPlaces(r.racers, p);
    RankedStanding(r.racers, p);
    var w := LeaderWins(rs, r.winnerId);
    forall i | IsFirst(r.racers, i)
      ensures i == w
    {
      FirstPlaced(rs, w);
    }
  }

  // rechargeLeader for the first, rechargeLast for a last behind it, and between them, if
  // they are a millimetre apart, in proportion.
  ghost predicate BandSays(m: real, mine: real, leader: real, last: real, p: RaceParams) {
    && (mine == leader ==> m == p.rechargeLeader)
    && (mine == last < leader ==> m == p.rechargeLast)
    && (last < mine < leader && leader - last >= 0.001 ==>
          (m - p.rechargeLeader) * (leader - last) == (p.rechargeLast - p.rechargeLeader) * (leader - mine))
  }

  lemma BandIs(mine: real, leader: real, last: real, p: RaceParams)
    requires last <= mine <= leader
    ensures BandSays(if mine >= leader then p.rechargeLeader else if mine <= last then p.rechargeLast
                     else RechargeMultiplier(mine, leader, last, p), mine, leader, last, p)
  {
    if last < mine < leader && leader - last >= 0.001 {
      var span := leader - last;
      var q := (leader - mine) / span;
      assert q * span == leader - mine;
      QuotientWithin(leader - mine, span);
      Proportion(p.rechargeLast - p.rechargeLeader, q, span);
    }
  }

  lemma QuotientWithin(a: real, b: real)
    requires 0.0 <= a <= b && b > 0.0
    ensures 0.0 <= a / b <= 1.0
  {
    assert a / b * b == a;
  }

  lemma Proportion(d: real, q: real, span: real)
    ensures (d * q) * span == d * (q * span)
  {
  }

  // The host's multiplier of a racer that is in: the plain rate alone, rechargeLeader for
  // the first, rechargeLast for the last, and between them in proportion.
  lemma RankedMultiplier(rs: seq<Racer>, i: nat, f: int, l: int, p: RaceParams)
    requires ById(rs) && i < |rs| && rs[i].Live() && IsFirst(rs, f) && IsLast(rs, l)
    ensures var m := Ranked(rs, p)[i].multiplier;
            if f == l then m == 1.0
            else if i == f then m == p.rechargeLeader
            else if i == l then m == p.rechargeLast
            else rs[l].distance < rs[i].distance < rs[f].distance ==> BandSays(m, rs[i].distance, rs[f].distance, rs[l].distance, p)
  {
    hide PlaceOf, LiveOrder, RechargeMultiplier, BandSays;
    LiveOrderMembers(rs);
    PlaceInOrder(rs, i);
    EndsOfOrder(rs, f, l);
    if i != f && i != l && rs[l].distance < rs[i].distance < rs[f].distance {
      BandIs(rs[i].distance, rs[f].distance, rs[l].distance, p);
    }
  }

  // The first and the last stand at the ends of the live order.
  lemma EndsOfOrder(rs: seq<Racer>, f: int, l: int)
    requires ById(rs) && IsFirst(rs, f) && IsLast(rs, l)
    ensures var order := LiveOrder(rs);
            && |order| >= 1 && order[0] == f && order[|order| - 1] == l && (|order| == 1 <==> f == l)
            && Distinct(order)
  {
    hide LiveOrder;
    var order := LiveOrder(rs);
    LiveOrderMembers(rs);
    LiveOrderSorted(rs);
    assert f in order && l in order;
    var a :| 0 <= a < |order| && order[a] == f;
    var b :| 0 <= b < |order| && order[b] == l;
    FirstAtFront(rs, order, f, a);
    LastAtEnd(rs, order, l, b);
  }

  lemma FirstAtFront(rs: seq<Racer>, order: seq<int>, f: int, a: int)
    requires ById(rs) && Sorted(order, BetterPlaced(rs)) && IsFirst(rs, f) && 0 <= a < |order| && order[a] == f
    requires 0 <= order[0] < |rs| && rs[order[0]].Live()
    ensures a == 0
  {
  }

  lemma LastAtEnd(rs: seq<Racer>, order: seq<int>, l: int, b: int)
    requires ById(rs) && Sorted(order, BetterPlaced(rs)) && IsLast(rs, l) && 0 <= b < |order| && order[b] == l
    requires 0 <= order[|order| - 1] < |rs| && rs[order[|order| - 1]].Live()
    ensures b == |order| - 1
  {
  }
}
