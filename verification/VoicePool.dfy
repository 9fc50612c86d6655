/** Four engine voices shared among the cars; the player's own car comes first. */
module VoicePool {
  import opened Basics
  import opened Vectors

  datatype CarSound = CarSound(position: Vec3, isLocal: bool, gain: real)
  datatype SharedCar = SharedCar(id: int, st: CarSound, updates: nat)
  datatype Voice = Voice(id: int, used: bool, st: CarSound, lastUpdate: nat, lastChange: real, fade: real, fadeTarget: real)

  const MAX_CARS: nat := 4

  // How far from the listener a point is.
  type Distance = Vec3 -> real

  // ---- keeping voices up to date --------------------------------------------------

  function CarOf(cars: seq<SharedCar>, id: int): (i: nat)
    ensures i <= |cars| && (i < |cars| ==> cars[i].id == id)
  {
    if cars == [] || cars[0].id == id then 0 else 1 + CarOf(cars[1..], id)
  }

  // Take in fresh state, fade out cars that are gone or stale, and free silent voices.
  function Refreshed(v: Voice, cars: seq<SharedCar>, clock: real): Voice {
    if !v.used then v
    else
      var i := CarOf(cars, v.id);
      var w :=
        if i == |cars| then v.(fadeTarget := 0.0)
        else
          var u := if cars[i].updates != v.lastUpdate
                   then v.(lastUpdate := cars[i].updates, lastChange := clock, st := cars[i].st, fadeTarget := Clamp(cars[i].st.gain, 0.0, 1.0))
                   else v;
          if clock - u.lastChange > 1.0 then u.(fadeTarget := 0.0) else u;
      if w.fadeTarget == 0.0 && w.fade <= 0.0001 then w.(used := false) else w
  }

  function RefreshedAll(voices: seq<Voice>, cars: seq<SharedCar>, clock: real): seq<Voice> {
    seq(|voices|, i requires 0 <= i < |voices| => Refreshed(voices[i], cars, clock))
  }

  // ---- finding room -----------------------------------------------------------------

  predicate Voiced(voices: seq<Voice>, id: int) {
    exists i | 0 <= i < |voices| :: voices[i].used && voices[i].id == id
  }

  function FreeSlot(voices: seq<Voice>): (i: nat)
    ensures i <= |voices| && (i < |voices| ==> !voices[i].used) && forall k | 0 <= k < i :: voices[k].used
  {
    if voices == [] || !voices[0].used then 0 else 1 + FreeSlot(voices[1..])
  }

  // The most distant voice of the first n that is not a local car's, the first of equals.
  function Farthest(voices: seq<Voice>, d: Distance, n: nat): (i: nat)
    requires n <= |voices|
    ensures i <= |voices| && (i < |voices| ==> !voices[i].st.isLocal)
  {
    if n == 0 then |voices|
    else
      var best := Farthest(voices, d, n - 1);
      if voices[n - 1].st.isLocal then best
      else if best == |voices| || d(voices[n - 1].st.position) > d(voices[best].st.position) then n - 1
      else best
  }

  function SlotFor(voices: seq<Voice>, car: SharedCar, d: Distance): (i: nat)
    ensures i <= |voices|
  {
    var free := FreeSlot(voices);
    if free < |voices| || !car.st.isLocal then free else Farthest(voices, d, |voices|)
  }

  function NewVoice(car: SharedCar, clock: real): Voice {
    Voice(car.id, true, car.st, car.updates, clock, 0.0, Clamp(car.st.gain, 0.0, 1.0))
  }

  function Placed(voices: seq<Voice>, car: SharedCar, d: Distance, clock: real): seq<Voice> {
    var i := SlotFor(voices, car, d);
    if Voiced(voices, car.id) || i == |voices| then voices else voices[i := NewVoice(car, clock)]
  }

  function PlacedAll(voices: seq<Voice>, cars: seq<SharedCar>, d: Distance, clock: real): seq<Voice> {
    if cars == [] then voices else Placed(PlacedAll(voices, cars[..|cars| - 1], d, clock), cars[|cars| - 1], d, clock)
  }

  function Assigned(voices: seq<Voice>, cars: seq<SharedCar>, d: Distance, clock: real): seq<Voice> {
    PlacedAll(RefreshedAll(voices, cars, clock), cars, d, clock)
  }

  class Pool {
    const voices: array<Voice>

    constructor ()
      ensures fresh(voices) && voices.Length == MAX_CARS && forall i | 0 <= i < MAX_CARS :: !voices[i].used
    {
      voices := new Voice[MAX_CARS](_ => SILENT);
    }

    method AssignVoices(cars: seq<SharedCar>, d: Distance, clock: real)
      modifies voices
      ensures voices[..] == Assigned(old(voices[..]), cars, d, clock)
    {
      hide Refreshed, Placed;
      ghost var was := voices[..];
      for i := 0 to voices.Length
        invariant forall k | 0 <= k < i :: voices[k] == Refreshed(was[k], cars, clock)
        invariant forall k | i <= k < voices.Length :: voices[k] == was[k]
      {
        voices[i] := Refreshed(voices[i], cars, clock);
      }
      ghost var refreshed := RefreshedAll(was, cars, clock);
      assert voices[..] == refreshed;
      for i := 0 to |cars|
        invariant voices[..] == PlacedAll(refreshed, cars[..i], d, clock)
      {
        assert cars[..i + 1][..i] == cars[..i];
        PlaceCar(cars[i], d, clock);
      }
      assert cars[..|cars|] == cars;
    }

    method PlaceCar(car: SharedCar, d: Distance, clock: real)
      modifies voices
      ensures voices[..] == Placed(old(voices[..]), car, d, clock)
    {
      hide Farthest;
      for i := 0 to voices.Length
        invariant forall k | 0 <= k < i :: !(voices[k].used && voices[k].id == car.id)
      {
        if voices[i].used && voices[i].id == car.id {
          assert voices[..][i].used;
          return;
        }
      }
      var slot := FindFree();
      if slot == voices.Length && car.st.isLocal {
        slot := FindFarthest(d);
      }
      if slot < voices.Length {
        voices[slot] := NewVoice(car, clock);
      }
    }

    method FindFree() returns (slot: nat)
      ensures slot == FreeSlot(voices[..])
    {
      slot := 0;
      while slot < voices.Length
        invariant slot <= voices.Length && forall k | 0 <= k < slot :: voices[k].used
      {
        if !voices[slot].used {
          break;
        }
        slot := slot + 1;
      }
      FreeIs(voices[..], slot);
    }

    method FindFarthest(d: Distance) returns (slot: nat)
      ensures slot == Farthest(voices[..], d, voices.Length)
    {
      slot := voices.Length;
      for i := 0 to voices.Length
        invariant slot == Farthest(voices[..], d, i)
      {
        if !voices[i].st.isLocal {
          if slot == voices.Length || d(voices[i].st.position) > d(voices[slot].st.position) {
            slot := i;
          }
        }
      }
    }
  }

  // ---- what the pool keeps ----------------------------------------------------------

  ghost predicate DistinctIds(voices: seq<Voice>) {
    forall i, j | 0 <= i < j < |voices| && voices[i].used && voices[j].used :: voices[i].id != voices[j].id
  }

  ghost predicate AllUsed(voices: seq<Voice>) {
    forall i | 0 <= i < |voices| :: voices[i].used
  }

  ghost predicate AllLocal(voices: seq<Voice>) {
    forall i | 0 <= i < |voices| :: voices[i].used && voices[i].st.isLocal
  }

  // Every car so far is served: it has a voice, or all voices are in use and, if the car is
  // local, all are local cars'.
  ghost predicate Served(voices: seq<Voice>, cars: seq<SharedCar>) {
    forall k | 0 <= k < |cars| :: CarServed(voices, cars[k])
  }

  ghost predicate CarServed(voices: seq<Voice>, car: SharedCar) {
    CarHeld(voices, car) && (car.st.isLocal ==> Voiced(voices, car.id) || AllLocal(voices))
  }

  // Every car so far has a voice or all voices are in use.
  ghost predicate Held(voices: seq<Voice>, cars: seq<SharedCar>) {
    forall k | 0 <= k < |cars| :: CarHeld(voices, cars[k])
  }

  ghost predicate CarHeld(voices: seq<Voice>, car: SharedCar) {
    Voiced(voices, car.id) || AllUsed(voices)
  }

  lemma {:induction false} FarthestExists(voices: seq<Voice>, d: Distance, n: nat)
    requires n <= |voices|
    ensures Farthest(voices, d, n) == |voices| <==> forall i | 0 <= i < n :: voices[i].st.isLocal
    ensures forall i | 0 <= i < n && !voices[i].st.isLocal ::
              Farthest(voices, d, n) < |voices| && d(voices[i].st.position) <= d(voices[Farthest(voices, d, n)].st.position)
  {
    if n != 0 {
      FarthestExists(voices, d, n - 1);
    }
  }

  lemma PlacedKeepsDistinct(voices: seq<Voice>, car: SharedCar, d: Distance, clock: real)
    requires DistinctIds(voices)
    ensures DistinctIds(Placed(voices, car, d, clock))
  {
    hide Farthest;
  }

  // What placing a car does: nothing, or its new voice goes into one slot, which was free
  // or, with none free, held the farthest voice not marked local, and the car is local.
  lemma PlacedHow(voices: seq<Voice>, car: SharedCar, d: Distance, clock: real)
    ensures var more, i := Placed(voices, car, d, clock), SlotFor(voices, car, d);
            && |more| == |voices| && CarServed(more, car)
            && (more != voices ==>
                  && i < |voices| && more == voices[i := NewVoice(car, clock)] && !Voiced(voices, car.id)
                  && (voices[i].used ==> AllUsed(voices) && car.st.isLocal && !voices[i].st.isLocal && i == Farthest(voices, d, |voices|)))
  {
    hide Farthest, FreeSlot;
    FarthestExists(voices, d, |voices|);
    var i := SlotFor(voices, car, d);
    if !Voiced(voices, car.id) && i < |voices| {
      assert voices[i := NewVoice(car, clock)][i].used;
    }
  }

  // A car keeps its voice unless that is the one taken.
  lemma VoicedStays(voices: seq<Voice>, i: nat, v: Voice, id: int)
    requires i < |voices| && Voiced(voices, id) && !(voices[i].used && voices[i].id == id)
    ensures Voiced(voices[i := v], id)
  {
    var k :| 0 <= k < |voices| && voices[k].used && voices[k].id == id;
    assert voices[i := v][k].used && voices[i := v][k].id == id;
  }

  ghost predicate DistinctCars(cars: seq<SharedCar>) {
    forall i, j | 0 <= i < j < |cars| :: cars[i].id != cars[j].id
  }

  // ---- what every callback leaves -------------------------------------------------------

  lemma PlacedStillHolds(voices: seq<Voice>, car: SharedCar, other: SharedCar, d: Distance, clock: real)
    requires CarHeld(voices, other)
    ensures CarHeld(Placed(voices, car, d, clock), other)
  {
    hide SlotFor, Placed;
    PlacedHow(voices, car, d, clock);
    var i := SlotFor(voices, car, d);
    if Placed(voices, car, d, clock) != voices && !AllUsed(voices) {
      VoicedStays(voices, i, NewVoice(car, clock), other.id);
    }
  }

  // Whatever the voices were marked: distinct cars, and no car without one while a slot is
  // free.
  lemma {:induction false} PlacedAllHolds(voices: seq<Voice>, cars: seq<SharedCar>, d: Distance, clock: real)
    ensures var more := PlacedAll(voices, cars, d, clock);
            |more| == |voices| && Held(more, cars) && (DistinctIds(voices) ==> DistinctIds(more))
  {
    hide Placed, CarHeld, DistinctIds;
    if cars != [] {
      var n := |cars| - 1;
      PlacedAllHolds(voices, cars[..n], d, clock);
      var before := PlacedAll(voices, cars[..n], d, clock);
      if DistinctIds(before) {
        PlacedKeepsDistinct(before, cars[n], d, clock);
      }
      PlacedHow(before, cars[n], d, clock);
      forall k | 0 <= k < n
        ensures CarHeld(PlacedAll(voices, cars, d, clock), cars[k])
      {
        assert CarHeld(before, cars[..n][k]);
        PlacedStillHolds(before, cars[n], cars[k], d, clock);
      }
    }
  }

  // At most one of the cars is the player's own.
  ghost predicate OneLocal(cars: seq<SharedCar>) {
    forall i, j | 0 <= i < j < |cars| :: !(cars[i].st.isLocal && cars[j].st.isLocal)
  }

  // A car that is not local takes nobody's voice.
  lemma OthersStillServe(voices: seq<Voice>, car: SharedCar, other: SharedCar, d: Distance, clock: real)
    requires CarServed(voices, other) && !(car.st.isLocal && other.st.isLocal)
    ensures CarServed(Placed(voices, car, d, clock), other)
  {
    hide SlotFor, Placed;
    PlacedStillHolds(voices, car, other, d, clock);
    PlacedHow(voices, car, d, clock);
    var i := SlotFor(voices, car, d);
    if Placed(voices, car, d, clock) != voices && other.st.isLocal {
      if Voiced(voices, other.id) {
        VoicedStays(voices, i, NewVoice(car, clock), other.id);
      }
    }
  }

  // With one local car everybody is served, however stale the marks of the voices are.
  lemma {:induction false} OneLocalServes(voices: seq<Voice>, cars: seq<SharedCar>, d: Distance, clock: real)
    requires OneLocal(cars)
    ensures Served(PlacedAll(voices, cars, d, clock), cars)
  {
    hide Placed, CarServed;
    if cars != [] {
      var n := |cars| - 1;
      OneLocalServes(voices, cars[..n], d, clock);
      var before := PlacedAll(voices, cars[..n], d, clock);
      PlacedHow(before, cars[n], d, clock);
      forall k | 0 <= k < n
        ensures CarServed(PlacedAll(voices, cars, d, clock), cars[k])
      {
        assert CarServed(before, cars[..n][k]);
        OthersStillServe(before, cars[n], cars[k], d, clock);
      }
    }
  }

  lemma RefreshedKeepsDistinct(voices: seq<Voice>, cars: seq<SharedCar>, clock: real)
    requires DistinctIds(voices)
    ensures DistinctIds(RefreshedAll(voices, cars, clock))
  {
  }

  lemma {:induction false} FreeIs(voices: seq<Voice>, slot: nat)
    requires slot <= |voices| && (forall k | 0 <= k < slot :: voices[k].used) && (slot < |voices| ==> !voices[slot].used)
    ensures FreeSlot(voices) == slot
  {
    if slot > 0 {
      FreeIs(voices[1..], slot - 1);
    }
  }

  // ---- every run ----------------------------------------------------------------------

  // One callback of the audio thread: the cars then, the listener, the clock, and the fade
  // each voice is left at by the mixing.
  datatype Callback = Callback(cars: seq<SharedCar>, d: Distance, clock: real, fades: seq<real>)

  function Mixed(voices: seq<Voice>, fades: seq<real>): seq<Voice> {
    seq(|voices|, i requires 0 <= i < |voices| => if i < |fades| then voices[i].(fade := fades[i]) else voices[i])
  }

  function Run(voices: seq<Voice>, callbacks: seq<Callback>): seq<Voice> {
    if callbacks == [] then voices
    else
      var c := callbacks[|callbacks| - 1];
      Mixed(Assigned(Run(voices, callbacks[..|callbacks| - 1]), c.cars, c.d, c.clock), c.fades)
  }

  // ---- exactly who goes without ----------------------------------------------------------

  // The voice is as far on as the car, so a callback leaves its state as it was.
  predicate SameUpdate(v: Voice, car: SharedCar) {
    v.used && v.id == car.id && v.lastUpdate == car.updates
  }

  // The voices when it is car m's turn.
  function AtTurn(voices: seq<Voice>, c: Callback, m: nat): seq<Voice>
    requires m <= |c.cars|
  {
    PlacedAll(RefreshedAll(voices, c.cars, c.clock), c.cars[..m], c.d, c.clock)
  }

  // Voice i stands at the update count of car k, marked as a rival's, and later the turn is
  // on car m, which is local and has no voice; with no slot free, i is the farthest voice
  // marked so.
  ghost predicate Robbed(voices: seq<Voice>, c: Callback, k: nat, i: nat, m: nat) {
    && k < m < |c.cars| && i < |voices| && SameUpdate(voices[i], c.cars[k]) && !voices[i].st.isLocal
    && c.cars[m].st.isLocal
    && var now := AtTurn(voices, c, m);
       !Voiced(now, c.cars[m].id) && FreeSlot(now) == |now| && Farthest(now, c.d, |now|) == i < |now| && now[i].id == c.cars[k].id
  }

  ghost predicate RobbedBefore(voices: seq<Voice>, c: Callback, k: nat, n: nat) {
    exists i: nat, m: nat :: m < n && Robbed(voices, c, k, i, m)
  }

  lemma {:induction false} CarFound(cars: seq<SharedCar>, k: nat)
    requires DistinctCars(cars) && k < |cars|
    ensures CarOf(cars, cars[k].id) == k
  {
    if k > 0 {
      assert forall i, j | 0 <= i < j < |cars[1..]| :: cars[1..][i].id != cars[1..][j].id;
      CarFound(cars[1..], k - 1);
    }
  }

  // After refreshing, a voice of a car is marked as the car is unless it was as far on.
  lemma MarkedOtherwise(v: Voice, cars: seq<SharedCar>, k: nat, clock: real)
    requires DistinctCars(cars) && k < |cars|
    ensures var w := Refreshed(v, cars, clock);
            w.used && w.id == cars[k].id && w.st.isLocal != cars[k].st.isLocal ==> SameUpdate(v, cars[k]) && v.st == w.st
  {
    CarFound(cars, k);
  }

  // Where a voice comes from: it was there, or it is the new voice of a car placed so far.
  lemma {:induction false} VoiceFrom(voices: seq<Voice>, cars: seq<SharedCar>, d: Distance, clock: real, i: nat)
    requires i < |voices|
    ensures var more := PlacedAll(voices, cars, d, clock);
            i < |more| == |voices| && (more[i] == voices[i] || exists q :: 0 <= q < |cars| && more[i] == NewVoice(cars[q], clock))
  {
    hide SlotFor;
    if cars != [] {
      var n := |cars| - 1;
      VoiceFrom(voices, cars[..n], d, clock, i);
      var before, more := PlacedAll(voices, cars[..n], d, clock), PlacedAll(voices, cars, d, clock);
      if more[i] == before[i] && before[i] != voices[i] {
        var q :| 0 <= q < n && before[i] == NewVoice(cars[..n][q], clock);
        assert more[i] == NewVoice(cars[q], clock);
      }
    }
  }

  ghost predicate Gone(v: Voice, cars: seq<SharedCar>) {
    forall k | 0 <= k < |cars| :: cars[k].id != v.id
  }

  // A voice in use as it goes on: of a car that is gone it fades out; of one with news it
  // takes them, and its loudness; of one without news for more than a second it fades out,
  // and else it stays. One that has faded out is freed.
  lemma RefreshedSays(v: Voice, cars: seq<SharedCar>, k: nat, clock: real)
    requires DistinctCars(cars) && v.used && (Gone(v, cars) || (k < |cars| && cars[k].id == v.id))
    ensures var w := Refreshed(v, cars, clock);
            && w.id == v.id && w.fade == v.fade && (w.used <==> w.fadeTarget != 0.0 || w.fade > 0.0001)
            && (Gone(v, cars) ==> w.fadeTarget == 0.0 && w.st == v.st)
            && (!Gone(v, cars) && cars[k].updates != v.lastUpdate ==>
                  && w.st == cars[k].st && w.lastUpdate == cars[k].updates && w.lastChange == clock
                  && w.fadeTarget == (if cars[k].st.gain <= 0.0 then 0.0 else if cars[k].st.gain >= 1.0 then 1.0 else cars[k].st.gain))
            && (!Gone(v, cars) && cars[k].updates == v.lastUpdate ==>
                  && w.st == v.st && w.lastChange == v.lastChange
                  && w.fadeTarget == (if clock - v.lastChange > 1.0 then 0.0 else v.fadeTarget))
  {
    if Gone(v, cars) {
      NotFound(cars, v.id);
    } else {
      CarFound(cars, k);
    }
  }

  lemma NotFound(cars: seq<SharedCar>, id: int)
    requires forall k | 0 <= k < |cars| :: cars[k].id != id
    ensures CarOf(cars, id) == |cars|
  {
  }

  // A voice that begins: from silence, with what its car is heard as.
  ghost predicate Begins(v: Voice, cars: seq<SharedCar>, k: int, clock: real)
    requires 0 <= k < |cars|
  {
    && v.used && v.id == cars[k].id && v.st == cars[k].st && v.lastUpdate == cars[k].updates && v.lastChange == clock
    && v.fade == 0.0 && v.fadeTarget == (if cars[k].st.gain <= 0.0 then 0.0 else if cars[k].st.gain >= 1.0 then 1.0 else cars[k].st.gain)
  }

  // Every voice after the cars are placed is one that goes on or one that begins.
  lemma AssignedSays(voices: seq<Voice>, cars: seq<SharedCar>, d: Distance, clock: real, i: nat)
    requires DistinctCars(cars) && i < |voices|
    ensures var more := Assigned(voices, cars, d, clock);
            && |more| == |voices|
            && (more[i] == Refreshed(voices[i], cars, clock) || exists k :: 0 <= k < |cars| && Begins(more[i], cars, k, clock))
  {
    hide PlacedAll, Refreshed;
    VoiceFrom(RefreshedAll(voices, cars, clock), cars, d, clock, i);
    var w := Assigned(voices, cars, d, clock)[i];
    if w != Refreshed(voices[i], cars, clock) {
      var k :| 0 <= k < |cars| && w == NewVoice(cars[k], clock);
      assert Begins(w, cars, k, clock);
    }
  }

  lemma NextTurn(voices: seq<Voice>, c: Callback, m: nat)
    requires m < |c.cars|
    ensures AtTurn(voices, c, m + 1) == Placed(AtTurn(voices, c, m), c.cars[m], c.d, c.clock)
  {
    hide Placed, RefreshedAll;
    assert c.cars[..m + 1][..m] == c.cars[..m];
  }

  lemma TurnSize(voices: seq<Voice>, c: Callback, m: nat)
    requires m <= |c.cars|
    ensures |AtTurn(voices, c, m)| == |voices| && (DistinctIds(voices) ==> DistinctIds(AtTurn(voices, c, m)))
  {
    hide Placed;
    if DistinctIds(voices) {
      RefreshedKeepsDistinct(voices, c.cars, c.clock);
    }
    RefreshedSize(voices, c.cars, c.clock);
    PlacedAllHolds(RefreshedAll(voices, c.cars, c.clock), c.cars[..m], c.d, c.clock);
  }

  // A voice marked as a rival's although its car is local was as far on as the car.
  lemma StaleMark(voices: seq<Voice>, c: Callback, k: nat, i: nat, m: nat)
    requires DistinctCars(c.cars) && k < |c.cars| && m <= |c.cars| && c.cars[k].st.isLocal && i < |voices|
    requires i < |AtTurn(voices, c, m)|
    requires var v := AtTurn(voices, c, m)[i]; v.used && v.id == c.cars[k].id && !v.st.isLocal
    ensures SameUpdate(voices[i], c.cars[k]) && !voices[i].st.isLocal
  {
    hide PlacedAll, Refreshed;
    var refreshed := RefreshedAll(voices, c.cars, c.clock);
    VoiceFrom(refreshed, c.cars[..m], c.d, c.clock, i);
    MarkedOtherwise(voices[i], c.cars, k, c.clock);
  }

  // At car m's turn a car placed before stays served unless it is robbed then.
  lemma TurnServes(voices: seq<Voice>, c: Callback, k: nat, m: nat)
    requires DistinctIds(voices) && DistinctCars(c.cars) && k < m < |c.cars|
    requires CarServed(AtTurn(voices, c, m), c.cars[k]) && !CarServed(AtTurn(voices, c, m + 1), c.cars[k])
    ensures exists i: nat :: Robbed(voices, c, k, i, m)
  {
    hide AtTurn, Placed, SlotFor, Farthest, FreeSlot;
    var now, car, other := AtTurn(voices, c, m), c.cars[m], c.cars[k];
    NextTurn(voices, c, m);
    TurnSize(voices, c, m);
    PlacedHow(now, car, c.d, c.clock);
    PlacedStillHolds(now, car, other, c.d, c.clock);
    if !(car.st.isLocal && other.st.isLocal) {
      OthersStillServe(now, car, other, c.d, c.clock);
    }
    var i := SlotFor(now, car, c.d);
    if !(now[i].used && now[i].id == other.id) && Voiced(now, other.id) {
      VoicedStays(now, i, NewVoice(car, c.clock), other.id);
    }
    StaleMark(voices, c, k, i, m);
    FreeIs(now, |now|);
    assert Robbed(voices, c, k, i, m);
  }

  lemma {:induction false} ServedUntilRobbed(voices: seq<Voice>, c: Callback, k: nat, n: nat)
    requires DistinctIds(voices) && DistinctCars(c.cars) && k < n <= |c.cars|
    ensures CarServed(AtTurn(voices, c, n), c.cars[k]) || RobbedBefore(voices, c, k, n)
  {
    hide AtTurn, Robbed, CarServed, DistinctIds, DistinctCars;
    if n == k + 1 {
      NextTurn(voices, c, k);
      PlacedHow(AtTurn(voices, c, k), c.cars[k], c.d, c.clock);
    } else {
      ServedUntilRobbed(voices, c, k, n - 1);
      if CarServed(AtTurn(voices, c, n - 1), c.cars[k]) && !CarServed(AtTurn(voices, c, n), c.cars[k]) {
        TurnServes(voices, c, k, n - 1);
      }
    }
  }

  // Once robbed, a car gets no voice in this callback.
  lemma {:induction false} RobbedStays(voices: seq<Voice>, c: Callback, k: nat, i: nat, m: nat, n: nat)
    requires DistinctIds(voices) && DistinctCars(c.cars) && Robbed(voices, c, k, i, m) && m < n <= |c.cars|
    ensures !Voiced(AtTurn(voices, c, n), c.cars[k].id)
  {
    hide AtTurn, Placed, Farthest;
    NextTurn(voices, c, n - 1);
    var now := AtTurn(voices, c, n - 1);
    TurnSize(voices, c, n - 1);
    if n == m + 1 {
      RobbedNow(now, c.cars[m], c.d, c.clock, i);
    } else {
      RobbedStays(voices, c, k, i, m, n - 1);
      PlacedHow(now, c.cars[n - 1], c.d, c.clock);
    }
  }

  lemma RobbedNow(now: seq<Voice>, car: SharedCar, d: Distance, clock: real, i: nat)
    requires DistinctIds(now) && i < |now| && car.st.isLocal && car.id != now[i].id && now[i].used
    requires !Voiced(now, car.id) && FreeSlot(now) == |now| && Farthest(now, d, |now|) == i
    ensures !Voiced(Placed(now, car, d, clock), now[i].id)
  {
    hide Farthest, FreeSlot;
  }

  // Exactly who goes without: a local car that was robbed, while some voice is left that is
  // not marked local.
  lemma UnservedExactly(voices: seq<Voice>, c: Callback, k: nat)
    requires DistinctIds(voices) && DistinctCars(c.cars) && k < |c.cars|
    ensures var final := Assigned(voices, c.cars, c.d, c.clock);
            !CarServed(final, c.cars[k]) <==>
              c.cars[k].st.isLocal && !AllLocal(final) && RobbedBefore(voices, c, k, |c.cars|)
  {
    hide Robbed, Assigned, AtTurn, PlacedAll;
    var n := |c.cars|;
    LastTurn(voices, c);
    ServedUntilRobbed(voices, c, k, n);
    HeldAtEnd(voices, c);
    assert CarHeld(Assigned(voices, c.cars, c.d, c.clock), c.cars[k]);
    if RobbedBefore(voices, c, k, n) {
      var i: nat, m: nat :| m < n && Robbed(voices, c, k, i, m);
      RobbedStays(voices, c, k, i, m, n);
    }
  }

  lemma LastTurn(voices: seq<Voice>, c: Callback)
    ensures AtTurn(voices, c, |c.cars|) == Assigned(voices, c.cars, c.d, c.clock)
  {
    hide PlacedAll, RefreshedAll;
    assert c.cars[..|c.cars|] == c.cars;
  }

  lemma HeldAtEnd(voices: seq<Voice>, c: Callback)
    ensures var final := Assigned(voices, c.cars, c.d, c.clock);
            Held(final, c.cars) && |final| == |voices| && (DistinctIds(voices) ==> DistinctIds(final))
  {
    hide PlacedAll, Held, DistinctIds;
    if DistinctIds(voices) {
      RefreshedKeepsDistinct(voices, c.cars, c.clock);
    }
    RefreshedSize(voices, c.cars, c.clock);
    PlacedAllHolds(RefreshedAll(voices, c.cars, c.clock), c.cars, c.d, c.clock);
  }

  lemma RefreshedSize(voices: seq<Voice>, cars: seq<SharedCar>, clock: real)
    ensures |RefreshedAll(voices, cars, clock)| == |voices|
  {
  }

  // ---- every run --------------------------------------------------------------------------

  // No voice in use stands at the update count of its car with a state of another kind: that
  // takes a car that was removed and came back, having counted as far as before.
  ghost predicate Fresh(voices: seq<Voice>, cars: seq<SharedCar>) {
    forall i, k | 0 <= i < |voices| && 0 <= k < |cars| && SameUpdate(voices[i], cars[k]) :: voices[i].st.isLocal == cars[k].st.isLocal
  }

  lemma FreshServes(voices: seq<Voice>, c: Callback)
    requires DistinctIds(voices) && DistinctCars(c.cars) && Fresh(voices, c.cars)
    ensures Served(Assigned(voices, c.cars, c.d, c.clock), c.cars)
  {
    hide Assigned, AtTurn, CarServed, AllLocal;
    forall k | 0 <= k < |c.cars|
      ensures CarServed(Assigned(voices, c.cars, c.d, c.clock), c.cars[k])
    {
      UnservedExactly(voices, c, k);
    }
  }

  // What the mixing leaves of it all: it changes nothing but fades.
  lemma MixedAlike(voices: seq<Voice>, fades: seq<real>)
    ensures var more := Mixed(voices, fades);
            && |more| == |voices| && (DistinctIds(voices) ==> DistinctIds(more)) && (AllUsed(voices) ==> AllUsed(more))
            && (AllLocal(voices) ==> AllLocal(more)) && forall id :: Voiced(voices, id) ==> Voiced(more, id)
  {
    var more := Mixed(voices, fades);
    forall id | Voiced(voices, id)
      ensures Voiced(more, id)
    {
      var i :| 0 <= i < |voices| && voices[i].used && voices[i].id == id;
      assert more[i].used && more[i].id == id;
    }
  }

  // After a callback: the voices in use have distinct cars, and a car goes without a voice
  // only when all are in use; and a local car only when every voice is a local car's, if at
  // most one car is local or every voice's state is its car's.
  lemma CallbackServes(voices: seq<Voice>, c: Callback)
    requires DistinctIds(voices)
    ensures var more := Mixed(Assigned(voices, c.cars, c.d, c.clock), c.fades);
            && |more| == |voices| && DistinctIds(more) && Held(more, c.cars)
            && (OneLocal(c.cars) || (DistinctCars(c.cars) && Fresh(voices, c.cars)) ==> Served(more, c.cars))
  {
    hide DistinctIds, DistinctCars, OneLocal, Fresh, Assigned, Mixed, AllLocal, AllUsed, Voiced;
    var final := Assigned(voices, c.cars, c.d, c.clock);
    HeldAtEnd(voices, c);
    MixedAlike(final, c.fades);
    forall k | 0 <= k < |c.cars|
      ensures CarHeld(Mixed(final, c.fades), c.cars[k])
      ensures CarServed(final, c.cars[k]) ==> CarServed(Mixed(final, c.fades), c.cars[k])
    {
      assert CarHeld(final, c.cars[k]);
    }
    if OneLocal(c.cars) {
      OneLocalAssigned(voices, c);
    } else if DistinctCars(c.cars) && Fresh(voices, c.cars) {
      FreshServes(voices, c);
    }
  }

  lemma OneLocalAssigned(voices: seq<Voice>, c: Callback)
    requires OneLocal(c.cars)
    ensures Served(Assigned(voices, c.cars, c.d, c.clock), c.cars)
  {
    hide Served, PlacedAll, RefreshedAll;
    OneLocalServes(RefreshedAll(voices, c.cars, c.clock), c.cars, c.d, c.clock);
  }

  // Over every run, whatever cars come, go and return: distinct cars, and no car without a
  // voice while a slot is free; and whenever at most one of the cars is local, that one goes
  // without only when every voice is a local car's.
  lemma {:induction false} RunServes(voices: seq<Voice>, callbacks: seq<Callback>)
    requires DistinctIds(voices)
    ensures var more := Run(voices, callbacks);
            && |more| == |voices| && DistinctIds(more)
            && (callbacks != [] ==>
                  var cars := callbacks[|callbacks| - 1].cars;
                  Held(more, cars) && (OneLocal(cars) ==> Served(more, cars)))
  {
    hide DistinctIds, OneLocal, Held, Served, Assigned, Mixed, Fresh;
    if callbacks != [] {
      var n := |callbacks| - 1;
      RunServes(voices, callbacks[..n]);
      CallbackServes(Run(voices, callbacks[..n]), callbacks[n]);
    }
  }

  // ---- the game thread's side -----------------------------------------------------

  // The cars by id; gone are the ids ever removed.
  datatype Audio = Audio(cars: map<int, SharedCar>, voices: seq<Voice>, gone: set<int>)

  // A callback works on the cars in id order.
  datatype AudioOp = UpdateCar(id: int, st: CarSound) | RemoveCar(id: int) | Render(callback: Callback)

  // An update counts; a new car starts at one.
  function AudioAfter(a: Audio, op: AudioOp): Audio {
    match op
    case UpdateCar(id, st) => a.(cars := a.cars[id := SharedCar(id, st, if id in a.cars then a.cars[id].updates + 1 else 1)])
    case RemoveCar(id) => a.(cars := a.cars - {id}, gone := a.gone + {id})
    case Render(c) => a.(voices := Mixed(Assigned(a.voices, c.cars, c.d, c.clock), c.fades))
  }

  function AudioRun(a: Audio, ops: seq<AudioOp>): Audio {
    if ops == [] then a else AudioAfter(AudioRun(a, ops[..|ops| - 1]), ops[|ops| - 1])
  }

  ghost predicate InOrder(listed: seq<SharedCar>, cars: map<int, SharedCar>) {
    && (forall i, j | 0 <= i < j < |listed| :: listed[i].id < listed[j].id)
    && (forall i | 0 <= i < |listed| :: listed[i].id in cars && cars[listed[i].id] == listed[i])
    && (forall id | id in cars :: cars[id] in listed)
  }

  // Callbacks are given the cars there are, and no car that was removed is updated again.
  ghost predicate NoReturn(a: Audio, ops: seq<AudioOp>) {
    forall k | 0 <= k < |ops| :: Proper(AudioRun(a, ops[..k]), ops[k])
  }

  ghost predicate Proper(a: Audio, op: AudioOp) {
    (op.Render? ==> InOrder(op.callback.cars, a.cars)) && (op.UpdateCar? ==> op.id !in a.gone)
  }

  // A voice's car is gone or at least as far on as the voice, and alike when equally far.
  ghost predicate Followed(v: Voice, a: Audio) {
    v.used ==>
      if v.id !in a.cars then v.id in a.gone
      else v.lastUpdate <= a.cars[v.id].updates && (v.lastUpdate == a.cars[v.id].updates ==> v.st.isLocal == a.cars[v.id].st.isLocal)
  }

  ghost predicate AudioOk(a: Audio) {
    && (forall id | id in a.cars :: a.cars[id].id == id)
    && DistinctIds(a.voices) && forall i | 0 <= i < |a.voices| :: Followed(a.voices[i], a)
  }

  lemma ChangeFollows(a: Audio, op: AudioOp)
    requires AudioOk(a) && Proper(a, op) && !op.Render?
    ensures AudioOk(AudioAfter(a, op))
  {
    hide DistinctIds;
    var b := AudioAfter(a, op);
    forall i | 0 <= i < |b.voices|
      ensures Followed(b.voices[i], b)
    {
      assert Followed(a.voices[i], a);
    }
  }

  lemma ListedDistinct(listed: seq<SharedCar>, cars: map<int, SharedCar>)
    requires InOrder(listed, cars)
    ensures DistinctCars(listed)
  {
  }

  lemma FollowedFresh(a: Audio, listed: seq<SharedCar>)
    requires AudioOk(a) && InOrder(listed, a.cars)
    ensures Fresh(a.voices, listed)
  {
    forall i, k | 0 <= i < |a.voices| && 0 <= k < |listed| && SameUpdate(a.voices[i], listed[k])
      ensures a.voices[i].st.isLocal == listed[k].st.isLocal
    {
      assert Followed(a.voices[i], a);
    }
  }

  // After refreshing, a voice in use stands where its car does, or its car is gone.
  ghost predicate Current(v: Voice, a: Audio) {
    v.used ==>
      if v.id !in a.cars then v.id in a.gone
      else v.lastUpdate == a.cars[v.id].updates && v.st.isLocal == a.cars[v.id].st.isLocal
  }

  lemma RefreshedCurrent(v: Voice, a: Audio, listed: seq<SharedCar>, clock: real)
    requires Followed(v, a) && InOrder(listed, a.cars) && (forall id | id in a.cars :: a.cars[id].id == id)
    ensures Current(Refreshed(v, listed, clock), a)
  {
    ListedDistinct(listed, a.cars);
    if v.used && v.id in a.cars {
      var k :| 0 <= k < |listed| && listed[k] == a.cars[v.id];
      CarFound(listed, k);
    }
  }

  lemma {:induction false} PlacedAllCurrent(voices: seq<Voice>, cars: seq<SharedCar>, a: Audio, d: Distance, clock: real)
    requires (forall k | 0 <= k < |cars| :: cars[k].id in a.cars && a.cars[cars[k].id] == cars[k])
    requires forall i | 0 <= i < |voices| :: Current(voices[i], a)
    ensures var more := PlacedAll(voices, cars, d, clock); |more| == |voices| && forall i | 0 <= i < |more| :: Current(more[i], a)
  {
    hide SlotFor;
    if cars != [] {
      PlacedAllCurrent(voices, cars[..|cars| - 1], a, d, clock);
    }
  }

  lemma RenderFollows(a: Audio, c: Callback)
    requires AudioOk(a) && InOrder(c.cars, a.cars)
    ensures AudioOk(AudioAfter(a, Render(c)))
  {
    hide PlacedAll, Refreshed, DistinctCars, DistinctIds, Held, OneLocal, Fresh, Followed, Current;
    ListedDistinct(c.cars, a.cars);
    CallbackServes(a.voices, c);
    var refreshed := RefreshedAll(a.voices, c.cars, c.clock);
    forall i | 0 <= i < |refreshed|
      ensures Current(refreshed[i], a)
    {
      RefreshedCurrent(a.voices[i], a, c.cars, c.clock);
    }
    PlacedAllCurrent(refreshed, c.cars, a, c.d, c.clock);
    var b := AudioAfter(a, Render(c));
    var placed := PlacedAll(refreshed, c.cars, c.d, c.clock);
    forall i | 0 <= i < |b.voices|
      ensures Followed(b.voices[i], b)
    {
      CurrentFollows(placed[i], b.voices[i].fade, a, b);
    }
  }

  lemma CurrentFollows(v: Voice, fade: real, a: Audio, b: Audio)
    requires Current(v, a) && b.cars == a.cars && b.gone == a.gone
    ensures Followed(v.(fade := fade), b) && Followed(v, b)
  {
  }

  // In a run in which no removed car comes back, voices follow their cars.
  lemma {:induction false} EngineFollows(a: Audio, ops: seq<AudioOp>)
    requires AudioOk(a) && NoReturn(a, ops)
    ensures AudioOk(AudioRun(a, ops))
  {
    hide AudioOk, AudioAfter, Proper;
    if ops != [] {
      var n := |ops| - 1;
      var front, op := ops[..n], ops[n];
      assert forall k | 0 <= k < n :: front[k] == ops[k] && front[..k] == ops[..k];
      EngineFollows(a, front);
      assert Proper(AudioRun(a, ops[..n]), ops[n]);
      if op.Render? {
        RenderNow(AudioRun(a, front), op);
      } else {
        ChangeFollows(AudioRun(a, front), op);
      }
    }
  }

  lemma RenderNow(a: Audio, op: AudioOp)
    requires AudioOk(a) && Proper(a, op) && op.Render?
    ensures AudioOk(AudioAfter(a, op))
  {
    hide AudioOk, InOrder;
    RenderFollows(a, op.callback);
  }

  lemma {:induction false} EngineDistinct(a: Audio, ops: seq<AudioOp>)
    requires DistinctIds(a.voices)
    ensures DistinctIds(AudioRun(a, ops).voices)
  {
    hide DistinctIds, Assigned, Mixed, Held, OneLocal, Fresh, Served;
    if ops != [] {
      var n := |ops| - 1;
      EngineDistinct(a, ops[..n]);
      if ops[n].Render? {
        CallbackServes(AudioRun(a, ops[..n]).voices, ops[n].callback);
      }
    }
  }

  // In every run of updates, removals and callbacks, right after each callback: distinct
  // cars, and no car without a voice while a slot is free; and a local car goes without only
  // when every voice is a local car's, if at most one car is local or no removed car ever
  // came back.
  lemma EngineServes(a: Audio, ops: seq<AudioOp>, c: Callback)
    requires DistinctIds(a.voices)
    ensures var before, more := AudioRun(a, ops), AudioRun(a, ops + [Render(c)]).voices;
            && DistinctIds(more) && Held(more, c.cars)
            && (OneLocal(c.cars) || (AudioOk(a) && NoReturn(a, ops) && InOrder(c.cars, before.cars)) ==> Served(more, c.cars))
  {
    hide DistinctIds, Assigned, Mixed, Held, Served, OneLocal, AudioOk, NoReturn, InOrder, Fresh, DistinctCars;
    EngineDistinct(a, ops);
    assert (ops + [Render(c)])[..|ops|] == ops;
    CallbackServes(AudioRun(a, ops).voices, c);
    if AudioOk(a) && NoReturn(a, ops) && InOrder(c.cars, AudioRun(a, ops).cars) {
      EngineFollows(a, ops);
      ListedDistinct(c.cars, AudioRun(a, ops).cars);
      FollowedFresh(AudioRun(a, ops), c.cars);
    }
  }

  // ---- a car that comes back --------------------------------------------------------

  function SoundAt(x: real, isLocal: bool): CarSound {
    CarSound(Vec3(x, 0.0, 0.0), isLocal, 1.0)
  }

  const ALONG: Distance := (p: Vec3) => p.x

  const RIVALS := [SharedCar(1, SoundAt(9.0, false), 1), SharedCar(2, SoundAt(1.0, false), 1),
                   SharedCar(3, SoundAt(2.0, false), 1), SharedCar(4, SoundAt(3.0, false), 1)]

  // Car 1 was removed and is back as the player's own, one update old as its voice is; car 5
  // is another of the player's.
  const BACK := [SharedCar(1, SoundAt(9.0, true), 1), RIVALS[1], RIVALS[2], RIVALS[3], SharedCar(5, SoundAt(0.0, true), 1)]

  function VoicesOf(cars: seq<SharedCar>, clock: real): seq<Voice> {
    seq(|cars|, i requires 0 <= i < |cars| => NewVoice(cars[i], clock))
  }

  const SILENT := Voice(-1, false, CarSound(ORIGIN, false, 1.0), 0, 0.0, 0.0, 1.0)
  const EMPTY := [SILENT, SILENT, SILENT, SILENT]

  // The first n rivals have the first n voices, the others are free.
  ghost predicate Filled(voices: seq<Voice>, n: nat, clock: real) {
    && |voices| == 4 && n <= 4
    && (forall k | 0 <= k < n :: voices[k] == NewVoice(RIVALS[k], clock))
    && (forall k | n <= k < 4 :: voices[k] == SILENT)
  }

  // The first callback gives the four rivals the four voices.
  lemma RivalsVoiced(clock: real)
    ensures Assigned(EMPTY, RIVALS, ALONG, clock) == VoicesOf(RIVALS, clock)
  {
    hide PlacedAll;
    assert RefreshedAll(EMPTY, RIVALS, clock) == EMPTY;
    FilledTo(4, clock);
    assert RIVALS[..4] == RIVALS;
  }

  lemma {:induction false} FilledTo(n: nat, clock: real)
    requires n <= 4
    ensures Filled(PlacedAll(EMPTY, RIVALS[..n], ALONG, clock), n, clock)
  {
    hide Placed, Filled;
    if n == 0 {
      NoneFilled(clock);
    } else {
      FilledTo(n - 1, clock);
      assert RIVALS[..n][..n - 1] == RIVALS[..n - 1];
      OneFilled(PlacedAll(EMPTY, RIVALS[..n - 1], ALONG, clock), n, clock);
    }
  }

  lemma NoneFilled(clock: real)
    ensures Filled(PlacedAll(EMPTY, RIVALS[..0], ALONG, clock), 0, clock)
  {
  }

  lemma OneFilled(voices: seq<Voice>, n: nat, clock: real)
    requires 1 <= n <= 4 && Filled(voices, n - 1, clock)
    ensures Filled(Placed(voices, RIVALS[n - 1], ALONG, clock), n, clock)
  {
    hide Placed;
    TakesFree(voices, RIVALS[n - 1], n - 1, clock);
  }

  lemma TakesFree(voices: seq<Voice>, car: SharedCar, slot: nat, clock: real)
    requires slot < |voices| && (forall k | 0 <= k < slot :: voices[k].used && voices[k].id != car.id)
    requires forall k | slot <= k < |voices| :: !voices[k].used
    ensures Placed(voices, car, ALONG, clock) == voices[slot := NewVoice(car, clock)]
  {
    hide Farthest, FreeSlot;
    FreeIs(voices, slot);
  }

  // Car 5 takes the voice of the farthest car the pool believes to be a rival's: that of
  // car 1, which is left without one while three rivals keep theirs.
  lemma ReturnedCarLosesVoice(clock: real)
    ensures var voices := Assigned(EMPTY, RIVALS, ALONG, clock);
            && DistinctIds(voices) && DistinctCars(BACK) && !Fresh(voices, BACK)
            && !CarServed(Assigned(voices, BACK, ALONG, clock), BACK[0])
  {
    hide PlacedAll, RefreshedAll, Farthest, FreeSlot;
    var voices := VoicesOf(RIVALS, clock);
    RivalsVoiced(clock);
    assert SameUpdate(voices[0], BACK[0]);
    NothingNew(voices, clock);
    KnownStay(voices, 4, clock);
    FarthestOfFour(voices);
    var after := voices[0 := NewVoice(BACK[4], clock)];
    assert Placed(voices, BACK[4], ALONG, clock) == after;
    LastPlaced(voices, clock);
    assert Assigned(voices, BACK, ALONG, clock) == after;
    assert !Voiced(after, 1) && !after[1].st.isLocal;
  }

  lemma NothingNew(voices: seq<Voice>, clock: real)
    requires voices == VoicesOf(RIVALS, clock)
    ensures RefreshedAll(voices, BACK, clock) == voices
  {
    forall i | 0 <= i < 4
      ensures Refreshed(voices[i], BACK, clock) == voices[i]
    {
      CarFound(BACK, i);
    }
  }

  lemma LastPlaced(voices: seq<Voice>, clock: real)
    ensures PlacedAll(voices, BACK, ALONG, clock) == Placed(PlacedAll(voices, BACK[..4], ALONG, clock), BACK[4], ALONG, clock)
  {
    hide Placed;
    assert |BACK| == 5;
  }

  // Cars that have a voice are not placed again.
  lemma {:induction false} KnownStay(voices: seq<Voice>, n: nat, clock: real)
    requires voices == VoicesOf(RIVALS, clock) && n <= 4
    ensures PlacedAll(voices, BACK[..n], ALONG, clock) == voices
  {
    if n > 0 {
      KnownStay(voices, n - 1, clock);
      assert BACK[..n][..n - 1] == BACK[..n - 1];
      assert voices[n - 1].used && voices[n - 1].id == BACK[n - 1].id;
      assert Voiced(voices, BACK[n - 1].id);
    }
  }

  lemma {:induction false} FarthestOfFour(voices: seq<Voice>)
    requires |voices| == 4 && forall i | 0 <= i < 4 :: voices[i].used && voices[i].st == RIVALS[i].st
    ensures FreeSlot(voices) == 4 && Farthest(voices, ALONG, 4) == 0
  {
    FreeIs(voices, 4);
    assert Farthest(voices, ALONG, 1) == 0;
    assert Farthest(voices, ALONG, 2) == 0;
    assert Farthest(voices, ALONG, 3) == 0;
  }
}
