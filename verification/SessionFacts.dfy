/** What snapshots and ticks leave in a session, told record by record. */
module SessionFacts {
  import opened Basics
  import opened CarStates
  import opened Prediction
  import opened RaceFacts
  import opened RaceRules
  import opened Sessions
  import opened SharedFacts
  import opened Snapshots
  import opened Vectors

  // ---- the cars of a snapshot ------------------------------------------------------

  ghost predicate Names(cars: seq<CarSeen>, id: int) {
    exists k :: 0 <= k < |cars| && cars[k].car.playerId == id
  }

  // The last record of a player.
  ghost predicate LastOf(cars: seq<CarSeen>, id: int, k: int) {
    && 0 <= k < |cars| && cars[k].car.playerId == id
    && forall j | k < j < |cars| :: cars[j].car.playerId != id
  }

  lemma NamesSplits(cars: seq<CarSeen>, id: int)
    requires cars != []
    ensures Names(cars, id) <==> Names(cars[..|cars| - 1], id) || cars[|cars| - 1].car.playerId == id
  {
    var front := cars[..|cars| - 1];
    if Names(front, id) {
      var k :| 0 <= k < |front| && front[k].car.playerId == id;
      assert cars[k].car.playerId == id;
    }
    if Names(cars, id) {
      var k :| 0 <= k < |cars| && cars[k].car.playerId == id;
      assert k < |front| ==> front[k].car.playerId == id;
    }
  }

  lemma LastOfSplits(cars: seq<CarSeen>, id: int, k: int)
    requires cars != [] && LastOf(cars, id, k)
    ensures cars[|cars| - 1].car.playerId == id <==> k == |cars| - 1
    ensures k < |cars| - 1 ==> LastOf(cars[..|cars| - 1], id, k)
  {
  }

  // A player's newest record is the last one; those without one keep what was known.
  lemma {:induction false} OverlaidSays(remotes: map<int, NetState>, cars: seq<CarSeen>, own: int, id: int, k: int)
    ensures id in Overlaid(remotes, cars, own) <==> id in remotes || (id != own && Names(cars, id))
    ensures id != own && LastOf(cars, id, k) ==> id in Overlaid(remotes, cars, own) && Overlaid(remotes, cars, own)[id] == cars[k].car
    ensures id in remotes && (id == own || !Names(cars, id)) ==> Overlaid(remotes, cars, own)[id] == remotes[id]
  {
    if cars != [] {
      hide Names, LastOf;
      OverlaidSays(remotes, cars[..|cars| - 1], own, id, k);
      NamesSplits(cars, id);
      if LastOf(cars, id, k) {
        LastOfSplits(cars, id, k);
      }
    }
  }

  lemma {:induction false} OursSays(cars: seq<CarSeen>, id: int, k: int)
    ensures OursIn(cars, id) == None <==> !Names(cars, id)
    ensures LastOf(cars, id, k) ==> Names(cars, id) && OursIn(cars, id) == Some(cars[k].car)
  {
    if cars != [] {
      OursSays(cars[..|cars| - 1], id, k);
      NamesSplits(cars, id);
      if LastOf(cars, id, k) {
        LastOfSplits(cars, id, k);
      }
    }
  }

  // ---- the multiplier -------------------------------------------------------------------

  predicate StillIn(c: CarSeen) {
    c.eliminatedOrder == 0 && !c.car.eliminated
  }

  ghost predicate FewIn(cars: seq<CarSeen>) {
    forall i, j | 0 <= i < j < |cars| :: !(StillIn(cars[i]) && StillIn(cars[j]))
  }

  // Car f is in and nobody who is in is further along.
  ghost predicate FirstIn(cars: seq<CarSeen>, f: int) {
    0 <= f < |cars| && StillIn(cars[f]) && forall j | 0 <= j < |cars| && StillIn(cars[j]) :: cars[j].car.distance <= cars[f].car.distance
  }

  ghost predicate LastIn(cars: seq<CarSeen>, l: int) {
    0 <= l < |cars| && StillIn(cars[l]) && forall j | 0 <= j < |cars| && StillIn(cars[j]) :: cars[l].car.distance <= cars[j].car.distance
  }

  ghost predicate OwnIn(cars: seq<CarSeen>, id: int, k: int) {
    && 0 <= k < |cars| && StillIn(cars[k]) && cars[k].car.playerId == id
    && forall j | k < j < |cars| && StillIn(cars[j]) :: cars[j].car.playerId != id
  }

  // The rubber band: kept while fewer than two are in, else by where our car is between
  // the first and the last.
  ghost predicate MultiplierSays(m: real, kept: real, cars: seq<CarSeen>, id: int, p: RaceParams) {
    && (FewIn(cars) ==> m == kept)
    && (!FewIn(cars) ==>
          forall f, l, k | FirstIn(cars, f) && LastIn(cars, l) && OwnIn(cars, id, k) && -FAR < cars[l].car.distance && cars[f].car.distance < FAR ::
            BandSays(m, cars[k].car.distance, cars[f].car.distance, cars[l].car.distance, p))
  }

  lemma {:induction false} CountInFew(cars: seq<CarSeen>)
    ensures CountIn(RecordsOf(cars)) == 0 <==> forall i | 0 <= i < |cars| :: !StillIn(cars[i])
    ensures CountIn(RecordsOf(cars)) < 2 <==> FewIn(cars)
  {
    if cars != [] {
      var front := cars[..|cars| - 1];
      CountInFew(front);
      assert RecordsOf(cars)[..|cars| - 1] == RecordsOf(front);
      assert forall i | 0 <= i < |front| :: front[i] == cars[i];
      assert CarIn(RecordsOf(cars)[|cars| - 1]) == StillIn(cars[|cars| - 1]);
      FewSplits(cars);
    }
  }

  lemma FewSplits(cars: seq<CarSeen>)
    requires cars != []
    ensures var front := cars[..|cars| - 1];
            FewIn(cars) <==> FewIn(front) && (StillIn(cars[|cars| - 1]) ==> forall i | 0 <= i < |front| :: !StillIn(front[i]))
  {
    var front := cars[..|cars| - 1];
    assert forall i | 0 <= i < |front| :: front[i] == cars[i];
  }

  lemma {:induction false} OwnFound(cars: seq<CarSeen>, id: int, k: int)
    requires OwnIn(cars, id, k)
    ensures Mine(RecordsOf(cars), id) == cars[k].car.distance
  {
    var front := cars[..|cars| - 1];
    assert RecordsOf(cars)[..|cars| - 1] == RecordsOf(front);
    if k < |cars| - 1 {
      OwnFound(front, id, k);
    }
  }

  lemma EndsFound(cars: seq<CarSeen>, f: int, l: int)
    requires FirstIn(cars, f) && LastIn(cars, l) && -FAR < cars[l].car.distance && cars[f].car.distance < FAR
    ensures Furthest(RecordsOf(cars)) == cars[f].car.distance && Nearest(RecordsOf(cars)) == cars[l].car.distance
  {
    hide Furthest, Nearest;
    var records := RecordsOf(cars);
    FurthestMeaning(records);
    NearestMeaning(records);
    assert forall i | 0 <= i < |records| :: CarIn(records[i]) == StillIn(cars[i]) && records[i].distance == cars[i].car.distance;
    assert CarIn(records[f]) && CarIn(records[l]);
  }

  lemma MultiplierIs(cars: seq<CarSeen>, id: int, kept: real, p: RaceParams)
    ensures MultiplierSays(ClientMultiplier(RecordsOf(cars), id, kept, p), kept, cars, id, p)
  {
    hide RecordsOf, CountIn, Mine, Furthest, Nearest, RechargeMultiplier, BandSays, StillIn;
    CountInFew(cars);
    forall f, l, k | FirstIn(cars, f) && LastIn(cars, l) && OwnIn(cars, id, k) && -FAR < cars[l].car.distance && cars[f].car.distance < FAR
      ensures !FewIn(cars) ==> BandSays(ClientMultiplier(RecordsOf(cars), id, kept, p), cars[k].car.distance, cars[f].car.distance, cars[l].car.distance, p)
    {
      OwnFound(cars, id, k);
      EndsFound(cars, f, l);
      BandIs(cars[k].car.distance, cars[f].car.distance, cars[l].car.distance, p);
    }
  }

  // ---- what the replay runs among -------------------------------------------------------

  // Our moment of the snapshot: our last record's input, or the tick before this one.
  ghost predicate MomentSays(base: nat, s: Session, cars: seq<CarSeen>) {
    && (!Names(cars, s.localId) ==> base == s.around.baseTick)
    && forall k | LastOf(cars, s.localId, k) ::
         base == if cars[k].car.lastInputTick != 0 then cars[k].car.lastInputTick else s.localTick - 1
  }

  // Everybody the snapshot names as it shows them, everybody else as last seen.
  ghost predicate Among(a: Surroundings, s: Session, cars: seq<CarSeen>) {
    && (forall id :: id in a.remotes <==> id in s.around.remotes || (id != s.localId && Names(cars, id)))
    && (forall id, k | id != s.localId && LastOf(cars, id, k) :: id in a.remotes && a.remotes[id] == cars[k].car)
    && (forall id | id in s.around.remotes && (id == s.localId || !Names(cars, id)) :: a.remotes[id] == s.around.remotes[id])
    && MomentSays(a.baseTick, s, cars) && MultiplierSays(a.multiplier, s.around.multiplier, cars, s.localId, s.rules)
  }

  lemma LooksAround(s: Session, cars: seq<CarSeen>)
    requires s.localTick > 0
    ensures Among(AroundIn(s, cars), s, cars)
  {
    hide ClientMultiplier, RecordsOf, Overlaid, OursIn, Names, MultiplierSays;
    var a := AroundIn(s, cars);
    MultiplierIs(cars, s.localId, s.around.multiplier, s.rules);
    forall id, k
      ensures id in a.remotes <==> id in s.around.remotes || (id != s.localId && Names(cars, id))
      ensures id != s.localId && LastOf(cars, id, k) ==> id in a.remotes && a.remotes[id] == cars[k].car
      ensures id in s.around.remotes && (id == s.localId || !Names(cars, id)) ==> a.remotes[id] == s.around.remotes[id]
    {
      OverlaidSays(s.around.remotes, cars, s.localId, id, k);
    }
    OursSays(cars, s.localId, 0);
    forall k | LastOf(cars, s.localId, k)
      ensures a.baseTick == if cars[k].car.lastInputTick != 0 then cars[k].car.lastInputTick else s.localTick - 1
    {
      OursSays(cars, s.localId, k);
    }
  }

  // ---- a snapshot taken -------------------------------------------------------------------

  // The car as the record shows it: everything a snapshot carries.
  ghost predicate ShownAs(c: CarSim, n: NetState, g: Geometry) {
    && c.position == n.position && c.rotation == n.rotation && c.velocity == n.velocity && c.angularVelocity == n.angularVelocity
    && c.distance == n.distance && c.section == n.trackSection && c.nitro == n.nitro && c.speed == g.length(n.velocity)
    && c.alive == n.alive && c.drifting == n.drifting && c.crashed == n.crashed && c.nitroActive == n.nitroActive
    && c.slipstream == n.slipstream && (c.ghostTimer > 0.0 <==> n.ghosted) && c.driftAngle == g.driftAngleDeg(n.rotation, n.velocity)
  }

  lemma AppliedShows(s: CarSim, n: NetState, g: Geometry)
    ensures ShownAs(ApplyNetState(s, n, g), n, g) && ApplyNetState(s, n, g).memory == s.memory
  {
  }

  // What every fresh snapshot leaves: its phase, the others it names exactly as it last
  // names them and nobody else, our moment and multiplier; nothing of who we are.
  lemma SnapshotSays(w: Physics, s: Session, snap: ClientSnapshot)
    requires |s.history| == RING && s.localTick > 0 && s.localId !in s.around.remotes
    requires !(s.haveSnapshot && snap.hostTick <= s.lastSnapshotTick)
    ensures var t := Processed(w, s, snap);
            && t.haveSnapshot && t.lastSnapshotTick == snap.hostTick && t.phase == snap.phase
            && t.active == (s.active && snap.phase != Lobby)
            && t.localId == s.localId && t.isHost == s.isHost && t.localTick == s.localTick && t.sent == s.sent && t.first == s.first
            && (forall id :: id in t.around.remotes <==> id != s.localId && Names(snap.cars, id))
            && (forall id, k | id in t.around.remotes && LastOf(snap.cars, id, k) :: t.around.remotes[id] == snap.cars[k].car)
            && MomentSays(t.around.baseTick, s, snap.cars)
            && MultiplierSays(t.around.multiplier, s.around.multiplier, snap.cars, s.localId, s.rules)
  {
    hide AroundIn, Processed, Kept, Present, Names, MomentSays, MultiplierSays;
    LooksAround(s, snap.cars);
    ProcessedHead(w, s, snap);
    var a := AroundIn(s, snap.cars);
    forall id
      ensures id in Kept(a.remotes, Present(snap.cars)) <==> id in a.remotes && Names(snap.cars, id)
      ensures id in Kept(a.remotes, Present(snap.cars)) ==> Kept(a.remotes, Present(snap.cars))[id] == a.remotes[id]
    {
      KeptNamed(a.remotes, snap.cars, id);
    }
  }

  lemma ProcessedHead(w: Physics, s: Session, snap: ClientSnapshot)
    requires |s.history| == RING && s.localTick > 0 && !(s.haveSnapshot && snap.hostTick <= s.lastSnapshotTick)
    ensures var t, a := Processed(w, s, snap), AroundIn(s, snap.cars);
            && t.haveSnapshot && t.lastSnapshotTick == snap.hostTick && t.phase == snap.phase
            && t.active == (s.active && snap.phase != Lobby)
            && t.localId == s.localId && t.isHost == s.isHost && t.localTick == s.localTick && t.sent == s.sent && t.first == s.first
            && t.around == a.(remotes := Kept(a.remotes, Present(snap.cars)))
  {
    hide AroundIn, OursIn, Corrected, Kept, Present;
    var t := Adopted(s, snap);
    match OursIn(snap.cars, s.localId)
    case None =>
    case Some(cs) => OnlyOurs(w, t, cs);
  }

  // Our record changes nothing but our car, its ring and its correction.
  lemma OnlyOurs(w: Physics, s: Session, cs: NetState)
    requires |s.history| == RING && s.localTick > 0
    ensures var t := Corrected(w, s, cs);
            t == s.(eliminated := t.eliminated, local := t.local, history := t.history, correction := t.correction)
  {
    hide Reconciled, ApplyNetState;
  }

  lemma KeptNamed(remotes: map<int, NetState>, cars: seq<CarSeen>, id: int)
    ensures id in Kept(remotes, Present(cars)) <==> id in remotes && Names(cars, id)
    ensures id in Kept(remotes, Present(cars)) ==> Kept(remotes, Present(cars))[id] == remotes[id]
  {
  }

  // A stale snapshot is as if it had not come.
  lemma StaleSays(w: Physics, s: Session, snap: ClientSnapshot)
    requires |s.history| == RING && s.localTick > 0 && s.haveSnapshot && snap.hostTick <= s.lastSnapshotTick
    ensures Processed(w, s, snap) == s
  {
  }

  // What it leaves of our own car when there is no replay: nothing without a record of
  // ours; the record's pose when that says we are out, or when it cannot be replayed onto.
  // The ring is left alone.
  lemma OwnCarSays(w: Physics, s: Session, snap: ClientSnapshot, k: int)
    requires |s.history| == RING && s.localTick > 0
    requires !(s.haveSnapshot && snap.hostTick <= s.lastSnapshotTick)
    ensures var t := Processed(w, s, snap);
            && (!Names(snap.cars, s.localId) ==> t.local == s.local && t.history == s.history && t.eliminated == s.eliminated && t.correction == s.correction)
            && (LastOf(snap.cars, s.localId, k) ==>
                  var cs := snap.cars[k].car;
                  && t.eliminated == cs.eliminated
                  && (cs.eliminated || !CanReplay(s.history, s.localTick - 1, snap.phase, cs.lastInputTick) ==>
                        t.history == s.history && ShownAs(t.local, cs, w.geometry) && t.local.memory == s.local.memory)
                  && t.correction == if cs.eliminated then s.correction else Minus(s.local.position, t.local.position))
  {
    hide AroundIn, OursIn, ReplayRing, ApplyNetState, ShownAs, CanReplay, Names;
    OursSays(snap.cars, s.localId, k);
    if LastOf(snap.cars, s.localId, k) {
      AppliedShows(s.local, snap.cars[k].car, w.geometry);
    }
  }

  // Taking a snapshot in any reachable client state is a fold over the inputs sent since:
  // when the slot of its tick T is intact, every slot from T on holds its own tick, and each
  // of them and our car are left with the host's fields laid over our state after T and
  // stepped through the inputs sent after T, among the cars of the snapshot.
  lemma ReplaysAmong(w: Physics, rules: RaceParams, idle: CarSim, events: seq<Sessions.Event>, snap: ClientSnapshot, k: nat)
    requires var s := Run(w, Fresh(rules, idle), events);
             && s.active && !s.isHost && !(s.haveSnapshot && snap.hostTick <= s.lastSnapshotTick)
             && LastOf(snap.cars, s.localId, k) && !snap.cars[k].car.eliminated
             && CanReplay(s.history, s.localTick, snap.phase, snap.cars[k].car.lastInputTick)
    ensures var s := Run(w, Fresh(rules, idle), events);
            var s' := s.(localTick := s.localTick + 1);
            exists around :: Among(around, s', snap.cars) && ReplayedAmong(w, s, Processed(w, s', snap), snap.cars[k].car, around)
  {
    hide Run, Stale, AroundIn, Among, Replayed, Processed;
    var s := Run(w, Fresh(rules, idle), events);
    assert !Stale(s, snap) by {
      FreshSnapshot(s, snap);
    }
    var s' := s.(localTick := s.localTick + 1);
    OursSays(snap.cars, s.localId, k);
    SnapshotReplaysInputs(w, rules, idle, events, snap, snap.cars[k].car);
    LooksAround(s', snap.cars);
    assert ReplayedAmong(w, s, Processed(w, s', snap), snap.cars[k].car, AroundIn(s', snap.cars));
  }

  lemma FreshSnapshot(s: Session, snap: ClientSnapshot)
    ensures Stale(s, snap) <==> s.haveSnapshot && snap.hostTick <= s.lastSnapshotTick
  {
  }

  ghost predicate ReplayedAmong(w: Physics, s: Session, t: Session, cs: NetState, around: Surroundings)
    requires |s.history| == RING && |t.history| == RING
  {
    var T, merged := cs.lastInputTick, ApplyNetState(s.history[Slot(cs.lastInputTick)].state, cs, w.geometry);
    && T <= s.localTick && (forall k: nat | T <= k <= s.localTick :: s.history[Slot(k)].tick == k)
    && t.local == Replayed(w, merged, SentAt(s), T, s.localTick, around)
    && t.correction == Minus(s.local.position, t.local.position)
    && forall k: nat | T <= k <= s.localTick ::
         t.history[Slot(k)] == Entry(k, s.history[Slot(k)].input, Replayed(w, merged, SentAt(s), T, k, around))
  }

  // ---- a client tick -----------------------------------------------------------------------

  // Only a car that is racing is steered: its driver's input, labelled with our tick.
  ghost predicate Sends(input: CarInput, raw: CarInput, steered: bool, tick: nat, carModel: nat) {
    && input.tick == tick && input.carModel == carModel
    && if steered then
         && input.steer == raw.steer && input.throttle == raw.throttle && input.brake == raw.brake
         && input.handbrake == raw.handbrake && input.nitro == raw.nitro
       else
         input.steer == 0.0 && input.throttle == 0.0 && input.brake == 0.0 && !input.handbrake && !input.nitro
  }

  // After the snapshot, if the match goes on: the input sent is the one our car is stepped
  // with, once, among the surroundings of the snapshot, and the one remembered; a car that
  // is out, or on the podium, is not stepped.
  lemma ClientTickSays(w: Physics, s: Session, raw: CarInput, carModel: nat, snap: Option<ClientSnapshot>)
    requires |s.history| == RING && s.localTick > 0
    ensures var u := match snap case None => s case Some(n) => Processed(w, s, n);
            var t := ClientTicked(w, s, raw, carModel, snap);
            && (!u.active ==> t == u)
            && (u.active ==>
                  && u.localTick in t.sent && t.sent == u.sent[u.localTick := t.sent[u.localTick]]
                  && Sends(t.sent[u.localTick], raw, u.phase == Racing && !u.eliminated, u.localTick, carModel)
                  && t.local == (if u.eliminated || u.phase == Results then u.local
                                 else w.step(u.local.(memory := u.local.memory.(nitroRechargeScale := u.around.multiplier)), t.sent[u.localTick], u.localTick, u.around))
                  && t == u.(local := t.local, sent := t.sent, history := u.history[Slot(u.localTick) := Entry(u.localTick, t.sent[u.localTick], t.local)]))
  {
    hide Processed, Slot;
  }

  // ---- what comes from outside ---------------------------------------------------------------

  // The ring remembers its slots but no tick.
  ghost predicate Forgotten(ring: seq<Entry>, was: seq<Entry>) {
    |ring| == |was| && forall i | 0 <= i < |was| :: ring[i] == Entry(0, was[i].input, was[i].state)
  }

  // No snapshot has been seen: whatever its number, the next one counts.
  ghost predicate Listens(s: Session) {
    forall snap: ClientSnapshot :: !Stale(s, snap)
  }

  // A match that begins: a client drives from its spawn at the plain recharge rate, among
  // the cars on the grid and from this tick on; a host keeps its car and follows nobody.
  // Only the echo of our own start changes nothing.
  lemma BeginningSays(w: Physics, s: Session, weAreHost: bool, grid: GridStart, sameMatch: bool)
    requires |s.history| == RING
    ensures var t := Sessions.After(w, s, Sessions.BeginMatch(weAreHost, grid, sameMatch));
            if s.active && sameMatch && weAreHost == s.isHost then t == s
            else
              && t.active && t.isHost == weAreHost && t.localId == grid.localId && t.phase == Countdown
              && t.localTick == s.localTick && t.sent == s.sent && t.rules == s.rules && t.first == s.localTick + 1
              && Forgotten(t.history, s.history) && Listens(t) && !t.eliminated && t.correction == Vec3(0.0, 0.0, 0.0)
              && t.around.multiplier == 1.0 && t.around.baseTick == s.localTick
              && (if weAreHost then t.around.remotes == map[] && t.local == s.local else t.around.remotes == grid.others && t.local == grid.spawn)
  {
    hide Slot;
  }

  // Leaving a match, a changed roster, an announced phase: each changes its own part. Of
  // the remotes exactly those kept stay, each as it was.
  lemma NoticesSay(w: Physics, s: Session, keep: set<int>, phase: MatchPhase)
    requires |s.history| == RING
    ensures var t := Sessions.After(w, s, Sessions.End);
            !t.active && t.phase == Lobby && t == s.(active := false, phase := Lobby, around := t.around) && t.around == s.around.(remotes := map[])
    ensures var t := Sessions.After(w, s, Roster(keep));
            && t == s.(around := s.around.(remotes := t.around.remotes))
            && (forall id :: id in t.around.remotes <==> id in s.around.remotes && id in keep)
            && (forall id | id in t.around.remotes :: t.around.remotes[id] == s.around.remotes[id])
    ensures var t := Sessions.After(w, s, PhaseChanged(phase));
            t == s.(phase := t.phase) && t.phase == (if s.active && !s.isHost then phase else s.phase)
  {
    hide Slot;
  }

  // A role that changes: a client promoted leaves the remotes to its own host; a host
  // relieved predicts on from the car it hosted, remembered under this tick alone, among
  // the cars it hosted; under any other host the next snapshot counts whatever its number.
  lemma RolesSay(w: Physics, s: Session, weAreHost: bool, was: HostView)
    requires |s.history| == RING
    ensures var t := Sessions.After(w, s, HostChange(weAreHost, was));
            && t.isHost == weAreHost && t.active == s.active && t.localTick == s.localTick && t.phase == s.phase && t.sent == s.sent
            && (s.active && !weAreHost ==> Listens(t))
            && (s.active && weAreHost && !s.isHost ==> t.around == s.around.(remotes := map[]) && t.correction == Vec3(0.0, 0.0, 0.0) && t.local == s.local)
            && (s.active && !weAreHost && s.isHost ==>
                  && t.local == was.ours && t.eliminated == was.out && t.first == s.localTick
                  && t.around == Surroundings(s.around.multiplier, was.others, s.localTick)
                  && t.history[s.localTick % RING].tick == s.localTick && t.history[s.localTick % RING].state == was.ours
                  && forall i | 0 <= i < RING && i != s.localTick % RING :: t.history[i].tick == 0)
            && (!s.active || weAreHost == s.isHost ==> t.local == s.local && t.history == s.history && t.around == s.around && t.first == s.first)
  {
  }

  // Every role counts its own ticks; a host takes its phase from its own tick, and the lobby
  // ends the match for both.
  lemma TicksSay(w: Physics, s: Session, raw: CarInput, carModel: nat, snap: Option<ClientSnapshot>, hostPhase: MatchPhase)
    requires |s.history| == RING
    ensures var t := Sessions.After(w, s, Sessions.Tick(raw, carModel, snap, hostPhase));
            && (!s.active ==> t == s)
            && (s.active && s.isHost ==> t == s.(localTick := s.localTick + 1, phase := hostPhase, active := hostPhase != Lobby))
            && (s.active && !s.isHost ==> t == ClientTicked(w, s.(localTick := s.localTick + 1), raw, carModel, snap))
  {
    hide ClientTicked;
  }
}
