/** A peer's session over any run: matches, role changes, snapshots and predicted ticks. */
module Sessions {
  import opened Basics
  import opened CarStates
  import opened Prediction
  import opened RaceRules
  import opened SharedFacts
  import opened Snapshots
  import opened Vectors

  // A car of a snapshot with its elimination order.
  datatype CarSeen = CarSeen(car: NetState, eliminatedOrder: nat)

  datatype ClientSnapshot = ClientSnapshot(hostTick: nat, phase: MatchPhase, cars: seq<CarSeen>)

  // first and sent are not kept by the session: the first tick of the current stretch of
  // prediction, and every input sent.
  datatype Session = Session(
    rules: RaceParams, localId: int,
    active: bool, isHost: bool, localTick: nat, phase: MatchPhase, local: CarSim, history: seq<Entry>,
    around: Surroundings, eliminated: bool, haveSnapshot: bool, lastSnapshotTick: nat, correction: Vec3,
    first: nat, sent: map<nat, CarInput>)

  function Cleared(ring: seq<Entry>): seq<Entry> {
    seq(|ring|, i requires 0 <= i < |ring| => ring[i].(tick := 0))
  }

  const NOBODY := Surroundings(1.0, map[], 0)

  function Fresh(rules: RaceParams, idle: CarSim): Session {
    Session(rules, 0, false, false, 0, Lobby, idle, seq(RING, _ => Entry(0, HoldInput(0), idle)), NOBODY, false, false, 0, ORIGIN, 1, map[])
  }

  // Where everybody stands on the grid.
  datatype GridStart = GridStart(localId: int, spawn: CarSim, others: map<int, NetState>)

  // A new match; localTick goes on counting. The echo of our own start is ignored.
  function Begun(s: Session, weAreHost: bool, grid: GridStart, sameMatch: bool): Session {
    if s.active && sameMatch && weAreHost == s.isHost then s
    else s.(localId := grid.localId, active := true, isHost := weAreHost, phase := Countdown, history := Cleared(s.history),
            correction := ORIGIN, haveSnapshot := false, lastSnapshotTick := 0, eliminated := false,
            around := Surroundings(1.0, if weAreHost then map[] else grid.others, s.localTick),
            local := if weAreHost then s.local else grid.spawn, first := s.localTick + 1)
  }

  function Ended(s: Session): Session {
    s.(active := false, phase := Lobby, around := s.around.(remotes := map[]))
  }

  function Kept(remotes: map<int, NetState>, keep: set<int>): map<int, NetState> {
    map id | id in remotes && id in keep :: remotes[id]
  }

  // Players left: nobody goes on colliding with their cars.
  function RosterChanged(s: Session, keep: set<int>): Session {
    s.(around := s.around.(remotes := Kept(s.around.remotes, keep)))
  }

  // A phase the host announces, apart from its snapshots.
  function Announced(s: Session, phase: MatchPhase): Session {
    if s.isHost || !s.active then s else s.(phase := phase)
  }

  // Host to client: prediction starts afresh from our authoritative car, among the others'.
  function AsClient(s: Session, was: HostView): Session
    requires |s.history| == RING
  {
    s.(isHost := false, local := was.ours, eliminated := was.out,
       history := Cleared(s.history)[Slot(s.localTick) := Entry(s.localTick, HoldInput(s.localTick), was.ours)],
       around := s.around.(remotes := was.others, baseTick := s.localTick),
       lastSnapshotTick := 0, haveSnapshot := false, first := s.localTick)
  }

  // What a host knows when it is relieved: its own car, whether that is out, and the others.
  datatype HostView = HostView(ours: CarSim, out: bool, others: map<int, NetState>)

  function HostChanged(s: Session, weAreHost: bool, was: HostView): Session
    requires |s.history| == RING
  {
    if !s.active then s.(isHost := weAreHost)
    else if weAreHost && !s.isHost then s.(isHost := true, correction := ORIGIN, around := s.around.(remotes := map[]))
    else if !weAreHost && s.isHost then AsClient(s, was)
    else if !weAreHost then s.(lastSnapshotTick := 0, haveSnapshot := false)
    else s
  }

  // ---- what a snapshot says of the cars around ours -------------------------------

  // Our own record: the last one of our id.
  function OursIn(cars: seq<CarSeen>, id: int): Option<NetState> {
    if cars == [] then None
    else
      var c := cars[|cars| - 1].car;
      if c.playerId == id then Some(c) else OursIn(cars[..|cars| - 1], id)
  }

  // The newest records of everybody else, over what was known.
  function Overlaid(remotes: map<int, NetState>, cars: seq<CarSeen>, id: int): map<int, NetState> {
    if cars == [] then remotes
    else
      var c := cars[|cars| - 1].car;
      var before := Overlaid(remotes, cars[..|cars| - 1], id);
      if c.playerId == id then before else before[c.playerId := c]
  }

  function RecordsOf(cars: seq<CarSeen>): seq<CarRecord> {
    seq(|cars|, i requires 0 <= i < |cars| =>
      CarRecord(cars[i].car.playerId, cars[i].car.distance, cars[i].eliminatedOrder, 0, cars[i].car.eliminated))
  }

  // Our moment of the snapshot, in our own ticks.
  function BaseTick(s: Session, cars: seq<CarSeen>): nat
    requires s.localTick > 0
  {
    match OursIn(cars, s.localId)
    case None => s.around.baseTick
    case Some(cs) => if cs.lastInputTick != 0 then cs.lastInputTick else s.localTick - 1
  }

  // What the replay runs against: cars the snapshot no longer names are dropped only after it.
  function AroundIn(s: Session, cars: seq<CarSeen>): Surroundings
    requires s.localTick > 0
  {
    Surroundings(ClientMultiplier(RecordsOf(cars), s.localId, s.around.multiplier, s.rules),
                 Overlaid(s.around.remotes, cars, s.localId), BaseTick(s, cars))
  }

  function Present(cars: seq<CarSeen>): set<int> {
    set i | 0 <= i < |cars| :: cars[i].car.playerId
  }

  // Our car against the host's record of it.
  function Corrected(w: Physics, s: Session, cs: NetState): Session
    requires |s.history| == RING && s.localTick > 0
  {
    if cs.eliminated then s.(eliminated := true, local := ApplyNetState(s.local, cs, w.geometry))
    else
      var (ring, local) := Reconciled(w, s.history, s.local, s.localTick - 1, s.phase, cs, s.around);
      s.(eliminated := false, history := ring, local := local, correction := Minus(s.local.position, local.position))
  }

  function Stale(s: Session, snap: ClientSnapshot): bool {
    s.haveSnapshot && snap.hostTick <= s.lastSnapshotTick
  }

  // One host snapshot: stale ones are dropped; phase and surroundings come first, then our car.
  function Processed(w: Physics, s: Session, snap: ClientSnapshot): (t: Session)
    requires |s.history| == RING && s.localTick > 0
    ensures |t.history| == RING
  {
    if Stale(s, snap) then s
    else
      var t := Adopted(s, snap);
      Concluded(match OursIn(snap.cars, s.localId) case None => t case Some(cs) => Corrected(w, t, cs), snap)
  }

  function Adopted(s: Session, snap: ClientSnapshot): Session
    requires s.localTick > 0
  {
    s.(lastSnapshotTick := snap.hostTick, haveSnapshot := true, phase := snap.phase, around := AroundIn(s, snap.cars))
  }

  function Concluded(s: Session, snap: ClientSnapshot): Session {
    s.(active := s.active && snap.phase != Lobby, around := s.around.(remotes := Kept(s.around.remotes, Present(snap.cars))))
  }

  // Exactly the input that is predicted with is sent.
  function InputFor(s: Session, raw: CarInput, carModel: nat): CarInput {
    (if s.phase == Racing && !s.eliminated then raw else HoldInput(s.localTick)).(tick := s.localTick, carModel := carModel)
  }

  function Predicted(w: Physics, s: Session, input: CarInput): Session
    requires |s.history| == RING
  {
    var local := if s.eliminated || s.phase == Results then s.local else PredictStep(w, s.local, input, s.localTick, s.around);
    s.(local := local, sent := s.sent[s.localTick := input], history := s.history[Slot(s.localTick) := Entry(s.localTick, input, local)])
  }

  function ClientTicked(w: Physics, s: Session, raw: CarInput, carModel: nat, snap: Option<ClientSnapshot>): Session
    requires |s.history| == RING && s.localTick > 0
  {
    var t := match snap case None => s case Some(n) => Processed(w, s, n);
    if t.active then Predicted(w, t, InputFor(t, raw, carModel)) else t
  }

  // Every role counts its own ticks; hostPhase is the phase a host's own tick leaves.
  function Ticked(w: Physics, s: Session, raw: CarInput, carModel: nat, snap: Option<ClientSnapshot>, hostPhase: MatchPhase): Session
    requires |s.history| == RING
  {
    if !s.active then s
    else
      var t := s.(localTick := s.localTick + 1);
      if t.isHost then t.(phase := hostPhase, active := hostPhase != Lobby) else ClientTicked(w, t, raw, carModel, snap)
  }

  class PredictingSession {
    const w: Physics
    const rules: RaceParams
    var localId: int
    var active: bool
    var isHost: bool
    var localTick: nat
    var phase: MatchPhase
    var local: CarSim
    const history: array<Entry>
    var around: Surroundings
    var eliminated: bool
    var haveSnapshot: bool
    var lastSnapshotTick: nat
    var correction: Vec3
    ghost var first: nat
    ghost var sent: map<nat, CarInput>

    ghost function State(): Session
      reads this, history
    {
      Session(rules, localId, active, isHost, localTick, phase, local, history[..], around, eliminated, haveSnapshot, lastSnapshotTick, correction, first, sent)
    }

    constructor (w: Physics, rules: RaceParams, idle: CarSim)
      ensures fresh(history) && history.Length == RING && this.w == w && State() == Fresh(rules, idle)
    {
      this.w, this.rules := w, rules;
      localId, active, isHost, localTick, phase, local := 0, false, false, 0, Lobby, idle;
      history := new Entry[RING](_ => Entry(0, HoldInput(0), idle));
      around, eliminated, haveSnapshot, lastSnapshotTick, correction := NOBODY, false, false, 0, ORIGIN;
      first, sent := 1, map[];
      new;
      assert history[..] == Fresh(rules, idle).history;
    }

    method ClearRing()
      modifies history
      ensures history[..] == Cleared(old(history[..]))
    {
      for i := 0 to history.Length
        invariant forall j | 0 <= j < history.Length :: history[j] == if j < i then old(history[j]).(tick := 0) else old(history[j])
      {
        history[i] := history[i].(tick := 0);
      }
    }

    method BeginMatch(weAreHost: bool, grid: GridStart, sameMatch: bool)
      modifies this, history
      ensures State() == Begun(old(State()), weAreHost, grid, sameMatch)
    {
      hide Cleared;
      if active && sameMatch && weAreHost == isHost {
        return;
      }
      ClearRing();
      EnterMatch(weAreHost, grid);
    }

    method EnterMatch(weAreHost: bool, grid: GridStart)
      modifies this
      ensures active && isHost == weAreHost && localId == grid.localId && phase == Countdown && correction == ORIGIN
      ensures !haveSnapshot && lastSnapshotTick == 0 && !eliminated && first == localTick + 1
      ensures around == Surroundings(1.0, if weAreHost then map[] else grid.others, localTick)
      ensures local == (if weAreHost then old(local) else grid.spawn)
      ensures localTick == old(localTick) && sent == old(sent)
    {
      active, isHost, localId, phase := true, weAreHost, grid.localId, Countdown;
      correction, haveSnapshot, lastSnapshotTick, eliminated := ORIGIN, false, 0, false;
      around := Surroundings(1.0, if weAreHost then map[] else grid.others, localTick);
      first := localTick + 1;
      if !weAreHost {
        local := grid.spawn;
      }
    }

    method End()
      modifies this`active, this`phase, this`around
      ensures State() == Ended(old(State()))
    {
      active, phase := false, Lobby;
      around := around.(remotes := map[]);
    }

    method OnRosterChanged(keep: set<int>)
      modifies this`around
      ensures State() == RosterChanged(old(State()), keep)
    {
      DropRemotes(keep);
    }

    // Erase the remotes that are not to be kept.
    method DropRemotes(keep: set<int>)
      modifies this`around
      ensures State() == old(State()).(around := old(around).(remotes := Kept(old(around).remotes, keep)))
    {
      around := around.(remotes := map id | id in around.remotes && id in keep :: around.remotes[id]);
    }

    method OnPhaseChanged(p: MatchPhase)
      modifies this`phase
      ensures State() == Announced(old(State()), p)
    {
      if isHost || !active {
        return;
      }
      if p != phase {
        phase := p;
      }
    }

    method OnHostChanged(weAreHost: bool, was: HostView)
      requires history.Length == RING
      modifies this, history
      ensures State() == HostChanged(old(State()), weAreHost, was)
    {
      hide Cleared;
      if !active {
        isHost := weAreHost;
      } else if weAreHost && !isHost {
        isHost := true;
        correction, around := ORIGIN, around.(remotes := map[]);
      } else if !weAreHost && isHost {
        isHost, local, eliminated := false, was.ours, was.out;
        around := around.(remotes := was.others, baseTick := localTick);
        ClearRing();
        history[Slot(localTick)] := Entry(localTick, HoldInput(localTick), local);
        first := localTick;
        lastSnapshotTick, haveSnapshot := 0, false;
      } else if !weAreHost {
        lastSnapshotTick, haveSnapshot := 0, false;
      }
    }

    // Rewind to the slot of cs.lastInputTick, take over the host's fields and replay the
    // inputs sent since; or just take over the host's fields.
    method Reconcile(cs: NetState)
      requires history.Length == RING && localTick > 0
      modifies this`local, this`correction, history
      ensures (history[..], local) == Reconciled(w, old(history[..]), old(local), localTick - 1, phase, cs, around)
      ensures correction == Minus(old(local).position, local.position)
    {
      hide Slot, PredictStep, ApplyNetState, ReplayRing;
      var newest, T, before := localTick - 1, cs.lastInputTick, local;
      ghost var ring := history[..];
      if !CanReplay(history[..], newest, phase, T) {
        local := ApplyNetState(local, cs, w.geometry);
      } else {
        var corrected := ApplyNetState(history[Slot(T)].state, cs, w.geometry);
        ghost var merged := corrected;
        history[Slot(T)] := history[Slot(T)].(state := corrected);
        ReplayStart(w, ring, T, merged, around);
        assert history[..] == ring[Slot(T) := ring[Slot(T)].(state := merged)];
        var t := T + 1;
        while t <= newest
          invariant T < t <= newest + 1
          invariant (history[..], corrected) == ReplayRing(w, ring, T, merged, t - 1, around)
        {
          ghost var done := history[..];
          ReplayMore(w, ring, T, merged, t, around);
          corrected := PredictStep(w, corrected, history[Slot(t)].input, t, around);
          history[Slot(t)] := history[Slot(t)].(state := corrected);
          assert history[..] == done[Slot(t) := done[Slot(t)].(state := corrected)];
          t := t + 1;
        }
        local := corrected;
      }
      correction := Minus(before.position, local.position);
    }

    // Read the multiplier, our moment and the others' cars out of a snapshot's cars.
    method LookAround(cars: seq<CarSeen>) returns (ours: Option<NetState>)
      requires localTick > 0
      modifies this`around
      ensures State() == old(State()).(around := AroundIn(old(State()), cars)) && ours == OursIn(cars, localId)
    {
      hide ClientMultiplier;
      var multiplier := ClientMultiplier(RecordsOf(cars), localId, around.multiplier, rules);
      var remotes := around.remotes;
      ours := None;
      for i := 0 to |cars|
        invariant ours == OursIn(cars[..i], localId) && remotes == Overlaid(around.remotes, cars[..i], localId)
      {
        assert cars[..i + 1][..i] == cars[..i];
        var c := cars[i].car;
        if c.playerId == localId {
          ours := Some(c);
        } else {
          remotes := remotes[c.playerId := c];
        }
      }
      assert cars[..|cars|] == cars;
      var baseTick := match ours case None => around.baseTick case Some(cs) => if cs.lastInputTick != 0 then cs.lastInputTick else localTick - 1;
      around := Surroundings(multiplier, remotes, baseTick);
    }

    // Out of the race we only watch our car.
    method TakeOurs(cs: NetState)
      requires history.Length == RING && localTick > 0
      modifies this`eliminated, this`local, this`correction, history
      ensures State() == Corrected(w, old(State()), cs)
    {
      hide Reconciled, ApplyNetState;
      eliminated := cs.eliminated;
      if cs.eliminated {
        local := ApplyNetState(local, cs, w.geometry);
      } else {
        Reconcile(cs);
      }
    }

    method ProcessSnapshot(snap: ClientSnapshot)
      requires history.Length == RING && localTick > 0
      modifies this, history
      ensures State() == Processed(w, old(State()), snap)
    {
      hide Corrected, AroundIn, OursIn, Kept, Present;
      if haveSnapshot && snap.hostTick <= lastSnapshotTick {
        return;
      }
      var ours := Adopt(snap);
      TakeIn(ours);
      Conclude(snap);
    }

    // The snapshot's phase and surroundings are ours from here on.
    method Adopt(snap: ClientSnapshot) returns (ours: Option<NetState>)
      requires localTick > 0
      modifies this`lastSnapshotTick, this`haveSnapshot, this`phase, this`around
      ensures State() == Adopted(old(State()), snap) && ours == OursIn(snap.cars, localId)
    {
      hide AroundIn, OursIn;
      ours := LookAround(snap.cars);
      lastSnapshotTick, haveSnapshot, phase := snap.hostTick, true, snap.phase;
    }

    // Cars the snapshot does not name are gone; a lobby ends the match.
    method Conclude(snap: ClientSnapshot)
      modifies this`around, this`active
      ensures State() == Concluded(old(State()), snap)
    {
      hide Kept, Present;
      DropRemotes(Present(snap.cars));
      if snap.phase == Lobby {
        active := false;
      }
    }

    method TakeIn(ours: Option<NetState>)
      requires history.Length == RING && localTick > 0
      modifies this`eliminated, this`local, this`correction, history
      ensures State() == match ours case None => old(State()) case Some(cs) => Corrected(w, old(State()), cs)
    {
      hide Corrected;
      match ours {
        case None =>
        case Some(cs) => TakeOurs(cs);
      }
    }

    // The newest snapshot first, then predict this tick and remember it.
    method ClientTick(raw: CarInput, carModel: nat, snap: Option<ClientSnapshot>)
      requires history.Length == RING && localTick > 0
      modifies this, history
      ensures State() == ClientTicked(w, old(State()), raw, carModel, snap)
    {
      hide Slot, PredictStep, Processed;
      match snap {
        case None =>
        case Some(s) => ProcessSnapshot(s);
      }
      if !active {
        return;
      }
      var input := (if phase == Racing && !eliminated then raw else HoldInput(localTick)).(tick := localTick, carModel := carModel);
      sent := sent[localTick := input];
      if !eliminated && phase != Results {
        local := PredictStep(w, local, input, localTick, around);
      }
      ghost var ring := history[..];
      history[Slot(localTick)] := Entry(localTick, input, local);
      assert history[..] == ring[Slot(localTick) := history[Slot(localTick)]];
    }

    method Tick(raw: CarInput, carModel: nat, snap: Option<ClientSnapshot>, hostPhase: MatchPhase)
      requires history.Length == RING
      modifies this, history
      ensures State() == Ticked(w, old(State()), raw, carModel, snap, hostPhase)
    {
      hide ClientTicked;
      if !active {
        return;
      }
      localTick := localTick + 1;
      if isHost {
        phase := hostPhase;
        if hostPhase == Lobby {
          active := false;
        }
      } else {
        ClientTick(raw, carModel, snap);
      }
    }
  }

  // ---- every run ----------------------------------------------------------------

  datatype Event =
    | BeginMatch(weAreHost: bool, grid: GridStart, sameMatch: bool)
    | End
    | Roster(keep: set<int>)
    | PhaseChanged(phase: MatchPhase)
    | HostChange(weAreHost: bool, was: HostView)
    | Tick(raw: CarInput, carModel: nat, snap: Option<ClientSnapshot>, hostPhase: MatchPhase)

  function After(w: Physics, s: Session, e: Event): (t: Session)
    requires |s.history| == RING
    ensures |t.history| == RING
  {
    match e
    case BeginMatch(weAreHost, grid, sameMatch) => Begun(s, weAreHost, grid, sameMatch)
    case End => Ended(s)
    case Roster(keep) => RosterChanged(s, keep)
    case PhaseChanged(phase) => Announced(s, phase)
    case HostChange(weAreHost, was) => HostChanged(s, weAreHost, was)
    case Tick(raw, carModel, snap, hostPhase) => Ticked(w, s, raw, carModel, snap, hostPhase)
  }

  function Run(w: Physics, s: Session, events: seq<Event>): (t: Session)
    requires |s.history| == RING
    ensures |t.history| == RING
  {
    if events == [] then s else After(w, Run(w, s, events[..|events| - 1]), events[|events| - 1])
  }

  // The ring holds the stretch from first to newest and nothing else, each tick with the
  // input that was sent for it.
  ghost predicate Tracks(s: Session, newest: nat) {
    && |s.history| == RING && RingHolds(s.history, s.first, newest)
    && forall t: nat | s.first < t <= newest && newest - t < RING :: t in s.sent && s.history[Slot(t)].input == s.sent[t]
  }

  ghost predicate SessionOk(s: Session) {
    |s.history| == RING && (s.active && !s.isHost ==> s.first <= s.localTick + 1 && Tracks(s, s.localTick))
  }

  lemma ClearedHoldsNothing(ring: seq<Entry>, newest: nat)
    requires |ring| == RING
    ensures RingHolds(Cleared(ring), newest + 1, newest)
  {
  }

  lemma BeginTracks(s: Session, weAreHost: bool, grid: GridStart, sameMatch: bool)
    requires SessionOk(s)
    ensures SessionOk(Begun(s, weAreHost, grid, sameMatch))
  {
    hide Slot, Cleared;
    ClearedHoldsNothing(s.history, s.localTick);
  }

  lemma AsClientTracks(s: Session, was: HostView)
    requires |s.history| == RING
    ensures SessionOk(AsClient(s, was))
  {
  }

  lemma CorrectedTracks(w: Physics, s: Session, cs: NetState)
    requires s.localTick > 0 && Tracks(s, s.localTick - 1)
    ensures Tracks(Corrected(w, s, cs), s.localTick - 1)
  {
    hide Slot, RingHolds, ReplayRing, CanReplay, ApplyNetState;
    if !cs.eliminated {
      RingKeepsTicks(s.history, Corrected(w, s, cs).history, s.first, s.localTick - 1);
    }
  }

  lemma PredictedTracks(w: Physics, s: Session, input: CarInput)
    requires s.localTick > 0 && s.first <= s.localTick && Tracks(s, s.localTick - 1)
    ensures Tracks(Predicted(w, s, input), s.localTick)
  {
    hide Slot, RingHolds, PredictStep;
    var t := Predicted(w, s, input);
    RingExtends(s.history, s.first, s.localTick - 1, t.history[Slot(s.localTick)]);
  }

  lemma ClientTickTracks(w: Physics, s: Session, raw: CarInput, carModel: nat, snap: Option<ClientSnapshot>)
    requires s.localTick > 0 && s.first <= s.localTick && Tracks(s, s.localTick - 1) && !s.isHost
    ensures SessionOk(ClientTicked(w, s, raw, carModel, snap))
  {
    hide Slot, RingHolds, Predicted, Corrected, InputFor, AroundIn, OursIn;
    var t := match snap case None => s case Some(n) => Processed(w, s, n);
    if snap.Some? && !Stale(s, snap.value) && OursIn(snap.value.cars, s.localId).Some? {
      CorrectedKeeps(w, s, snap.value);
    }
    if t.active {
      PredictedKeeps(w, t, InputFor(t, raw, carModel));
      PredictedTracks(w, t, InputFor(t, raw, carModel));
    }
  }

  lemma CorrectedKeeps(w: Physics, s: Session, snap: ClientSnapshot)
    requires s.localTick > 0 && Tracks(s, s.localTick - 1) && !Stale(s, snap) && OursIn(snap.cars, s.localId).Some?
    ensures var t := Processed(w, s, snap);
            t.localTick == s.localTick && t.first == s.first && t.isHost == s.isHost && Tracks(t, s.localTick - 1)
  {
    hide Slot, RingHolds, Reconciled, ApplyNetState, AroundIn, OursIn;
    var t := s.(lastSnapshotTick := snap.hostTick, haveSnapshot := true, phase := snap.phase, around := AroundIn(s, snap.cars));
    CorrectedTracks(w, t, OursIn(snap.cars, s.localId).value);
  }

  lemma PredictedKeeps(w: Physics, s: Session, input: CarInput)
    requires |s.history| == RING
    ensures var t := Predicted(w, s, input);
            t.localTick == s.localTick && t.first == s.first && t.isHost == s.isHost && |t.history| == RING
  {
  }

  lemma AfterOk(w: Physics, s: Session, e: Event)
    requires SessionOk(s)
    ensures SessionOk(After(w, s, e))
  {
    hide Slot, RingHolds, ClientTicked, Cleared;
    match e
    case BeginMatch(weAreHost, grid, sameMatch) => BeginTracks(s, weAreHost, grid, sameMatch);
    case End =>
    case Roster(keep) =>
    case PhaseChanged(phase) =>
    case HostChange(weAreHost, was) => AsClientTracks(s, was);
    case Tick(raw, carModel, snap, hostPhase) =>
      if s.active && !s.isHost {
        ClientTickTracks(w, s.(localTick := s.localTick + 1), raw, carModel, snap);
      }
  }

  // In every reachable state of a client, through match restarts and role changes, the
  // ring holds its stretch of prediction tick by tick with the inputs that were sent.
  lemma {:induction false} RunTracks(w: Physics, rules: RaceParams, idle: CarSim, events: seq<Event>)
    ensures SessionOk(Run(w, Fresh(rules, idle), events))
  {
    hide Slot, After, SessionOk;
    if events == [] {
      FreshOk(rules, idle);
    } else {
      RunTracks(w, rules, idle, events[..|events| - 1]);
      AfterOk(w, Run(w, Fresh(rules, idle), events[..|events| - 1]), events[|events| - 1]);
    }
  }

  lemma FreshOk(rules: RaceParams, idle: CarSim)
    ensures SessionOk(Fresh(rules, idle))
  {
  }

  ghost function SentAt(s: Session): nat -> CarInput {
    (t: nat) => if t in s.sent then s.sent[t] else HoldInput(t)
  }

  // Taking a snapshot in any reachable client state is a fold over the inputs sent since:
  // when the slot of its tick T is intact, every slot from T on holds its own tick, and each
  // of them and our car are left with the host's fields laid over our state after T and
  // stepped through the inputs sent after T, among the cars of the snapshot.
  lemma SnapshotReplaysInputs(w: Physics, rules: RaceParams, idle: CarSim, events: seq<Event>, snap: ClientSnapshot, cs: NetState)
    requires var s := Run(w, Fresh(rules, idle), events);
             && s.active && !s.isHost && !Stale(s, snap) && OursIn(snap.cars, s.localId) == Some(cs) && !cs.eliminated
             && CanReplay(s.history, s.localTick, snap.phase, cs.lastInputTick)
    ensures var s := Run(w, Fresh(rules, idle), events);
            var s' := s.(localTick := s.localTick + 1);
            var T, merged, around := cs.lastInputTick, ApplyNetState(s.history[Slot(cs.lastInputTick)].state, cs, w.geometry), AroundIn(s', snap.cars);
            var t := Processed(w, s', snap);
            && (forall k: nat | T <= k <= s.localTick :: s.history[Slot(k)].tick == k)
            && t.local == Replayed(w, merged, SentAt(s), T, s.localTick, around)
            && t.correction == Minus(s.local.position, t.local.position)
            && forall k: nat | T <= k <= s.localTick ::
                 t.history[Slot(k)] == Entry(k, s.history[Slot(k)].input, Replayed(w, merged, SentAt(s), T, k, around))
  {
    hide Slot, ApplyNetState, CanReplay, Reconciled, Run, Replayed, AroundIn, OursIn, Kept;
    RunTracks(w, rules, idle, events);
    var s := Run(w, Fresh(rules, idle), events);
    var around := AroundIn(s.(localTick := s.localTick + 1), snap.cars);
    WindowIntact(s.history, s.first, s.localTick, snap.phase, cs.lastInputTick);
    ReconcileReplays(w, s.history, s.first, s.localTick, snap.phase, s.local, cs, around, SentAt(s));
  }
}
