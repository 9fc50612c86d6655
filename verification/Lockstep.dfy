/** Host and one client in lockstep, onto the podium: what every snapshot corrects, exactly. */
module Lockstep {
  import opened Basics
  import opened CarStates
  import opened Prediction
  import opened Snapshots
  import opened Vectors

  const MAX_BUFFERED := 8

  // stepCar on a fixed track.
  type CarStep = (CarSim, CarInput) -> CarSim

  // Nothing has touched the car and nobody draws it along.
  predicate Quiet(s: CarSim) {
    !s.slipstream && s.memory.impactCar == 0.0 && s.memory.takedownEvent == 0
  }

  // What stepCar reads and leaves: it never reads the drift angle or the car model,
  // leaves speed and ghost time consistent, and reports no contacts of its own.
  ghost predicate StepOk(car: CarStep, g: Geometry) {
    && (forall s: CarSim, i: CarInput, d: real {:trigger car(s.(driftAngle := d), i)} :: car(s.(driftAngle := d), i) == car(s, i))
    && (forall s: CarSim, i: CarInput, m: nat {:trigger car(s, i.(carModel := m))} :: car(s, i.(carModel := m)) == car(s, i))
    && (forall s, i :: Consistent(car(s, i), g))
    && (forall s, i :: Quiet(s) ==> Quiet(car(s, i)))
  }

  function Scaled(s: CarSim, multiplier: real): CarSim {
    s.(memory := s.memory.(nitroRechargeScale := multiplier))
  }

  // The client without remote cars: a plain stepCar.
  function Alone(car: CarStep, g: Geometry): Physics {
    Physics((s: CarSim, i: CarInput, t: nat, a: Surroundings) => car(s, i), g)
  }

  // The host's stepWorld for a car nobody is near.
  function HostStep(car: CarStep, s: CarSim, input: CarInput, multiplier: real): CarSim {
    var next := car(Scaled(s, multiplier).(slipstream := false), input);
    next.(memory := next.memory.(impactCar := 0.0, takedownEvent := 0))
  }

  // What a snapshot did to our car: the phase it carried, after how many inputs the car
  // stood before and after it, and how many had been sent.
  datatype Correction = Correction(delta: Vec3, phase: MatchPhase, was: nat, now: nat, sent: nat)

  // One pair of host and client; the client's ticks start after start, and it drops every
  // snapshot before the one numbered seen. The last five are kept by neither: how many
  // inputs the host has stepped, how many had been sent when it froze the cars, after how
  // many of them our car stands, whether a snapshot of the podium has been taken, and the
  // corrections.
  datatype System = System(
    start: nat,
    inputs: seq<CarInput>,
    ring: seq<Entry>, local: CarSim, clientPhase: MatchPhase, seen: nat,
    host: CarSim, hostPhase: MatchPhase, arrived: nat, applied: nat,
    published: seq<(NetState, MatchPhase)>,
    stepped: nat, frozen: nat, shown: nat, podium: bool, corrections: seq<Correction>)

  // turn: the countdown or the race ends with this tick.
  datatype Action =
    | ClientTick(raw: CarInput, carModel: nat, snapshot: Option<nat>)
    | PhaseAnnounced
    | InputArrives
    | HostTick(turn: bool, publish: bool)

  datatype Setup = Setup(car: CarStep, geometry: Geometry, playerId: int, multiplier: real, start: nat, spawn: CarSim)

  function Around(u: Setup): Surroundings {
    Surroundings(u.multiplier, map[], 0)
  }

  function Newest(y: System): nat {
    y.start + |y.inputs|
  }

  // The inputs sent while both still drive.
  function Live(y: System): nat {
    if y.hostPhase == Results then y.frozen else |y.inputs|
  }

  ghost predicate Initial(y: System, u: Setup) {
    && y.start == u.start && y.inputs == [] && y.local == u.spawn && y.host == u.spawn
    && |y.ring| == RING && (forall i | 0 <= i < RING :: y.ring[i].tick == 0)
    && y.clientPhase == Countdown && y.hostPhase == Countdown && y.arrived == 0 && y.applied == 0
    && y.published == [] && y.seen == 0
    && y.stepped == 0 && y.shown == 0 && !y.podium && y.corrections == []
  }

  // No tick starves or is trimmed, and snapshots come back within the ring; those of the
  // podium, and those that are dropped, may be of any age.
  ghost predicate Enabled(y: System, a: Action) {
    match a
    case ClientTick(raw, carModel, snapshot) =>
      |y.ring| == RING && (snapshot.Some? ==>
        snapshot.value < |y.published| &&
        (snapshot.value < y.seen || y.published[snapshot.value].1 == Results ||
         Newest(y) < y.published[snapshot.value].0.lastInputTick + RING - 1))
    case PhaseAnnounced => true
    case InputArrives => y.arrived < |y.inputs|
    case HostTick(turn, publish) => y.applied < y.arrived <= |y.inputs| && y.arrived - y.applied <= MAX_BUFFERED
  }

  function TakeSnapshot(y: System, i: nat, u: Setup): System
    requires |y.ring| == RING && i < |y.published|
  {
    if i < y.seen then y
    else
      var snap := y.published[i];
      var (ring, local) := Reconciled(Alone(u.car, u.geometry), y.ring, y.local, Newest(y), snap.1, snap.0, Around(u));
      var now := if snap.1 == Results then y.stepped else |y.inputs|;
      y.(clientPhase := snap.1, seen := i + 1, ring := ring, local := local, shown := now,
         podium := y.podium || snap.1 == Results,
         corrections := y.corrections + [Correction(Minus(y.local.position, local.position), snap.1, y.shown, now, |y.inputs|)])
  }

  function Predict(y: System, raw: CarInput, carModel: nat, u: Setup): System
    requires |y.ring| == RING
  {
    var tick := Newest(y) + 1;
    var input := (if y.clientPhase == Racing then raw else HoldInput(tick)).(tick := tick, carModel := carModel);
    var local := if y.clientPhase == Results then y.local else PredictStep(Alone(u.car, u.geometry), y.local, input, tick, Around(u));
    y.(inputs := y.inputs + [input], local := local, ring := y.ring[Slot(tick) := Entry(tick, input, local)],
       shown := if y.clientPhase == Results then y.shown else |y.inputs| + 1)
  }

  // On the podium the host goes on taking inputs but steps no car.
  function HostTicked(y: System, turn: bool, publish: bool, u: Setup): System
    requires y.applied < |y.inputs|
  {
    var input := y.inputs[y.applied];
    var host := if y.hostPhase == Results then y.host
                else HostStep(u.car, y.host, if y.hostPhase == Racing then input else HoldInput(input.tick), u.multiplier);
    var phase := if turn then (if y.hostPhase == Countdown then Racing else Results) else y.hostPhase;
    y.(host := host, applied := y.applied + 1, hostPhase := phase,
       stepped := if y.hostPhase == Results then y.stepped else y.applied + 1,
       frozen := if y.hostPhase == Results then y.frozen else |y.inputs|,
       published := if publish then y.published + [(ToNetState(host, u.playerId, input.tick), phase)] else y.published)
  }

  ghost function Next(y: System, a: Action, u: Setup): System
    requires Enabled(y, a)
  {
    match a
    case ClientTick(raw, carModel, snapshot) =>
      Predict(if snapshot.Some? then TakeSnapshot(y, snapshot.value, u) else y, raw, carModel, u)
    case PhaseAnnounced => y.(clientPhase := y.hostPhase)
    case InputArrives => y.(arrived := y.arrived + 1)
    case HostTick(turn, publish) => HostTicked(y, turn, publish, u)
  }

  // A client tick sends one input, and while its client takes the race to be on it is the
  // driver's own: the phase is that of the snapshot taken with the tick, or the one before.
  lemma DriverSteers(y: System, raw: CarInput, carModel: nat, snapshot: Option<nat>, u: Setup)
    requires Enabled(y, ClientTick(raw, carModel, snapshot))
    ensures var next := Next(y, ClientTick(raw, carModel, snapshot), u);
            && |next.inputs| == |y.inputs| + 1 && y.inputs <= next.inputs
            && next.inputs[|y.inputs|].tick == Newest(y) + 1
            && next.clientPhase == (if snapshot.Some? && snapshot.value >= y.seen then y.published[snapshot.value].1 else y.clientPhase)
            && (next.clientPhase == Racing ==> next.inputs[|y.inputs|] == raw.(tick := Newest(y) + 1, carModel := carModel))
  {
    hide Reconciled, PredictStep, Slot;
  }

  // The car after the first k inputs.
  function Truth(u: Setup, inputs: seq<CarInput>, k: nat): CarSim
    requires k <= |inputs|
  {
    if k == 0 then u.spawn else u.car(Scaled(Truth(u, inputs, k - 1), u.multiplier), inputs[k - 1])
  }

  lemma {:induction false} TruthPrefix(u: Setup, inputs: seq<CarInput>, more: seq<CarInput>, k: nat)
    requires k <= |inputs| && inputs <= more
    ensures Truth(u, inputs, k) == Truth(u, more, k)
  {
    if k != 0 {
      TruthPrefix(u, inputs, more, k - 1);
    }
  }

  ghost predicate SetupOk(u: Setup) {
    StepOk(u.car, u.geometry) && Consistent(u.spawn, u.geometry) && Quiet(u.spawn)
  }

  lemma {:induction false} TruthSane(u: Setup, inputs: seq<CarInput>, k: nat)
    requires SetupOk(u) && k <= |inputs|
    ensures Consistent(Truth(u, inputs, k), u.geometry) && Quiet(Truth(u, inputs, k))
  {
    if k != 0 {
      TruthSane(u, inputs, k - 1);
      assert Quiet(Scaled(Truth(u, inputs, k - 1), u.multiplier));
    }
  }

  // The step does not tell states apart that differ in the drift angle only.
  lemma StepAlike(car: CarStep, g: Geometry, a: CarSim, b: CarSim, input: CarInput, multiplier: real)
    requires StepOk(car, g) && Alike(a, b)
    ensures car(Scaled(a, multiplier), input) == car(Scaled(b, multiplier), input)
  {
    assert Scaled(a, multiplier).(driftAngle := b.driftAngle) == Scaled(b, multiplier);
  }

  // ---- the invariant ----------------------------------------------------------

  // The entry of tick start + k: its input always, its state as far as both drove.
  ghost predicate EntryTrue(ring: seq<Entry>, u: Setup, inputs: seq<CarInput>, k: nat, live: nat)
    requires |ring| == RING && 1 <= k <= |inputs|
  {
    var e := ring[Slot(u.start + k)];
    e.input == inputs[k - 1] && (k <= live ==> Alike(e.state, Truth(u, inputs, k)))
  }

  ghost predicate RingTrue(ring: seq<Entry>, u: Setup, inputs: seq<CarInput>, live: nat)
    requires |ring| == RING
  {
    forall k: nat | 1 <= k <= |inputs| && |inputs| - k < RING :: EntryTrue(ring, u, inputs, k, live)
  }

  predicate IsHold(input: CarInput, tick: nat) {
    input == HoldInput(tick).(carModel := input.carModel)
  }

  // A snapshot shows the car after the newest input applied, on the podium after the last
  // one stepped.
  ghost predicate PublishedTrue(p: (NetState, MatchPhase), u: Setup, inputs: seq<CarInput>, k: nat, stepped: nat) {
    && k <= |inputs| && stepped <= |inputs|
    && if p.1 == Results then stepped <= k && p.0 == ToNetState(Truth(u, inputs, stepped), u.playerId, u.start + k)
       else k <= stepped && p.0 == ToNetState(Truth(u, inputs, k), u.playerId, u.start + k)
  }

  ghost predicate ClientInStep(y: System, u: Setup) {
    && |y.ring| == RING && y.start == u.start
    && RingHolds(y.ring, u.start + 1, Newest(y)) && RingTrue(y.ring, u, y.inputs, Live(y))
    && CarTrue(y, u)
    && (forall k | 0 <= k < |y.inputs| :: y.inputs[k].tick == u.start + k + 1)
  }

  // Our car is the car after the first shown inputs; only once a podium snapshot is taken
  // its memory may be another's.
  ghost predicate CarTrue(y: System, u: Setup) {
    && y.shown <= |y.inputs| && y.stepped <= |y.inputs| && Live(y) <= |y.inputs|
    && y.local.position == Truth(u, y.inputs, y.shown).position
    && (y.podium ==> y.shown == y.stepped)
    && (!y.podium ==> Live(y) <= y.shown && Alike(y.local, Truth(u, y.inputs, y.shown)))
    && (y.clientPhase != Results ==> !y.podium && y.shown == |y.inputs|)
  }

  ghost predicate HostInStep(y: System, u: Setup) {
    && y.stepped <= y.applied <= y.arrived <= |y.inputs| && y.host == Truth(u, y.inputs, y.stepped)
    && (y.hostPhase != Results ==> y.stepped == y.applied)
    && (y.hostPhase == Results ==> y.stepped <= y.frozen <= |y.inputs|)
    && (forall i | 0 <= i < |y.published| :: SentFor(y, i, u))
  }

  // Snapshot i was sent after some input that was applied.
  ghost predicate SentFor(y: System, i: nat, u: Setup)
    requires i < |y.published|
  {
    exists k: nat :: 1 <= k <= y.applied && PublishedTrue(y.published[i], u, y.inputs, k, y.stepped)
  }

  // Before the green light everyone holds; the podium comes last.
  ghost predicate PhasesInStep(y: System) {
    && y.clientPhase != Lobby && y.hostPhase != Lobby && y.seen <= |y.published|
    && (forall i | 0 <= i < |y.published| :: y.published[i].1 != Lobby)
    && (y.hostPhase == Countdown ==>
          && y.clientPhase == Countdown
          && (forall i | 0 <= i < |y.published| :: y.published[i].1 == Countdown)
          && (forall k | 0 <= k < |y.inputs| :: IsHold(y.inputs[k], y.inputs[k].tick)))
    && (y.hostPhase != Results ==>
          y.clientPhase != Results && !y.podium && forall i | 0 <= i < |y.published| :: y.published[i].1 != Results)
    && (forall i, j | 0 <= i < j < |y.published| && y.published[i].1 == Results :: y.published[j].1 == Results)
    && (y.podium ==> forall i | y.seen <= i < |y.published| :: y.published[i].1 == Results)
  }

  // Every correction is the way between where the car stood and where it was put: after
  // all inputs sent, or where the host froze it. Until the host froze the cars, it stood
  // there already.
  ghost predicate CorrectionTrue(c: Correction, y: System, u: Setup) {
    && c.was <= |y.inputs| && c.now <= |y.inputs| && c.sent <= |y.inputs|
    && c.delta == Minus(Truth(u, y.inputs, c.was).position, Truth(u, y.inputs, c.now).position)
    && if c.phase == Results then y.hostPhase == Results && c.now == y.stepped <= c.was
       else c.now == c.sent && (c.sent <= Live(y) ==> c.was == c.sent)
  }

  ghost predicate CorrectionsTrue(y: System, u: Setup) {
    forall i | 0 <= i < |y.corrections| :: CorrectionTrue(y.corrections[i], y, u)
  }

  ghost predicate InStep(y: System, u: Setup) {
    ClientInStep(y, u) && HostInStep(y, u) && PhasesInStep(y) && CorrectionsTrue(y, u)
  }

  lemma InitialInStep(y: System, u: Setup)
    requires Initial(y, u)
    ensures InStep(y, u)
  {
  }

  // The inputs by tick.
  function LogOf(u: Setup, inputs: seq<CarInput>): nat -> CarInput {
    (t: nat) => if u.start < t <= u.start + |inputs| then inputs[t - u.start - 1] else HoldInput(t)
  }

  // Replaying from a state that matters as the host's does reaches, at every tick,
  // a state that matters as the true one does.
  lemma {:induction false} ReplayTrue(u: Setup, s: CarSim, inputs: seq<CarInput>, k: nat, n: nat)
    requires SetupOk(u) && k <= n <= |inputs| && Alike(s, Truth(u, inputs, k))
    ensures Alike(Replayed(Alone(u.car, u.geometry), s, LogOf(u, inputs), u.start + k, u.start + n, Around(u)), Truth(u, inputs, n))
    decreases n - k
  {
    if n != k {
      ReplayTrue(u, s, inputs, k, n - 1);
      var before := Replayed(Alone(u.car, u.geometry), s, LogOf(u, inputs), u.start + k, u.start + (n - 1), Around(u));
      StepAlike(u.car, u.geometry, before, Truth(u, inputs, n - 1), inputs[n - 1], u.multiplier);
    }
  }

  function Merged(y: System, cs: NetState, u: Setup): CarSim
    requires |y.ring| == RING
  {
    ApplyNetState(y.ring[Slot(cs.lastInputTick)].state, cs, u.geometry)
  }

  // Reconciling replays from a state that matters as the host's.
  lemma SnapshotReplays(y: System, snap: (NetState, MatchPhase), k: nat, u: Setup)
    requires SetupOk(u) && ClientInStep(y, u) && 1 <= k <= Live(y) && PublishedTrue(snap, u, y.inputs, k, y.stepped)
    requires Newest(y) < snap.0.lastInputTick + RING - 1 && snap.1 != Results
    ensures Alike(Merged(y, snap.0, u), Truth(u, y.inputs, k))
    ensures CanReplay(y.ring, Newest(y), snap.1, snap.0.lastInputTick)
    ensures forall t: nat | u.start + 1 < t <= Newest(y) && Newest(y) - t < RING :: y.ring[Slot(t)].input == LogOf(u, y.inputs)(t)
  {
    hide Slot, CarTrue;
    assert Live(y) <= |y.inputs| by {
      LiveWithin(y, u);
    }
    assert EntryTrue(y.ring, u, y.inputs, k, Live(y));
    TruthSane(u, y.inputs, k);
    SnapshotReplaces(y.ring[Slot(u.start + k)].state, Truth(u, y.inputs, k), u.playerId, u.start + k, u.geometry);
    InputsLogged(y, u);
  }

  lemma InputsLogged(y: System, u: Setup)
    requires ClientInStep(y, u)
    ensures forall t: nat | u.start + 1 < t <= Newest(y) && Newest(y) - t < RING :: y.ring[Slot(t)].input == LogOf(u, y.inputs)(t)
  {
    hide Slot, CarTrue, Truth;
    forall t: nat | u.start + 1 < t <= Newest(y) && Newest(y) - t < RING
      ensures y.ring[Slot(t)].input == LogOf(u, y.inputs)(t)
    {
      var j: nat := t - u.start;
      assert EntryTrue(y.ring, u, y.inputs, j, Live(y));
    }
  }

  lemma LiveWithin(y: System, u: Setup)
    requires CarTrue(y, u)
    ensures Live(y) <= |y.inputs|
  {
  }

  // The heart of it: a snapshot of any input stepped, less than a ring old, leaves our car
  // after every input sent; had it not been frozen there, nothing that matters changes.
  lemma SnapshotChangesNothing(y: System, i: nat, k: nat, u: Setup)
    requires SetupOk(u) && ClientInStep(y, u) && y.seen <= i < |y.published| && !y.podium
    requires 1 <= k <= Live(y) && PublishedTrue(y.published[i], u, y.inputs, k, y.stepped)
    requires Newest(y) < y.published[i].0.lastInputTick + RING - 1 && y.published[i].1 != Results
    ensures var y' := TakeSnapshot(y, i, u);
            && ClientInStep(y', u) && Alike(y'.local, Truth(u, y.inputs, |y.inputs|))
            && y'.corrections == y.corrections +
                 [Correction(Minus(Truth(u, y.inputs, y.shown).position, Truth(u, y.inputs, |y.inputs|).position),
                             y.published[i].1, y.shown, |y.inputs|, |y.inputs|)]
            && (y.shown == |y.inputs| ==> Alike(y'.local, y.local) && y'.corrections[|y.corrections|].delta == ORIGIN)
  {
    hide Slot, PredictStep, ReplayRing, RingHolds, RingTrue, CanReplay, Replayed, StepOk, Truth, LogOf, ApplyNetState;
    var w, newest, snap := Alone(u.car, u.geometry), Newest(y), y.published[i];
    SnapshotReplays(y, snap, k, u);
    ReconcileReplays(w, y.ring, u.start + 1, newest, snap.1, y.local, snap.0, Around(u), LogOf(u, y.inputs));
    ReplayTrue(u, Merged(y, snap.0, u), y.inputs, k, |y.inputs|);
    var y' := TakeSnapshot(y, i, u);
    KeepsTicks(y, i, u);
    RingKeepsTicks(y.ring, y'.ring, u.start + 1, newest);
    RingReplayed(y, y'.ring, Merged(y, snap.0, u), k, u);
    StandsAtTruth(y, i, u);
  }

  // The correction of a snapshot that leaves our car where all inputs sent lead.
  lemma StandsAtTruth(y: System, i: nat, u: Setup)
    requires ClientInStep(y, u) && y.seen <= i < |y.published| && y.published[i].1 != Results
    requires Alike(TakeSnapshot(y, i, u).local, Truth(u, y.inputs, |y.inputs|)) && !y.podium
    ensures var y' := TakeSnapshot(y, i, u);
            && y'.corrections == y.corrections +
                 [Correction(Minus(Truth(u, y.inputs, y.shown).position, Truth(u, y.inputs, |y.inputs|).position),
                             y.published[i].1, y.shown, |y.inputs|, |y.inputs|)]
            && (y.shown == |y.inputs| ==> Alike(y'.local, y.local) && y'.corrections[|y.corrections|].delta == ORIGIN)
  {
    hide Slot, Reconciled, RingTrue, StepOk, Truth;
  }

  // A ring rewritten by a replay from a state that matters as the true one is true again.
  lemma RingReplayed(y: System, ring: seq<Entry>, s: CarSim, k: nat, u: Setup)
    requires SetupOk(u) && |y.ring| == |ring| == RING && 1 <= k <= |y.inputs| && Alike(s, Truth(u, y.inputs, k))
    requires RingTrue(y.ring, u, y.inputs, Live(y))
    requires forall t: nat | u.start + k <= t <= u.start + |y.inputs| ::
               && ring[Slot(t)].input == y.ring[Slot(t)].input
               && ring[Slot(t)].state == Replayed(Alone(u.car, u.geometry), s, LogOf(u, y.inputs), u.start + k, t, Around(u))
    requires forall t: nat | u.start + 1 <= t < u.start + k && u.start + |y.inputs| - t < RING :: ring[Slot(t)] == y.ring[Slot(t)]
    ensures RingTrue(ring, u, y.inputs, Live(y))
  {
    hide Slot, Replayed, StepOk, Truth, LogOf;
    forall j: nat | 1 <= j <= |y.inputs| && |y.inputs| - j < RING
      ensures EntryTrue(ring, u, y.inputs, j, Live(y))
    {
      assert EntryTrue(y.ring, u, y.inputs, j, Live(y));
      if k <= j {
        ReplayTrue(u, s, y.inputs, k, j);
      }
    }
  }

  lemma KeepsTicks(y: System, i: nat, u: Setup)
    requires |y.ring| == RING && i < |y.published|
    ensures forall j | 0 <= j < RING :: TakeSnapshot(y, i, u).ring[j].tick == y.ring[j].tick
  {
    hide Slot, PredictStep;
  }

  // A snapshot of the podium puts our car where the host froze it, and leaves the ring alone.
  lemma PodiumSnapshot(y: System, i: nat, k: nat, u: Setup)
    requires ClientInStep(y, u) && y.seen <= i < |y.published| && y.published[i].1 == Results
    requires PublishedTrue(y.published[i], u, y.inputs, k, y.stepped)
    ensures var y' := TakeSnapshot(y, i, u);
            && ClientInStep(y', u) && y'.ring == y.ring
            && y'.corrections == y.corrections +
                 [Correction(Minus(Truth(u, y.inputs, y.shown).position, Truth(u, y.inputs, y.stepped).position),
                             Results, y.shown, y.stepped, |y.inputs|)]
  {
    hide Slot, RingHolds, RingTrue, Truth;
  }

  lemma PredictKeeps(y: System, raw: CarInput, carModel: nat, u: Setup)
    requires SetupOk(u) && ClientInStep(y, u) && (y.clientPhase == Results ==> y.hostPhase == Results)
    ensures ClientInStep(Predict(y, raw, carModel, u), u)
  {
    hide Slot, RingHolds, IsHold, CarTrue, PredictStep;
    var n, y' := |y.inputs|, Predict(y, raw, carModel, u);
    assert y'.inputs[..n] == y.inputs && |y'.inputs| == n + 1;
    PredictedCar(y, raw, carModel, u);
    var tick := Newest(y) + 1;
    RingExtends(y.ring, u.start + 1, Newest(y), Entry(tick, y'.inputs[n], y'.local));
    forall k: nat | 1 <= k <= n + 1 && n + 1 - k < RING
      ensures EntryTrue(y'.ring, u, y'.inputs, k, Live(y'))
    {
      if k <= n {
        assert EntryTrue(y.ring, u, y.inputs, k, Live(y));
        DifferentSlots(u.start + k, tick);
        EntryStays(y.ring, y'.ring, u, y.inputs, y'.inputs, k, Live(y), Live(y'));
      }
    }
  }

  lemma PredictedCar(y: System, raw: CarInput, carModel: nat, u: Setup)
    requires SetupOk(u) && |y.ring| == RING && CarTrue(y, u) && (y.clientPhase == Results ==> y.hostPhase == Results)
    ensures var y' := Predict(y, raw, carModel, u);
            && CarTrue(y', u) && (Live(y') == |y'.inputs| ==> Alike(y'.local, Truth(u, y'.inputs, |y'.inputs|)))
            && (y.hostPhase == Results ==> Live(y') <= |y.inputs|)
  {
    hide Slot;
    var n, y' := |y.inputs|, Predict(y, raw, carModel, u);
    assert y'.inputs[..n] == y.inputs && |y'.inputs| == n + 1;
    TruthPrefix(u, y.inputs, y'.inputs, y.shown);
    if y.clientPhase != Results {
      StepAlike(u.car, u.geometry, y.local, Truth(u, y.inputs, n), y'.inputs[n], u.multiplier);
    }
  }

  lemma EntryStays(ring: seq<Entry>, ring': seq<Entry>, u: Setup, inputs: seq<CarInput>, inputs': seq<CarInput>, k: nat, live: nat, live': nat)
    requires 1 <= k <= |inputs| <= |inputs'| && inputs'[..|inputs|] == inputs && |ring| == |ring'| == RING
    requires EntryTrue(ring, u, inputs, k, live) && ring'[Slot(u.start + k)] == ring[Slot(u.start + k)]
    requires k <= live' ==> k <= live
    ensures EntryTrue(ring', u, inputs', k, live')
  {
    hide Slot;
    TruthPrefix(u, inputs, inputs', k);
  }

  // The host applies what the client simulated.
  lemma HostStepIsTruth(y: System, u: Setup)
    requires SetupOk(u) && HostInStep(y, u) && PhasesInStep(y) && y.applied < |y.inputs| && y.hostPhase != Results
    ensures HostTicked(y, false, false, u).host == Truth(u, y.inputs, y.applied + 1)
  {
    hide SentFor;
    var s, input := y.host, y.inputs[y.applied];
    TruthSane(u, y.inputs, y.applied);
    TruthSane(u, y.inputs, y.applied + 1);
    assert Scaled(s, u.multiplier).(slipstream := false) == Scaled(s, u.multiplier);
    var used := if y.hostPhase == Racing then input else HoldInput(input.tick);
    assert u.car(Scaled(s, u.multiplier), used.(carModel := input.carModel)) == u.car(Scaled(s, u.multiplier), used);
    assert used.(carModel := input.carModel) == input;
  }

  lemma PhasesKeep(y: System, a: Action, u: Setup)
    requires Enabled(y, a) && HostInStep(y, u) && PhasesInStep(y)
    ensures PhasesInStep(Next(y, a, u))
  {
    hide PredictStep, Reconciled, Truth, SentFor, HostStep, ToNetState;
  }

  // While the host steps, more inputs stepped leave what it has published true.
  lemma SentStays(y: System, y': System, i: nat, u: Setup)
    requires i < |y.published| <= |y'.published| && y'.published[i] == y.published[i] && SentFor(y, i, u)
    requires y.inputs <= y'.inputs && y.applied <= y'.applied && y.stepped <= y'.stepped <= |y'.inputs|
    requires y.published[i].1 == Results ==> y.stepped == y'.stepped
    ensures SentFor(y', i, u)
  {
    hide Truth;
    var k: nat :| 1 <= k <= y.applied && PublishedTrue(y.published[i], u, y.inputs, k, y.stepped);
    TruthPrefix(u, y.inputs, y'.inputs, k);
    TruthPrefix(u, y.inputs, y'.inputs, y.stepped);
    assert PublishedTrue(y'.published[i], u, y'.inputs, k, y'.stepped);
  }

  lemma HostKeeps(y: System, turn: bool, publish: bool, u: Setup)
    requires SetupOk(u) && ClientInStep(y, u) && HostInStep(y, u) && PhasesInStep(y) && y.applied < y.arrived
    ensures HostInStep(HostTicked(y, turn, publish, u), u)
  {
    hide HostStep, Truth, SentFor, ClientInStep, ToNetState, PublishedTrue;
    if y.hostPhase != Results {
      HostStepIsTruth(y, u);
    }
    var y' := HostTicked(y, turn, publish, u);
    forall i | 0 <= i < |y'.published|
      ensures SentFor(y', i, u)
    {
      if i < |y.published| {
        SentStays(y, y', i, u);
      } else {
        SentNow(y, turn, publish, u);
      }
    }
  }

  lemma SentNow(y: System, turn: bool, publish: bool, u: Setup)
    requires SetupOk(u) && ClientInStep(y, u) && HostInStep(y, u) && PhasesInStep(y) && y.applied < y.arrived && publish
    ensures SentFor(HostTicked(y, turn, publish, u), |y.published|, u)
  {
    hide HostStep, Truth;
    if y.hostPhase != Results {
      HostStepIsTruth(y, u);
    }
    var y' := HostTicked(y, turn, publish, u);
    assert PublishedTrue(y'.published[|y.published|], u, y'.inputs, y'.applied, y'.stepped);
  }

  // More inputs, and whatever the client does, leave the host's half as it was.
  lemma MoreInputsKeepHost(y: System, y': System, u: Setup)
    requires HostInStep(y, u) && y.inputs <= y'.inputs && y'.host == y.host && y'.hostPhase == y.hostPhase
    requires y'.applied == y.applied <= y'.arrived <= |y'.inputs| && y'.stepped == y.stepped && y'.frozen == y.frozen && y'.published == y.published
    ensures HostInStep(y', u)
  {
    hide SentFor;
    TruthPrefix(u, y.inputs, y'.inputs, y.stepped);
    forall i | 0 <= i < |y'.published|
      ensures SentFor(y', i, u)
    {
      SentStays(y, y', i, u);
    }
  }

  lemma SnapshotOf(y: System, i: nat, u: Setup) returns (k: nat)
    requires HostInStep(y, u) && i < |y.published|
    ensures 1 <= k <= y.applied && PublishedTrue(y.published[i], u, y.inputs, k, y.stepped)
  {
    assert SentFor(y, i, u);
    k :| 1 <= k <= y.applied && PublishedTrue(y.published[i], u, y.inputs, k, y.stepped);
  }

  lemma TakeKeeps(y: System, i: nat, u: Setup)
    requires SetupOk(u) && InStep(y, u) && i < |y.published| && (i >= y.seen && y.published[i].1 != Results ==>
      Newest(y) < y.published[i].0.lastInputTick + RING - 1)
    ensures var y' := TakeSnapshot(y, i, u);
            ClientInStep(y', u) && CorrectionsTrue(y', u) && (y'.clientPhase == Results ==> y.hostPhase == Results)
  {
    hide ClientInStep, Reconciled, SetupOk, SentFor, Truth;
    ShownLive(y, u);
    if i >= y.seen {
      var k := SnapshotOf(y, i, u);
      if y.published[i].1 == Results {
        PodiumSnapshot(y, i, k, u);
      } else {
        SteppedLive(y, u);
        SnapshotChangesNothing(y, i, k, u);
      }
      CorrectionAdds(y, TakeSnapshot(y, i, u), u);
    }
  }

  lemma SteppedLive(y: System, u: Setup)
    requires HostInStep(y, u)
    ensures y.stepped <= Live(y) <= |y.inputs|
  {
  }

  lemma ShownLive(y: System, u: Setup)
    requires ClientInStep(y, u)
    ensures |y.ring| == RING && y.shown <= |y.inputs| && (if y.podium then y.shown == y.stepped else Live(y) <= y.shown)
  {
  }

  lemma CorrectionAdds(y: System, y': System, u: Setup)
    requires CorrectionsTrue(y, u) && y'.inputs == y.inputs && y'.hostPhase == y.hostPhase && y'.stepped == y.stepped && y'.frozen == y.frozen
    requires |y'.corrections| == |y.corrections| + 1 && y'.corrections[..|y.corrections|] == y.corrections
    requires CorrectionTrue(y'.corrections[|y.corrections|], y, u)
    ensures CorrectionsTrue(y', u)
  {
    hide Truth;
    forall i | 0 <= i < |y'.corrections|
      ensures CorrectionTrue(y'.corrections[i], y', u)
    {
      if i < |y.corrections| {
        assert CorrectionTrue(y.corrections[i], y, u);
        assert y'.corrections[..|y.corrections|][i] == y.corrections[i];
      }
    }
  }

  // Once true, corrections stay so: while the host drives, nobody has corrected against a
  // podium or been frozen.
  lemma CorrectionsStay(y: System, y': System, u: Setup)
    requires CorrectionsTrue(y, u) && y.inputs <= y'.inputs && y'.corrections == y.corrections
    requires y.hostPhase == Results ==> y'.hostPhase == Results && y'.stepped == y.stepped && y'.frozen == y.frozen
    ensures CorrectionsTrue(y', u)
  {
    hide Truth;
    forall i | 0 <= i < |y'.corrections|
      ensures CorrectionTrue(y'.corrections[i], y', u)
    {
      var c := y.corrections[i];
      assert CorrectionTrue(c, y, u);
      TruthPrefix(u, y.inputs, y'.inputs, c.was);
      TruthPrefix(u, y.inputs, y'.inputs, c.now);
    }
  }

  lemma ClientKeeps(y: System, raw: CarInput, carModel: nat, snapshot: Option<nat>, u: Setup)
    requires SetupOk(u) && InStep(y, u) && Enabled(y, ClientTick(raw, carModel, snapshot))
    ensures var y' := Next(y, ClientTick(raw, carModel, snapshot), u);
            ClientInStep(y', u) && HostInStep(y', u) && CorrectionsTrue(y', u)
  {
    hide Reconciled, PredictStep, SetupOk, SentFor, Truth, RingHolds, RingTrue, CarTrue, CorrectionTrue;
    var taken := y;
    if snapshot.Some? {
      TakeKeeps(y, snapshot.value, u);
      taken := TakeSnapshot(y, snapshot.value, u);
    }
    PredictKeeps(taken, raw, carModel, u);
    MoreInputsKeepHost(y, Predict(taken, raw, carModel, u), u);
    CorrectionsStay(taken, Predict(taken, raw, carModel, u), u);
  }

  // What the host does leaves the client's half in step.
  lemma ClientUntouched(y: System, y': System, u: Setup)
    requires ClientInStep(y, u) && y' == y.(host := y'.host, hostPhase := y'.hostPhase, arrived := y'.arrived, applied := y'.applied,
                                             published := y'.published, stepped := y'.stepped, frozen := y'.frozen)
    requires if y.hostPhase == Results then y'.hostPhase == Results && y'.stepped == y.stepped && y'.frozen == y.frozen
             else !y.podium && y'.stepped <= |y.inputs| && (y'.hostPhase == Results ==> y'.frozen == |y.inputs|)
    ensures ClientInStep(y', u)
  {
    hide RingHolds, Truth;
    assert Live(y') == Live(y);
  }

  // A phase announced to the client leaves it in step, be it to freeze.
  lemma AnnouncedKeeps(y: System, u: Setup)
    requires InStep(y, u)
    ensures InStep(y.(clientPhase := y.hostPhase), u)
  {
    hide RingHolds, Truth, SentFor;
    var y' := y.(clientPhase := y.hostPhase);
    MoreInputsKeepHost(y, y', u);
    CorrectionsStay(y, y', u);
    assert RingTrue(y'.ring, u, y'.inputs, Live(y'));
  }

  lemma ArrivedKeeps(y: System, u: Setup)
    requires InStep(y, u) && y.arrived < |y.inputs|
    ensures ClientInStep(y.(arrived := y.arrived + 1), u) && HostInStep(y.(arrived := y.arrived + 1), u)
    ensures CorrectionsTrue(y.(arrived := y.arrived + 1), u)
  {
    hide RingHolds, Truth, SentFor;
    var y' := y.(arrived := y.arrived + 1);
    MoreInputsKeepHost(y, y', u);
    CorrectionsStay(y, y', u);
  }

  lemma HostTickKeeps(y: System, turn: bool, publish: bool, u: Setup)
    requires SetupOk(u) && InStep(y, u) && Enabled(y, HostTick(turn, publish))
    ensures var y' := Next(y, HostTick(turn, publish), u); ClientInStep(y', u) && HostInStep(y', u) && CorrectionsTrue(y', u)
  {
    hide ClientInStep, HostStep, Truth, SentFor, ToNetState, CorrectionsTrue;
    var y' := HostTicked(y, turn, publish, u);
    HostKeeps(y, turn, publish, u);
    CorrectionsStay(y, y', u);
    ClientUntouched(y, y', u);
  }

  // Every step leaves host and client in step.
  lemma NextInStep(y: System, a: Action, u: Setup)
    requires SetupOk(u) && InStep(y, u) && Enabled(y, a)
    ensures InStep(Next(y, a, u), u)
  {
    hide ClientInStep, HostInStep, PhasesInStep, CorrectionsTrue, Predict, TakeSnapshot, HostTicked;
    PhasesKeep(y, a, u);
    match a
    case ClientTick(raw, carModel, snapshot) => ClientKeeps(y, raw, carModel, snapshot, u);
    case PhaseAnnounced => AnnouncedKeeps(y, u);
    case InputArrives => ArrivedKeeps(y, u);
    case HostTick(turn, publish) => HostTickKeeps(y, turn, publish, u);
  }

  // A run: where the actions lead, if each is enabled when its turn comes.
  ghost function RunTo(y0: System, actions: seq<Action>, u: Setup): Option<System> {
    if actions == [] then Some(y0)
    else
      var before, a := RunTo(y0, actions[..|actions| - 1], u), actions[|actions| - 1];
      if before.Some? && Enabled(before.value, a) then Some(Next(before.value, a, u)) else None
  }

  lemma {:induction false} RunInStep(y0: System, actions: seq<Action>, u: Setup)
    requires SetupOk(u) && Initial(y0, u) && RunTo(y0, actions, u).Some?
    ensures InStep(RunTo(y0, actions, u).value, u)
  {
    hide Next, Enabled;
    if actions == [] {
      InitialInStep(y0, u);
    } else {
      RunInStep(y0, actions[..|actions| - 1], u);
      NextInStep(RunTo(y0, actions[..|actions| - 1], u).value, actions[|actions| - 1], u);
    }
  }

  // Every correction of every run in which no tick starves or is trimmed and every
  // snapshot that is replayed is less than a ring old. A snapshot of the countdown or the
  // race puts our car where all inputs sent leave it, and until the host freezes the cars
  // it stands there already: the correction is exactly zero. A snapshot of the podium puts
  // it back where the host froze it.
  lemma CorrectionsExact(y0: System, actions: seq<Action>, u: Setup, i: nat)
    requires SetupOk(u) && Initial(y0, u) && RunTo(y0, actions, u).Some? && i < |RunTo(y0, actions, u).value.corrections|
    ensures var y := RunTo(y0, actions, u).value;
            var c := y.corrections[i];
            && c.was <= |y.inputs| && c.now <= |y.inputs|
            && c.delta == Minus(Truth(u, y.inputs, c.was).position, Truth(u, y.inputs, c.now).position)
            && (c.phase == Results ==> c.now == y.stepped <= c.was)
            && (c.phase != Results ==> c.now == c.sent)
            && (c.phase != Results && c.sent <= Live(y) ==> c.delta == ORIGIN)
  {
    hide RunTo, ClientInStep, HostInStep, PhasesInStep, Truth;
    RunInStep(y0, actions, u);
    var y := RunTo(y0, actions, u).value;
    assert CorrectionTrue(y.corrections[i], y, u);
  }

  // So nothing is ever corrected before the podium.
  lemma LockstepNeverCorrects(y0: System, actions: seq<Action>, u: Setup)
    requires SetupOk(u) && Initial(y0, u) && RunTo(y0, actions, u).Some? && RunTo(y0, actions, u).value.hostPhase != Results
    ensures var y := RunTo(y0, actions, u).value; forall i | 0 <= i < |y.corrections| :: y.corrections[i].delta == ORIGIN
  {
    hide RunTo, ClientInStep, HostInStep, PhasesInStep, Truth;
    RunInStep(y0, actions, u);
    var y := RunTo(y0, actions, u).value;
    forall i | 0 <= i < |y.corrections|
      ensures y.corrections[i].delta == ORIGIN
    {
      assert CorrectionTrue(y.corrections[i], y, u);
    }
  }

  // What the limit on the age of a snapshot is worth: at a ring's length less one the
  // client throws its prediction away, and the correction is all the way driven since.
  lemma OldSnapshotThrowsBack(y: System, i: nat, k: nat, u: Setup)
    requires SetupOk(u) && ClientInStep(y, u) && y.seen <= i < |y.published| && y.published[i].1 != Results
    requires 1 <= k && PublishedTrue(y.published[i], u, y.inputs, k, y.stepped)
    requires Newest(y) >= y.published[i].0.lastInputTick + RING - 1
    ensures var y' := TakeSnapshot(y, i, u);
            |y'.corrections| == |y.corrections| + 1 &&
            y'.corrections[|y.corrections|].delta
              == Minus(Truth(u, y.inputs, y.shown).position, Truth(u, y.inputs, k).position)
  {
    hide Slot, Truth;
  }

  // ---- a run onto the podium ------------------------------------------------------

  // A car that rolls a metre a tick, whatever is steered.
  const ROLLING: CarStep := (s: CarSim, i: CarInput) =>
    s.(position := Plus(s.position, Vec3(1.0, 0.0, 0.0)), speed := 0.0, driftAngle := 0.0, ghostTimer := 0.0)

  const LEVEL := Geometry((v: Vec3) => 0.0, (r: Quat, v: Vec3) => 0.0)

  lemma RollingOk()
    ensures StepOk(ROLLING, LEVEL)
  {
  }

  // Two inputs are driven on both sides; the client drives a third before it hears that
  // the host has frozen the cars after the second, and is thrown back by the metre.
  ghost function ToThePodium(raw: CarInput): seq<Action> {
    [ClientTick(raw, 0, None), InputArrives, HostTick(true, false),
     ClientTick(raw, 0, None), InputArrives, HostTick(true, true),
     ClientTick(raw, 0, None), ClientTick(raw, 0, Some(0))]
  }

  lemma RunOneMore(y0: System, actions: seq<Action>, a: Action, u: Setup)
    requires RunTo(y0, actions, u).Some? && Enabled(RunTo(y0, actions, u).value, a)
    ensures RunTo(y0, actions + [a], u) == Some(Next(RunTo(y0, actions, u).value, a, u))
  {
    hide Next, Enabled;
    assert (actions + [a])[..|actions|] == actions;
  }

  // What of a state the run turns on.
  ghost predicate At(y: System, sent: nat, client: MatchPhase, host: MatchPhase, arrived: nat, applied: nat, published: seq<MatchPhase>) {
    && |y.ring| == RING && |y.inputs| == sent && y.clientPhase == client && y.hostPhase == host
    && y.arrived == arrived && y.applied == applied == y.stepped && y.shown == sent && y.seen == 0 && y.corrections == []
    && |y.published| == |published| && forall i | 0 <= i < |published| :: y.published[i].1 == published[i]
  }

  lemma ClientDrives(y: System, raw: CarInput, host: MatchPhase, k: nat, arrived: nat, applied: nat, published: seq<MatchPhase>, u: Setup)
    requires At(y, k, Countdown, host, arrived, applied, published)
    ensures Enabled(y, ClientTick(raw, 0, None))
    ensures At(Next(y, ClientTick(raw, 0, None), u), k + 1, Countdown, host, arrived, applied, published)
  {
    hide PredictStep;
  }

  lemma HostDrives(y: System, host: MatchPhase, k: nat, publish: bool, u: Setup)
    requires At(y, k + 1, Countdown, host, k, k, []) && host in {Countdown, Racing}
    ensures Enabled(y, InputArrives) && Enabled(Next(y, InputArrives, u), HostTick(true, publish))
    ensures var next := if host == Countdown then Racing else Results;
      At(Next(Next(y, InputArrives, u), HostTick(true, publish), u), k + 1, Countdown, next, k + 1, k + 1, if publish then [next] else [])
  {
    hide HostStep, ToNetState;
  }

  lemma TurnsToPodium(y0: System, raw: CarInput, u: Setup) returns (y: System)
    requires Initial(y0, u)
    ensures var run := ToThePodium(raw)[..7];
            RunTo(y0, run, u) == Some(y) && At(y, 3, Countdown, Results, 2, 2, [Results])
  {
    hide Next, Enabled, At, RunTo;
    var a, arrives := ClientTick(raw, 0, None), InputArrives;
    var run := ToThePodium(raw);
    assert RunTo(y0, [], u) == Some(y0) && At(y0, 0, Countdown, Countdown, 0, 0, []) by {
      StartsAt(y0, u);
    }
    ClientDrives(y0, raw, Countdown, 0, 0, 0, [], u);
    RunOneMore(y0, [], a, u);
    var y1 := Next(y0, a, u);
    HostDrives(y1, Countdown, 0, false, u);
    RunOneMore(y0, [] + [a], arrives, u);
    RunOneMore(y0, [] + [a] + [arrives], HostTick(true, false), u);
    var y3 := Next(Next(y1, arrives, u), HostTick(true, false), u);
    ClientDrives(y3, raw, Racing, 1, 1, 1, [], u);
    var three := [] + [a] + [arrives] + [HostTick(true, false)];
    RunOneMore(y0, three, a, u);
    var y4 := Next(y3, a, u);
    HostDrives(y4, Racing, 1, true, u);
    RunOneMore(y0, three + [a], arrives, u);
    RunOneMore(y0, three + [a] + [arrives], HostTick(true, true), u);
    var y6 := Next(Next(y4, arrives, u), HostTick(true, true), u);
    ClientDrives(y6, raw, Results, 2, 2, 2, [Results], u);
    RunOneMore(y0, three + [a] + [arrives] + [HostTick(true, true)], a, u);
    y := Next(y6, a, u);
    assert run[..7] == three + [a] + [arrives] + [HostTick(true, true)] + [a];
  }

  lemma StartsAt(y0: System, u: Setup)
    requires Initial(y0, u)
    ensures RunTo(y0, [], u) == Some(y0) && At(y0, 0, Countdown, Countdown, 0, 0, [])
  {
  }

  lemma TakesPodium(y: System, raw: CarInput, u: Setup)
    requires At(y, 3, Countdown, Results, 2, 2, [Results])
    ensures Enabled(y, ClientTick(raw, 0, Some(0)))
    ensures var y' := Next(y, ClientTick(raw, 0, Some(0)), u);
            |y'.corrections| == 1 && y'.corrections[0].was == 3 && y'.corrections[0].phase == Results && y'.stepped == 2
  {
    hide PredictStep, Reconciled;
  }

  lemma RolledOn(u: Setup, inputs: seq<CarInput>)
    requires u.car == ROLLING && |inputs| >= 3
    ensures Minus(Truth(u, inputs, 3).position, Truth(u, inputs, 2).position) == Vec3(1.0, 0.0, 0.0)
  {
    assert Truth(u, inputs, 3) == ROLLING(Scaled(Truth(u, inputs, 2), u.multiplier), inputs[2]);
  }

  // So the podium does correct: in this run by the whole metre driven since.
  lemma PodiumThrowsBack(y0: System, raw: CarInput, u: Setup)
    requires u.car == ROLLING && u.geometry == LEVEL && Consistent(u.spawn, LEVEL) && Quiet(u.spawn) && Initial(y0, u)
    ensures RunTo(y0, ToThePodium(raw), u).Some?
    ensures var y := RunTo(y0, ToThePodium(raw), u).value;
            |y.corrections| == 1 && y.corrections[0].delta == Vec3(1.0, 0.0, 0.0)
  {
    hide Next, Enabled, At, RunTo, Truth, Initial, StepOk;
    RollingOk();
    var run := ToThePodium(raw);
    var before := TurnsToPodium(y0, raw, u);
    TakesPodium(before, raw, u);
    RunOneMore(y0, run[..7], ClientTick(raw, 0, Some(0)), u);
    assert run == run[..7] + [ClientTick(raw, 0, Some(0))];
    CorrectionsExact(y0, run, u, 0);
    RolledOn(u, RunTo(y0, run, u).value.inputs);
  }
}
