/** Client-side prediction: the ring of simulated ticks, and rewinding it onto a snapshot. */
module Prediction {
  import opened CarStates
  import opened Snapshots
  import opened Vectors

  const RING: nat := 256

  // Where the ring keeps a tick.
  function Slot(tick: nat): (i: nat)
    ensures i < RING
  {
    tick % RING
  }

  // What one predicted tick depends on besides state, input and tick.
  datatype Surroundings = Surroundings(multiplier: real, remotes: map<int, NetState>, baseTick: nat)

  // stepWorld against the proxies of the remote cars, or stepCar when there are none.
  datatype Physics = Physics(step: (CarSim, CarInput, nat, Surroundings) -> CarSim, geometry: Geometry)

  datatype Entry = Entry(tick: nat, input: CarInput, state: CarSim)

  // One predicted tick.
  function PredictStep(w: Physics, s: CarSim, input: CarInput, tick: nat, around: Surroundings): CarSim {
    w.step(s.(memory := s.memory.(nitroRechargeScale := around.multiplier)), input, tick, around)
  }

  // Simulating the ticks after base up to tick, with the inputs given for them.
  function Replayed(w: Physics, s: CarSim, inputs: nat -> CarInput, base: nat, tick: nat, around: Surroundings): CarSim
    requires base <= tick
    decreases tick - base
  {
    if tick == base then s
    else PredictStep(w, Replayed(w, s, inputs, base, tick - 1, around), inputs(tick), tick, around)
  }

  // Slots of the ring hold their own tick, from the first tick of the current
  // stretch of prediction to the newest one, and nothing else.
  ghost predicate RingHolds(ring: seq<Entry>, first: nat, newest: nat) {
    && |ring| == RING
    && (forall t: nat | first <= t <= newest && newest - t < RING :: ring[Slot(t)].tick == t)
    && (forall i | 0 <= i < RING && ring[i].tick != 0 :: first <= ring[i].tick <= newest && Slot(ring[i].tick) == i)
  }

  // The test reconciliation makes before it replays: only the slot of T is looked at.
  predicate CanReplay(ring: seq<Entry>, newest: nat, phase: MatchPhase, T: nat)
    requires |ring| == RING
  {
    T != 0 && T <= newest && newest - T < RING - 1 && ring[Slot(T)].tick == T && phase != Results
  }

  // If the slot of T holds T, so does every slot from T to the newest.
  lemma WindowIntact(ring: seq<Entry>, first: nat, newest: nat, phase: MatchPhase, T: nat)
    requires RingHolds(ring, first, newest) && CanReplay(ring, newest, phase, T)
    ensures first <= T && forall t: nat | T <= t <= newest :: ring[Slot(t)].tick == t
  {
  }

  // Replaying in the ring: the rewound state goes into the slot of base, and each
  // later slot gets the state after its own input.
  function ReplayRing(w: Physics, ring: seq<Entry>, base: nat, s: CarSim, tick: nat, around: Surroundings): (out: (seq<Entry>, CarSim))
    requires |ring| == RING && base <= tick
    ensures |out.0| == RING
    ensures forall i | 0 <= i < RING :: out.0[i] == ring[i].(state := out.0[i].state)
    decreases tick - base
  {
    if tick == base then (ring[Slot(base) := ring[Slot(base)].(state := s)], s)
    else
      var (done, c) := ReplayRing(w, ring, base, s, tick - 1, around);
      var c' := PredictStep(w, c, done[Slot(tick)].input, tick, around);
      (done[Slot(tick) := done[Slot(tick)].(state := c')], c')
  }

  lemma ReplayStart(w: Physics, ring: seq<Entry>, base: nat, s: CarSim, around: Surroundings)
    requires |ring| == RING
    ensures ReplayRing(w, ring, base, s, base, around) == (ring[Slot(base) := ring[Slot(base)].(state := s)], s)
  {
  }

  lemma ReplayMore(w: Physics, ring: seq<Entry>, base: nat, s: CarSim, tick: nat, around: Surroundings)
    requires |ring| == RING && base < tick
    ensures var (done, c) := ReplayRing(w, ring, base, s, tick - 1, around);
      var c' := PredictStep(w, c, done[Slot(tick)].input, tick, around);
      ReplayRing(w, ring, base, s, tick, around) == (done[Slot(tick) := done[Slot(tick)].(state := c')], c')
  {
  }

  // The ring and our car after reconciling with the host's record of it.
  function Reconciled(w: Physics, ring: seq<Entry>, local: CarSim, newest: nat, phase: MatchPhase, cs: NetState, around: Surroundings): (out: (seq<Entry>, CarSim))
    requires |ring| == RING
    ensures |out.0| == RING
  {
    var T := cs.lastInputTick;
    if CanReplay(ring, newest, phase, T)
    then ReplayRing(w, ring, T, ApplyNetState(ring[Slot(T)].state, cs, w.geometry), newest, around)
    else (ring, ApplyNetState(local, cs, w.geometry))
  }

  // Over less than a ring's length, replaying in the ring is simulating the inputs.
  lemma {:induction false} ReplayRingMeaning(w: Physics, ring: seq<Entry>, base: nat, s: CarSim, tick: nat, around: Surroundings, inputs: nat -> CarInput)
    requires |ring| == RING && base <= tick && tick - base < RING
    requires forall t: nat | base < t <= tick :: ring[Slot(t)].input == inputs(t)
    ensures ReplayRing(w, ring, base, s, tick, around).1 == Replayed(w, s, inputs, base, tick, around)
    ensures forall t: nat | base <= t <= tick ::
              ReplayRing(w, ring, base, s, tick, around).0[Slot(t)] == ring[Slot(t)].(state := Replayed(w, s, inputs, base, t, around))
    ensures forall t: nat | t < base && tick - t < RING :: ReplayRing(w, ring, base, s, tick, around).0[Slot(t)] == ring[Slot(t)]
    decreases tick - base
  {
    hide Slot, PredictStep;
    if tick == base {
      assert ReplayRing(w, ring, base, s, tick, around).0 == ring[Slot(base) := ring[Slot(base)].(state := s)];
      forall t: nat | base <= t <= tick
        ensures ReplayRing(w, ring, base, s, tick, around).0[Slot(t)] == ring[Slot(t)].(state := Replayed(w, s, inputs, base, t, around))
      {
        assert t == base;
      }
      forall t: nat | t < base && tick - t < RING
        ensures Slot(t) != Slot(base)
      {
        DifferentSlots(t, base);
      }
    } else {
      ReplayRingMeaning(w, ring, base, s, tick - 1, around, inputs);
      var done := ReplayRing(w, ring, base, s, tick - 1, around).0;
      assert done[Slot(tick)].input == inputs(tick);
      forall t: nat | tick - t < RING && t < tick
        ensures Slot(t) != Slot(tick)
      {
        DifferentSlots(t, tick);
      }
    }
  }

  // Reconciling is a fold: from the host's fields laid over our state after T, each
  // slot up to the newest gets the state after the inputs sent since T, and our car
  // the last of them.
  lemma ReconcileReplays(w: Physics, ring: seq<Entry>, first: nat, newest: nat, phase: MatchPhase, local: CarSim,
                         cs: NetState, around: Surroundings, inputs: nat -> CarInput)
    requires RingHolds(ring, first, newest) && CanReplay(ring, newest, phase, cs.lastInputTick)
    requires forall t: nat | first < t <= newest && newest - t < RING :: ring[Slot(t)].input == inputs(t)
    ensures var T := cs.lastInputTick;
            var merged := ApplyNetState(ring[Slot(T)].state, cs, w.geometry);
            var (ring', local') := Reconciled(w, ring, local, newest, phase, cs, around);
            && local' == Replayed(w, merged, inputs, T, newest, around)
            && (forall t: nat | T <= t <= newest ::
                  ring'[Slot(t)] == Entry(t, ring[Slot(t)].input, Replayed(w, merged, inputs, T, t, around)))
            && (forall t: nat | first <= t < T && newest - t < RING :: ring'[Slot(t)] == ring[Slot(t)])
  {
    var T := cs.lastInputTick;
    WindowIntact(ring, first, newest, phase, T);
    var merged := ApplyNetState(ring[Slot(T)].state, cs, w.geometry);
    ReplayRingMeaning(w, ring, T, merged, newest, around, inputs);
  }

  lemma RingKeepsTicks(ring: seq<Entry>, ring': seq<Entry>, first: nat, newest: nat)
    requires RingHolds(ring, first, newest) && |ring'| == RING && forall i | 0 <= i < RING :: ring'[i].tick == ring[i].tick
    ensures RingHolds(ring', first, newest)
  {
  }

  // The tick after the newest takes the place of the oldest one.
  lemma RingExtends(ring: seq<Entry>, first: nat, newest: nat, e: Entry)
    requires RingHolds(ring, first, newest) && first <= newest + 1 && e.tick == newest + 1
    ensures RingHolds(ring[Slot(e.tick) := e], first, newest + 1)
    ensures forall t: nat | first <= t <= newest && newest + 1 - t < RING :: ring[Slot(e.tick) := e][Slot(t)] == ring[Slot(t)]
  {
  }

  lemma DifferentSlots(t: nat, u: nat)
    requires t < u && u - t < RING
    ensures Slot(t) != Slot(u)
  {
  }
}
