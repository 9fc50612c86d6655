/** The state of a simulated car: what snapshots replicate and what stays local. */
module CarStates {
  import opened Vectors

  datatype Quat = Quat(x: real, y: real, z: real, w: real)

  datatype CarInput = CarInput(tick: nat, steer: real, throttle: real, brake: real, handbrake: bool, nitro: bool, carModel: nat)

  // Grid hold: no throttle, no steering, no nitro.
  function HoldInput(tick: nat): CarInput {
    CarInput(tick, 0.0, 0.0, 0.0, false, false, 0)
  }

  // The fields no snapshot carries and applying one leaves alone.
  datatype Memory = Memory(
    nitroRechargeScale: real, spinRate: real, gravityDir: Vec3, suspensionLast: seq<real>, steer: real,
    sectionS: real, lateral: real, offRoadTimer: real, flippedTimer: real, deadTimer: real, steerRamp: real,
    lastGoodSection: nat, lastGoodS: real, crashSpeed: real, deaths: nat, rescues: nat,
    impactWall: real, impactCar: real, takedownEvent: nat, takedowns: nat, ticks: nat,
    wheelContactMask: nat, wheelContact: seq<Vec3>)

  datatype CarSim = CarSim(
    position: Vec3, rotation: Quat, velocity: Vec3, angularVelocity: Vec3,
    distance: real, section: nat, nitro: real,
    alive: bool, drifting: bool, crashed: bool, nitroActive: bool, slipstream: bool,
    ghostTimer: real,
    speed: real, driftAngle: real,
    memory: Memory)

  // A car record of a snapshot; the flag bits are separate fields.
  datatype NetState = NetState(
    playerId: int, lastInputTick: nat,
    position: Vec3, rotation: Quat, velocity: Vec3, angularVelocity: Vec3,
    distance: real, trackSection: nat, nitro: real,
    alive: bool, drifting: bool, crashed: bool, nitroActive: bool, slipstream: bool, ghosted: bool,
    eliminated: bool)

  // The length of a vector and the drift angle in degrees.
  datatype Geometry = Geometry(length: Vec3 -> real, driftAngleDeg: (Quat, Vec3) -> real)

  const SHORT_GHOST := 0.25

  function ToNetState(s: CarSim, playerId: int, lastInputTick: nat): NetState {
    NetState(playerId, lastInputTick, s.position, s.rotation, s.velocity, s.angularVelocity,
             s.distance, s.section, s.nitro,
             s.alive, s.drifting, s.crashed, s.nitroActive, s.slipstream, s.ghostTimer > 0.0, false)
  }

  function ApplyNetState(s: CarSim, n: NetState, g: Geometry): CarSim {
    CarSim(n.position, n.rotation, n.velocity, n.angularVelocity,
           n.distance, n.trackSection, n.nitro,
           n.alive, n.drifting, n.crashed, n.nitroActive, n.slipstream,
           if !n.ghosted then 0.0 else if s.ghostTimer <= 0.0 then SHORT_GHOST else s.ghostTimer,
           g.length(n.velocity), g.driftAngleDeg(n.rotation, n.velocity),
           s.memory)
  }

  // Equal in everything the step reads: all but the drift angle.
  predicate Alike(a: CarSim, b: CarSim) {
    a.(driftAngle := 0.0) == b.(driftAngle := 0.0)
  }

  // The speed is that of the velocity and the ghost time is not negative.
  predicate Consistent(s: CarSim, g: Geometry) {
    s.speed == g.length(s.velocity) && s.ghostTimer >= 0.0
  }

  // A car is left as it was, up to the drift angle, by a snapshot of itself exactly
  // when it is consistent.
  lemma SnapshotOfItself(s: CarSim, playerId: int, tick: nat, g: Geometry)
    ensures Alike(ApplyNetState(s, ToNetState(s, playerId, tick), g), s) <==> Consistent(s, g)
  {
  }

  // A snapshot of one car replaces, in another with the same ghost time left and the
  // same memory, everything that matters.
  lemma SnapshotReplaces(s: CarSim, host: CarSim, playerId: int, tick: nat, g: Geometry)
    requires Consistent(host, g) && Alike(s, host)
    ensures Alike(ApplyNetState(s, ToNetState(host, playerId, tick), g), host)
  {
  }
}
