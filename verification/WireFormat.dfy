/** Inputs and car states on the wire: what quantisation loses, and what it keeps. */
module WireFormat {
  import opened Basics
  import opened CarStates
  import opened Vectors

  type Short = x: int | -32768 <= x < 32768

  // To the nearest whole number, halves away from zero.
  function Round(x: real): int {
    if x >= 0.0 then (x + 0.5).Floor else -((-x + 0.5).Floor)
  }

  function Times(x: real, scale: real): real {
    x * scale
  }

  // Steps of 1/scale, cut to -32767..32767.
  function Q16(v: real, scale: real): Short {
    var s := Round(Times(v, scale));
    if s > 32767 then 32767 else if s < -32767 then -32767 else s
  }

  function Qu8(v: real): Byte {
    RoundWithin(Times(Clamp(v, 0.0, 1.0), 255.0), 0, 255);
    Round(Times(Clamp(v, 0.0, 1.0), 255.0))
  }

  lemma RoundNear(x: real)
    ensures -0.5 <= Round(x) as real - x <= 0.5
  {
  }

  lemma RoundWhole(n: int)
    ensures Round(n as real) == n
  {
  }

  lemma RoundWithin(x: real, lo: int, hi: int)
    requires lo as real <= x <= hi as real
    ensures lo <= Round(x) <= hi
  {
    RoundNear(x);
  }

  // ---- inputs ---------------------------------------------------------------------

  datatype InputW = InputW(tick: nat, steer: Byte, throttle: Byte, brake: Byte, flags: Byte)

  // A signed byte in two's complement.
  function ToByte(s: int): Byte
    requires -128 <= s < 128
  {
    if s < 0 then s + 256 else s
  }

  function FromByte(b: Byte): int {
    if b >= 128 then b - 256 else b
  }

  function SteerStep(steer: real): (s: int)
    ensures -127 <= s <= 127
  {
    RoundWithin(Times(Clamp(steer, -1.0, 1.0), 127.0), -127, 127);
    Round(Times(Clamp(steer, -1.0, 1.0), 127.0))
  }

  function FlagBits(handbrake: bool, nitro: bool, carModel: nat): Byte {
    (if handbrake then 1 else 0) + (if nitro then 2 else 0) + (if carModel != 0 then 4 else 0)
  }

  function PackInput(i: CarInput): InputW {
    InputW(i.tick, ToByte(SteerStep(i.steer)), Qu8(i.throttle), Qu8(i.brake), FlagBits(i.handbrake, i.nitro, i.carModel))
  }

  function UnpackInput(w: InputW): CarInput {
    CarInput(w.tick, FromByte(w.steer) as real / 127.0, w.throttle as real / 255.0, w.brake as real / 255.0,
             w.flags % 2 == 1, w.flags / 2 % 2 == 1, if w.flags / 4 % 2 == 1 then 1 else 0)
  }

  lemma StepBack(n: int, scale: real)
    requires scale > 0.0
    ensures Times(n as real / scale, scale) == n as real
  {
  }

  lemma AtMost(a: real, b: real, scale: real)
    requires a <= b && scale > 0.0
    ensures a * scale <= b * scale
  {
  }

  // A whole number of steps comes back as it was.
  lemma Qu8OfStep(b: Byte)
    ensures Qu8(b as real / 255.0) == b
  {
    StepBack(b, 255.0);
    RoundWhole(b);
  }

  lemma SteerOfStep(s: int)
    requires -127 <= s <= 127
    ensures SteerStep(s as real / 127.0) == s
  {
    StepBack(s, 127.0);
    RoundWhole(s);
  }

  // Packing an unpacked input gives the same wire word exactly when it is one that packing
  // makes: a steer byte other than -128 and no flag beyond the third.
  lemma PackOfUnpack(w: InputW)
    ensures PackInput(UnpackInput(w)) == w <==> w.steer != 128 && w.flags < 8
  {
    Qu8OfStep(w.throttle);
    Qu8OfStep(w.brake);
    FlagsBack(w.flags);
    var s := FromByte(w.steer);
    if s == -128 {
      assert Clamp(s as real / 127.0, -1.0, 1.0) == -1.0;
      RoundWhole(-127);
    } else {
      SteerOfStep(s);
    }
  }

  lemma FlagsBack(flags: Byte)
    ensures FlagBits(flags % 2 == 1, flags / 2 % 2 == 1, if flags / 4 % 2 == 1 then 1 else 0) == flags % 8
  {
  }

  // So a second trip over the wire changes nothing.
  lemma InputSettles(i: CarInput)
    ensures PackInput(UnpackInput(PackInput(i))) == PackInput(i)
  {
    PackOfUnpack(PackInput(i));
  }

  lemma StepError(v: real, scale: real, n: int)
    requires scale > 0.0 && -0.5 <= n as real - Times(v, scale) <= 0.5
    ensures Abs(n as real / scale - v) <= 0.5 / scale
  {
    Unscaled(n as real, v, scale);
    Unscaled(0.5, 0.0, scale);
    Within(n as real / scale - v, 0.5 / scale, scale);
  }

  lemma Unscaled(n: real, v: real, scale: real)
    requires scale > 0.0
    ensures Times(n / scale - v, scale) == n - Times(v, scale)
  {
    assert n / scale * scale == n;
  }

  lemma Within(e: real, half: real, scale: real)
    requires scale > 0.0 && -Times(half, scale) <= Times(e, scale) <= Times(half, scale)
    ensures Abs(e) <= half
  {
    if e > half {
      ScaledLess(half, e, scale);
    }
    if -e > half {
      ScaledLess(half, -e, scale);
      TimesNegated(e, scale);
    }
  }

  lemma TimesNegated(e: real, scale: real)
    ensures Times(-e, scale) == -Times(e, scale)
  {
  }

  lemma ScaledLess(a: real, b: real, scale: real)
    requires a < b && scale > 0.0
    ensures a * scale < b * scale
  {
  }

  // What the trip over the wire loses: at most half a step of each pedal and the steering
  // (clamped to their range), and nothing of the tick and the buttons.
  lemma InputError(i: CarInput)
    ensures var back := UnpackInput(PackInput(i));
            && back.tick == i.tick && back.handbrake == i.handbrake && back.nitro == i.nitro
            && (back.carModel == 1 <==> i.carModel != 0) && back.carModel <= 1
            && Abs(back.steer - Clamp(i.steer, -1.0, 1.0)) <= 1.0 / 254.0
            && Abs(back.throttle - Clamp(i.throttle, 0.0, 1.0)) <= 1.0 / 510.0
            && Abs(back.brake - Clamp(i.brake, 0.0, 1.0)) <= 1.0 / 510.0
  {
    hide Round, Clamp, Times;
    RoundNear(Times(Clamp(i.steer, -1.0, 1.0), 127.0));
    StepError(Clamp(i.steer, -1.0, 1.0), 127.0, SteerStep(i.steer));
    RoundNear(Times(Clamp(i.throttle, 0.0, 1.0), 255.0));
    StepError(Clamp(i.throttle, 0.0, 1.0), 255.0, Qu8(i.throttle));
    RoundNear(Times(Clamp(i.brake, 0.0, 1.0), 255.0));
    StepError(Clamp(i.brake, 0.0, 1.0), 255.0, Qu8(i.brake));
  }

  // Keyboard inputs, all or nothing on every axis, arrive exactly as they were.
  lemma KeyboardExact(i: CarInput)
    requires i.steer in {-1.0, 0.0, 1.0} && i.throttle in {0.0, 1.0} && i.brake in {0.0, 1.0} && i.carModel <= 1
    ensures UnpackInput(PackInput(i)) == i
  {
    Corner(i.steer, 127);
    Corner(i.throttle, 255);
    Corner(i.brake, 255);
  }

  lemma Corner(v: real, steps: int)
    requires v in {-1.0, 0.0, 1.0} && steps > 0
    ensures Round(Times(v, steps as real)) == (if v == 0.0 then 0 else if v > 0.0 then steps else -steps)
    ensures Round(Times(v, steps as real)) as real / steps as real == v
  {
    RoundWhole(0);
    RoundWhole(steps);
    RoundWhole(-steps);
  }

  // ---- cars -------------------------------------------------------------------------

  datatype QuatW = QuatW(x: Short, y: Short, z: Short, w: Short)
  datatype VecW = VecW(x: Short, y: Short, z: Short)

  type Root = real -> real

  ghost predicate RootOk(sqrt: Root) {
    forall x | x >= 0.0 :: sqrt(x) >= 0.0 && sqrt(x) * sqrt(x) == x
  }

  datatype CarState = CarState(
    playerId: int, lastInputTick: nat, position: Vec3, rotation: Quat, velocity: Vec3, angularVelocity: Vec3,
    driftScore: real, distance: real, trackSection: nat, flags: Byte, nitro: real, place: Byte, eliminatedOrder: Byte)

  datatype CarW = CarW(
    playerId: int, lastInputTick: nat, position: Vec3, rotation: QuatW, velocity: VecW, angularVelocity: VecW,
    driftScore: real, distance: real, trackSection: nat, flags: Byte, nitro: Byte, place: Byte, eliminatedOrder: Byte)

  function PackVec(v: Vec3, scale: real): VecW {
    VecW(Q16(v.x, scale), Q16(v.y, scale), Q16(v.z, scale))
  }

  function UnpackVec(v: VecW, scale: real): Vec3
    requires scale > 0.0
  {
    Vec3(v.x as real / scale, v.y as real / scale, v.z as real / scale)
  }

  function Norm2(q: Quat): (n: real)
    ensures n >= 0.0
  {
    Square(q.x) + Square(q.y) + Square(q.z) + Square(q.w)
  }

  const SHORTEST := 0.000001

  // Of unit length; a vanishing rotation becomes the one that does nothing.
  function Unit(sqrt: Root, q: Quat): Quat
    requires RootOk(sqrt)
  {
    var l := sqrt(Norm2(q));
    if l < SHORTEST then Quat(0.0, 0.0, 0.0, 1.0) else Quat(q.x / l, q.y / l, q.z / l, q.w / l)
  }

  function PackQuat(sqrt: Root, q: Quat): QuatW
    requires RootOk(sqrt)
  {
    var u := Unit(sqrt, q);
    if u.w < 0.0 then QuatW(Q16(-u.x, 32767.0), Q16(-u.y, 32767.0), Q16(-u.z, 32767.0), Q16(-u.w, 32767.0))
    else QuatW(Q16(u.x, 32767.0), Q16(u.y, 32767.0), Q16(u.z, 32767.0), Q16(u.w, 32767.0))
  }

  function UnpackQuat(sqrt: Root, q: QuatW): Quat
    requires RootOk(sqrt)
  {
    Unit(sqrt, Quat(q.x as real / 32767.0, q.y as real / 32767.0, q.z as real / 32767.0, q.w as real / 32767.0))
  }

  function PackCar(sqrt: Root, c: CarState): CarW
    requires RootOk(sqrt)
  {
    CarW(c.playerId, c.lastInputTick, c.position, PackQuat(sqrt, c.rotation), PackVec(c.velocity, 100.0), PackVec(c.angularVelocity, 1000.0),
         c.driftScore, c.distance, c.trackSection, c.flags, Qu8(c.nitro), c.place, c.eliminatedOrder)
  }

  function UnpackCar(sqrt: Root, w: CarW): CarState
    requires RootOk(sqrt)
  {
    CarState(w.playerId, w.lastInputTick, w.position, UnpackQuat(sqrt, w.rotation), UnpackVec(w.velocity, 100.0), UnpackVec(w.angularVelocity, 1000.0),
             w.driftScore, w.distance, w.trackSection, w.flags, w.nitro as real / 255.0, w.place, w.eliminatedOrder)
  }

  // Half a step is the most that is lost exactly up to half a step beyond the largest value.
  lemma Q16Error(v: real, scale: real)
    requires scale > 0.0
    ensures Abs(Q16(v, scale) as real / scale - v) <= 0.5 / scale <==> Abs(v) <= 32767.5 / scale
  {
    hide Round, Times;
    var x, q := Times(v, scale), Q16(v, scale);
    RoundNear(x);
    ScaleUp(v, scale, 32767.5);
    Saturated(x);
    if Abs(x) <= 32767.5 {
      assert -0.5 <= q as real - x <= 0.5;
      StepError(v, scale, q);
      assert Abs(q as real / scale - v) <= 0.5 / scale;
    } else {
      FarError(v, scale, q);
    }
  }

  // Past the largest value by more than half a step, the largest is what is sent.
  lemma Saturated(x: real)
    ensures x > 32767.5 ==> Round(x) > 32767
    ensures x < -32767.5 ==> Round(x) < -32767
    ensures Abs(x) <= 32767.5 ==> -32768 <= Round(x) <= 32768
    ensures Abs(x) <= 32767.5 && Round(x) == 32768 ==> x == 32767.5
    ensures Abs(x) <= 32767.5 && Round(x) == -32768 ==> x == -32767.5
  {
  }

  lemma ScaleUp(v: real, scale: real, bound: real)
    requires scale > 0.0
    ensures Abs(v) <= bound / scale <==> Abs(Times(v, scale)) <= bound
  {
    var limit := bound / scale;
    assert limit * scale == bound;
    var a := Abs(v);
    AbsScales(v, scale);
    if a < limit {
      ScaledLess(a, limit, scale);
    } else if a > limit {
      ScaledLess(limit, a, scale);
    }
  }

  lemma AbsScales(v: real, scale: real)
    requires scale > 0.0
    ensures Abs(Times(v, scale)) == Abs(v) * scale
  {
    if v < 0.0 {
      ScaledLess(v, 0.0, scale);
    } else if v > 0.0 {
      ScaledLess(0.0, v, scale);
    }
  }

  lemma FarError(v: real, scale: real, n: int)
    requires scale > 0.0 && Abs(n as real - Times(v, scale)) > 0.5
    ensures Abs(n as real / scale - v) > 0.5 / scale
  {
    hide Times;
    var e, half := n as real / scale - v, 0.5 / scale;
    ErrorScales(v, scale, n);
    StepBackReal(0.5, scale);
    TimesAbs(e, scale);
    if Abs(e) <= half {
      TimesAtMost(Abs(e), half, scale);
    }
  }

  lemma ErrorScales(v: real, scale: real, n: int)
    requires scale > 0.0
    ensures Times(n as real / scale - v, scale) == n as real - Times(v, scale)
  {
    StepBack(n, scale);
  }

  lemma StepBackReal(x: real, scale: real)
    requires scale > 0.0
    ensures Times(x / scale, scale) == x
  {
  }

  lemma TimesAbs(v: real, scale: real)
    requires scale > 0.0
    ensures Abs(Times(v, scale)) == Times(Abs(v), scale)
  {
    AbsScales(v, scale);
  }

  lemma TimesAtMost(a: real, b: real, scale: real)
    requires a <= b && scale > 0.0
    ensures Times(a, scale) <= Times(b, scale)
  {
    AtMost(a, b, scale);
  }

  // A short other than the lowest comes back as it was.
  lemma Q16OfStep(n: Short, scale: real)
    requires scale > 0.0
    ensures Q16(n as real / scale, scale) == n <==> n != -32768
  {
    StepBack(n, scale);
    RoundWhole(n);
  }

  lemma Q16Range(v: real, scale: real)
    ensures Q16(v, scale) != -32768
  {
    hide Round;
  }

  // Apart from the rotation, a second trip over the wire changes nothing.
  lemma CarSettles(sqrt: Root, c: CarState)
    requires RootOk(sqrt)
    ensures var w := PackCar(sqrt, c);
            PackCar(sqrt, UnpackCar(sqrt, w)).(rotation := w.rotation) == w
  {
    hide Q16, PackQuat, UnpackQuat, Qu8;
    var w := PackCar(sqrt, c);
    VecSettles(c.velocity, 100.0);
    VecSettles(c.angularVelocity, 1000.0);
    Qu8OfStep(w.nitro);
  }

  lemma VecSettles(v: Vec3, scale: real)
    requires scale > 0.0
    ensures PackVec(UnpackVec(PackVec(v, scale), scale), scale) == PackVec(v, scale)
  {
    hide Q16;
    Q16Range(v.x, scale);
    Q16Range(v.y, scale);
    Q16Range(v.z, scale);
    Q16OfStep(Q16(v.x, scale), scale);
    Q16OfStep(Q16(v.y, scale), scale);
    Q16OfStep(Q16(v.z, scale), scale);
  }

  // What a car's trip loses: up to 5 mm/s of each velocity exactly within 327.675 m/s, and
  // up to 0.0005 rad/s of each turning speed exactly within 32.7675 rad/s.
  lemma CarError(sqrt: Root, c: CarState)
    requires RootOk(sqrt)
    ensures var back := UnpackCar(sqrt, PackCar(sqrt, c));
            && back.(rotation := c.rotation, velocity := c.velocity, angularVelocity := c.angularVelocity, nitro := c.nitro) == c
            && (Abs(back.velocity.x - c.velocity.x) <= 0.005 <==> Abs(c.velocity.x) <= 327.675)
            && (Abs(back.velocity.y - c.velocity.y) <= 0.005 <==> Abs(c.velocity.y) <= 327.675)
            && (Abs(back.velocity.z - c.velocity.z) <= 0.005 <==> Abs(c.velocity.z) <= 327.675)
            && (Abs(back.angularVelocity.x - c.angularVelocity.x) <= 0.0005 <==> Abs(c.angularVelocity.x) <= 32.7675)
            && (Abs(back.angularVelocity.y - c.angularVelocity.y) <= 0.0005 <==> Abs(c.angularVelocity.y) <= 32.7675)
            && (Abs(back.angularVelocity.z - c.angularVelocity.z) <= 0.0005 <==> Abs(c.angularVelocity.z) <= 32.7675)
            && Abs(back.nitro - Clamp(c.nitro, 0.0, 1.0)) <= 1.0 / 510.0
  {
    hide Q16, PackQuat, UnpackQuat, Round, Times, Clamp, Qu8, Abs;
    SpeedError(c.velocity.x);
    SpeedError(c.velocity.y);
    SpeedError(c.velocity.z);
    TurningError(c.angularVelocity.x);
    TurningError(c.angularVelocity.y);
    TurningError(c.angularVelocity.z);
    GaugeError(c.nitro);
  }

  lemma SpeedError(v: real)
    ensures Abs(Q16(v, 100.0) as real / 100.0 - v) <= 0.005 <==> Abs(v) <= 327.675
  {
    hide Q16, Abs;
    Q16Error(v, 100.0);
  }

  lemma TurningError(v: real)
    ensures Abs(Q16(v, 1000.0) as real / 1000.0 - v) <= 0.0005 <==> Abs(v) <= 32.7675
  {
    hide Q16, Abs;
    Q16Error(v, 1000.0);
  }

  lemma GaugeError(v: real)
    ensures Abs(Qu8(v) as real / 255.0 - Clamp(v, 0.0, 1.0)) <= 1.0 / 510.0
  {
    hide Round, Times, Clamp;
    RoundNear(Times(Clamp(v, 0.0, 1.0), 255.0));
    StepError(Clamp(v, 0.0, 1.0), 255.0, Qu8(v));
  }

  // ---- rotations --------------------------------------------------------------------

  function Opposite(q: Quat): Quat {
    Quat(-q.x, -q.y, -q.z, -q.w)
  }

  lemma OppositeNorm(q: Quat)
    ensures Norm2(Opposite(q)) == Norm2(q)
  {
    SquareEven(q.x);
    SquareEven(q.y);
    SquareEven(q.z);
    SquareEven(q.w);
  }

  lemma Negated(x: real, l: real)
    requires l > 0.0
    ensures -x / l == -(x / l) && (x / l == 0.0 <==> x == 0.0) && (x / l < 0.0 <==> x < 0.0)
  {
    var p, n := x / l, -x / l;
    assert p * l == x && n * l == -x;
    assert (n + p) * l == 0.0;
  }

  lemma OppositeUnit(sqrt: Root, q: Quat)
    requires RootOk(sqrt) && sqrt(Norm2(q)) >= SHORTEST
    ensures Unit(sqrt, Opposite(q)) == Opposite(Unit(sqrt, q)) && (Unit(sqrt, q).w == 0.0 <==> q.w == 0.0)
  {
    hide Norm2;
    OppositeNorm(q);
    var l := sqrt(Norm2(q));
    Negated(q.x, l);
    Negated(q.y, l);
    Negated(q.z, l);
    Negated(q.w, l);
  }

  lemma UnitNorm(sqrt: Root, q: Quat)
    requires RootOk(sqrt) && sqrt(Norm2(q)) >= SHORTEST
    ensures Norm2(Unit(sqrt, q)) == 1.0
  {
    hide Square, Times;
    var l := sqrt(Norm2(q));
    DividedSquare(q.x, l);
    DividedSquare(q.y, l);
    DividedSquare(q.z, l);
    DividedSquare(q.w, l);
    var u := Unit(sqrt, q);
    Distributes(Square(u.x), Square(u.y), Square(u.z), Square(u.w), l * l);
    OneIs(Norm2(u), l * l, Norm2(q));
  }

  lemma DividedSquare(x: real, l: real)
    requires l > 0.0
    ensures Times(Square(x / l), l * l) == Square(x)
  {
    var f := x / l;
    assert f * l == x;
    assert f * f * (l * l) == (f * l) * (f * l);
  }

  lemma Distributes(a: real, b: real, c: real, d: real, f: real)
    ensures Times(a + b + c + d, f) == Times(a, f) + Times(b, f) + Times(c, f) + Times(d, f)
  {
  }

  lemma OneIs(n: real, l2: real, n0: real)
    requires Times(n, l2) == n0 == l2 && l2 > 0.0
    ensures n == 1.0
  {
    assert (n - 1.0) * l2 == 0.0;
  }

  // A unit rotation has a component of more than half.
  lemma SomeComponent(u: Quat)
    requires Norm2(u) == 1.0
    ensures Abs(u.x) >= 0.5 || Abs(u.y) >= 0.5 || Abs(u.z) >= 0.5 || Abs(u.w) >= 0.5
  {
    hide Square;
    if Abs(u.x) < 0.5 && Abs(u.y) < 0.5 && Abs(u.z) < 0.5 && Abs(u.w) < 0.5 {
      SmallSquare(u.x);
      SmallSquare(u.y);
      SmallSquare(u.z);
      SmallSquare(u.w);
    }
  }

  lemma SmallSquare(x: real)
    requires Abs(x) < 0.5
    ensures Square(x) < 0.25
  {
    SquareEven(x);
    SmallPositive(Abs(x));
  }

  lemma SmallPositive(a: real)
    requires 0.0 <= a < 0.5
    ensures Square(a) < 0.25
  {
    if a > 0.0 {
      ScaledLess(a, 0.5, a);
    }
  }

  lemma OppositeSteps(x: real)
    requires Abs(x) >= 0.5
    ensures Q16(x, 32767.0) != Q16(-x, 32767.0)
  {
  }

  // A rotation and its opposite, which is the same rotation, are packed alike exactly when
  // it has a part w other than zero, or vanishes.
  lemma OppositesPackAlike(sqrt: Root, q: Quat)
    requires RootOk(sqrt)
    ensures PackQuat(sqrt, Opposite(q)) == PackQuat(sqrt, q) <==> q.w != 0.0 || sqrt(Norm2(q)) < SHORTEST
  {
    hide Q16, Norm2;
    OppositeNorm(q);
    if sqrt(Norm2(q)) >= SHORTEST {
      OppositeUnit(sqrt, q);
      var u := Unit(sqrt, q);
      if q.w == 0.0 {
        UnitNorm(sqrt, q);
        SomeComponent(u);
        HalfTurnsDiffer(u);
      }
    }
  }

  lemma HalfTurnsDiffer(u: Quat)
    requires Abs(u.x) >= 0.5 || Abs(u.y) >= 0.5 || Abs(u.z) >= 0.5
    ensures Q16(u.x, 32767.0) != Q16(-u.x, 32767.0) || Q16(u.y, 32767.0) != Q16(-u.y, 32767.0) || Q16(u.z, 32767.0) != Q16(-u.z, 32767.0)
  {
    hide Q16;
    if Abs(u.x) >= 0.5 {
      OppositeSteps(u.x);
    } else if Abs(u.y) >= 0.5 {
      OppositeSteps(u.y);
    } else {
      OppositeSteps(u.z);
    }
  }

  // Each component of the rotation sent is within half a step of the unit one kept.
  lemma QuatError(sqrt: Root, q: Quat)
    requires RootOk(sqrt)
    ensures var u, w := Unit(sqrt, q), PackQuat(sqrt, q);
            var k := if u.w < 0.0 then Opposite(u) else u;
            && k.w >= 0.0
            && Abs(w.x as real / 32767.0 - k.x) <= 0.5 / 32767.0 && Abs(w.y as real / 32767.0 - k.y) <= 0.5 / 32767.0
            && Abs(w.z as real / 32767.0 - k.z) <= 0.5 / 32767.0 && Abs(w.w as real / 32767.0 - k.w) <= 0.5 / 32767.0
  {
    hide Q16, Norm2, Abs;
    var u := Unit(sqrt, q);
    UnitSmall(sqrt, q);
    Component(u.x);
    Component(u.y);
    Component(u.z);
    Component(u.w);
  }

  lemma UnitSmall(sqrt: Root, q: Quat)
    requires RootOk(sqrt)
    ensures var u := Unit(sqrt, q); Abs(u.x) <= 1.0 && Abs(u.y) <= 1.0 && Abs(u.z) <= 1.0 && Abs(u.w) <= 1.0
  {
    if sqrt(Norm2(q)) >= SHORTEST {
      UnitNorm(sqrt, q);
      OneBounds(Unit(sqrt, q));
    }
  }

  lemma OneBounds(u: Quat)
    requires Norm2(u) == 1.0
    ensures Abs(u.x) <= 1.0 && Abs(u.y) <= 1.0 && Abs(u.z) <= 1.0 && Abs(u.w) <= 1.0
  {
    hide Abs, Square;
    LargeSquare(u.x);
    LargeSquare(u.y);
    LargeSquare(u.z);
    LargeSquare(u.w);
  }

  lemma LargeSquare(x: real)
    ensures Abs(x) > 1.0 ==> Square(x) > 1.0
  {
    var a := Abs(x);
    SquareEven(x);
    if a > 1.0 {
      ScaledLess(1.0, a, a);
    }
  }

  lemma Component(v: real)
    requires Abs(v) <= 1.0
    ensures Abs(Q16(v, 32767.0) as real / 32767.0 - v) <= 0.5 / 32767.0
    ensures Abs(Q16(-v, 32767.0) as real / 32767.0 - (-v)) <= 0.5 / 32767.0
  {
    hide Q16;
    Q16Error(v, 32767.0);
    Q16Error(-v, 32767.0);
  }
}
