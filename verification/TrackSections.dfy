/** Angles: radians, wrapping to half a turn either way. */
module Angles {
  import opened Basics

  const PI := 3.14159265358979323846

  function Radians(degrees: real): real {
    degrees * PI / 180.0
  }

  // The remainder of x / y with the quotient cut towards zero.
  function Fmod(x: real, y: real): real
    requires y > 0.0
  {
    var q := x / y;
    x - y * ((if q >= 0.0 then q.Floor else -((-q).Floor)) as real)
  }

  function WrapAngle(a: real): real {
    var r := Fmod(a + PI, 2.0 * PI);
    (if r < 0.0 then r + 2.0 * PI else r) - PI
  }

  // Wrapping takes away whole turns.
  lemma WrapIsWholeTurns(a: real) returns (turns: int)
    ensures WrapAngle(a) == a - 2.0 * PI * (turns as real)
  {
    var q := (a + PI) / (2.0 * PI);
    var k := if q >= 0.0 then q.Floor else -((-q).Floor);
    turns := if Fmod(a + PI, 2.0 * PI) < 0.0 then k - 1 else k;
  }

  // An angle less than a whole turn less the band away can look like one in the band
  // only by being in it.
  lemma WrappedInBand(a: real, band: real)
    requires 0.0 <= band < PI && Abs(a) < 2.0 * PI - band && Abs(WrapAngle(a)) <= band
    ensures Abs(a) <= band && WrapAngle(a) == a
  {
    var turns := WrapIsWholeTurns(a);
    WholeTurns(turns);
  }

  lemma WholeTurns(turns: int)
    ensures turns >= 1 ==> 2.0 * PI * (turns as real) >= 2.0 * PI
    ensures turns <= -1 ==> 2.0 * PI * (turns as real) <= -2.0 * PI
    ensures turns == 0 ==> 2.0 * PI * (turns as real) == 0.0
  {
  }

  // Angles less than half a turn stay as they are.
  lemma WrapSmall(a: real)
    requires -PI < a < PI
    ensures WrapAngle(a) == a
  {
    var q := (a + PI) / (2.0 * PI);
    assert q * (2.0 * PI) == a + PI;
    assert 0.0 < q < 1.0;
  }
}

/** One section of road: a straight or an arc with a height profile. */
module TrackSections {
  import opened Angles
  import opened Basics
  import opened Vectors

  datatype Trig = Trig(sin: real -> real, cos: real -> real) {
    ghost predicate Valid() {
      sin(0.0) == 0.0 && sin(PI) == 0.0 && cos(0.0) == 1.0
    }
  }

  datatype SectionType = StartSection | Line | Arc
  datatype FeatureKind = Start | Straight | Sweeper | Corner | Hairpin | Esses | Chicane | Tightening | Opening
  datatype RoadsideStyle = Forest | Cliff | RockWall | Runoff

  // Left and right.
  datatype Sides = Sides(left: real, right: real)

  datatype Section = Section(
    index: nat, kind: SectionType, feature: FeatureKind, featurePart: nat,
    style: RoadsideStyle, prevStyle: RoadsideStyle, runoff: Sides, prevRunoff: Sides,
    start: Vec3, startYaw: real, length: real, turnAngle: real, radius: real,
    drop: real, bump: real, startDistance: real, end: Vec3, endYaw: real)

  datatype Pose = Pose(pos: Vec3, yaw: real, distance: real)

  const LEVEL := Sides(0.0, 0.0)

  function HorizontalForward(t: Trig, yaw: real): Vec3 {
    Vec3(-t.sin(yaw), 0.0, -t.cos(yaw))
  }

  function HorizontalRight(t: Trig, yaw: real): Vec3 {
    Vec3(t.cos(yaw), 0.0, -t.sin(yaw))
  }

  function RotateY(t: Trig, v: Vec3, theta: real): Vec3 {
    var c, s := t.cos(theta), t.sin(theta);
    Vec3(v.x * c + v.z * s, v.y, -v.x * s + v.z * c)
  }

  function EndPose(s: Section): Pose {
    Pose(s.end, s.endYaw, s.startDistance + s.length)
  }

  function MakeLine(t: Trig, p: Pose, length: real, drop: real, bump: real): Section {
    var end := Plus(p.pos, Times(HorizontalForward(t, p.yaw), length));
    Section(0, Line, Straight, 0, Forest, Forest, LEVEL, LEVEL,
            p.pos, p.yaw, length, 0.0, 0.0, drop, bump, p.distance, end.(y := p.pos.y - drop), p.yaw)
  }

  // The start turned by an angle about the centre of a bend of curvature k.
  function TurnedAbout(t: Trig, start: Vec3, yaw: real, k: real, angle: real): Vec3
    requires k != 0.0
  {
    var centre := Minus(start, Times(HorizontalRight(t, yaw), 1.0 / k));
    Plus(centre, RotateY(t, Minus(start, centre), angle))
  }

  function ArcPoint(t: Trig, start: Vec3, yaw: real, k: real, at: real): Vec3
    requires k != 0.0
  {
    TurnedAbout(t, start, yaw, k, k * at)
  }

  // Positive angles turn left.
  function MakeArc(t: Trig, p: Pose, radius: real, signedAngle: real, drop: real): Section
    requires radius > 0.0 && signedAngle != 0.0
  {
    var length := radius * Abs(signedAngle);
    ArcHasLength(radius, signedAngle);
    var k := Curvature(signedAngle, length);
    CurvatureNonzero(signedAngle, length);
    var end := TurnedAbout(t, p.pos, p.yaw, k, signedAngle);
    Section(0, Arc, Straight, 0, Forest, Forest, LEVEL, LEVEL,
            p.pos, p.yaw, length, signedAngle, radius, drop, 0.0, p.distance, end.(y := p.pos.y - drop), p.yaw + signedAngle)
  }

  lemma ArcHasLength(radius: real, signedAngle: real)
    requires radius > 0.0 && signedAngle != 0.0
    ensures radius * Abs(signedAngle) > 0.0
  {
  }

  lemma CurvatureNonzero(angle: real, length: real)
    requires angle != 0.0 && length > 0.0
    ensures Curvature(angle, length) != 0.0
  {
    assert (angle / length) * length == angle;
  }

  function Curvature(turnAngle: real, length: real): real {
    if length > 0.0 then turnAngle / length else 0.0
  }

  function YawAt(s: Section, at: real): real {
    s.startYaw + Curvature(s.turnAngle, s.length) * Clamp(at, 0.0, s.length)
  }

  function Smooth01(x: real): real {
    x * x * (3.0 - 2.0 * x)
  }

  function HeightAt(t: Trig, s: Section, at: real): real {
    if s.length <= 0.0 then s.start.y
    else
      var x := Clamp(at / s.length, 0.0, 1.0);
      var b := t.sin(PI * x);
      s.start.y - s.drop * Smooth01(x) + s.bump * b * b
  }

  // Without a bump the road falls all the way, between its two ends, and leaves them level:
  // near either end the height differs from the end's by the square of the way only.
  lemma HeightFalls(t: Trig, s: Section, x: real, y: real)
    requires s.length > 0.0 && s.bump == 0.0 && s.drop >= 0.0 && 0.0 <= x <= y <= 1.0
    ensures var a, b := HeightAt(t, s, x * s.length), HeightAt(t, s, y * s.length);
            && s.start.y - s.drop <= b <= a <= s.start.y
            && s.start.y - a <= Part(s.drop, 3.0 * x * x) && b - (s.start.y - s.drop) <= Part(s.drop, 3.0 * (1.0 - y) * (1.0 - y))
  {
    hide Smooth01, HeightAt, Part, Lift;
    HeightThere(t, s, x, x * s.length);
    HeightThere(t, s, y, y * s.length);
    SmoothRises(x, y);
    FallBetween(s.drop, Smooth01(x), Smooth01(y), 3.0 * x * x, 3.0 * (1.0 - y) * (1.0 - y));
  }

  lemma FallBetween(drop: real, sx: real, sy: real, nearTop: real, nearEnd: real)
    requires drop >= 0.0 && 0.0 <= sx <= sy <= 1.0 && sx <= nearTop && 1.0 - sy <= nearEnd
    ensures 0.0 <= Part(drop, sx) <= Part(drop, sy) <= drop
    ensures Part(drop, sx) <= Part(drop, nearTop)
    ensures drop - Part(drop, sy) <= Part(drop, nearEnd)
  {
    Weighted(drop, 0.0, sx);
    Weighted(drop, sx, sy);
    Weighted(drop, sy, 1.0);
    Weighted(drop, sx, nearTop);
    Weighted(drop, 1.0 - sy, nearEnd);
  }

  // A bump lifts or lowers that by at most its height, and not at all at the ends.
  lemma BumpAdds(t: Trig, s: Section, x: real)
    requires s.length > 0.0 && 0.0 <= x <= 1.0 && t.Valid() && Abs(t.sin(PI * x)) <= 1.0
    ensures var flat, lifted := HeightAt(t, s.(bump := 0.0), x * s.length), HeightAt(t, s, x * s.length);
            && Abs(lifted - flat) <= Abs(s.bump) && (x == 0.0 || x == 1.0 ==> lifted == flat)
            && (s.bump >= 0.0 ==> lifted >= flat) && (s.bump <= 0.0 ==> lifted <= flat)
  {
    hide Smooth01, HeightAt, Part, Lift;
    HeightThere(t, s, x, x * s.length);
    HeightThere(t, s.(bump := 0.0), x, x * s.length);
    SquareWithin(s.bump, t.sin(PI * x));
  }

  function Lift(bump: real, b: real): real {
    bump * b * b
  }

  lemma HeightThere(t: Trig, s: Section, x: real, at: real)
    requires s.length > 0.0 && 0.0 <= x <= 1.0 && at == x * s.length
    ensures HeightAt(t, s, at) == s.start.y - Part(s.drop, Smooth01(x)) + Lift(s.bump, t.sin(PI * x))
    ensures s.bump == 0.0 ==> HeightAt(t, s, at) == s.start.y - Part(s.drop, Smooth01(x))
  {
    hide Smooth01;
    ExactQuotient(at, s.length, x);
  }

  lemma SmoothRises(x: real, y: real)
    requires 0.0 <= x <= y <= 1.0
    ensures 0.0 <= Smooth01(x) <= Smooth01(y) <= 1.0
    ensures Smooth01(x) <= 3.0 * x * x && 1.0 - Smooth01(y) <= 3.0 * (1.0 - y) * (1.0 - y)
  {
    hide Smooth01;
    SmoothEnds();
    SmoothMirrors(y);
    SmoothBelow(x);
    SmoothBelow(1.0 - y);
    SmoothGrows(x, y);
    SmoothGrows(0.0, x);
    SmoothGrows(y, 1.0);
  }

  lemma SmoothEnds()
    ensures Smooth01(0.0) == 0.0 && Smooth01(1.0) == 1.0
  {
  }

  lemma SmoothMirrors(y: real)
    ensures Smooth01(1.0 - y) == 1.0 - Smooth01(y)
  {
  }

  lemma SmoothBelow(x: real)
    requires x >= 0.0
    ensures Smooth01(x) <= 3.0 * x * x
  {
    Weighted(x * x, 3.0 - 2.0 * x, 3.0);
  }

  lemma SmoothGrows(x: real, y: real)
    requires 0.0 <= x <= y <= 1.0
    ensures Smooth01(x) <= Smooth01(y)
  {
    var rest := 3.0 * (x + y) - 2.0 * (x * x + x * y + y * y);
    RestPositive(x, y);
    Weighted(y - x, 0.0, rest);
    Difference(x, y, rest);
  }

  lemma Difference(x: real, y: real, rest: real)
    requires rest == 3.0 * (x + y) - 2.0 * (x * x + x * y + y * y)
    ensures Smooth01(y) - Smooth01(x) == (y - x) * rest
  {
    assert y * y * (3.0 - 2.0 * y) - x * x * (3.0 - 2.0 * x) == (y - x) * rest;
  }

  lemma RestPositive(x: real, y: real)
    requires 0.0 <= x <= 1.0 && 0.0 <= y <= 1.0
    ensures 3.0 * (x + y) - 2.0 * (x * x + x * y + y * y) >= 0.0
  {
    var a := Capped(x, x);
    var b := Capped(x, y);
    var b' := Capped(y, x);
    var c := Capped(y, y);
    assert b == b';
    assert 3.0 * (x + y) - 2.0 * (a + b + c) >= 0.0;
  }

  lemma Weighted(w: real, a: real, b: real)
    requires w >= 0.0 && a <= b
    ensures w * a <= w * b
  {
  }

  lemma Capped(a: real, q: real) returns (p: real)
    requires a >= 0.0 && 0.0 <= q <= 1.0
    ensures p == a * q && 0.0 <= p <= a
  {
    p := a * q;
    Weighted(a, 0.0, q);
    Weighted(a, q, 1.0);
  }

  lemma SquareWithin(bump: real, b: real)
    requires Abs(b) <= 1.0
    ensures Abs(Lift(bump, b)) <= Abs(bump)
    ensures bump >= 0.0 ==> Lift(bump, b) >= 0.0
    ensures bump <= 0.0 ==> Lift(bump, b) <= 0.0
    ensures b == 0.0 ==> Lift(bump, b) == 0.0
  {
    var size := if b >= 0.0 then b else -b;
    var q := Capped(size, size);
    var p := Capped(if bump >= 0.0 then bump else -bump, q);
    assert b * b == q;
    assert bump * b * b == bump * q;
    assert bump * q == if bump >= 0.0 then p else -p;
    AbsLess(if bump >= 0.0 then p else -p, bump);
  }

  lemma AbsLess(p: real, bump: real)
    requires 0.0 <= p <= bump || bump <= p <= 0.0
    ensures Abs(p) <= Abs(bump)
  {
  }

  function CentreAt(t: Trig, s: Section, at: real): Vec3
    requires s.length > 0.0
  {
    var p :=
      if at <= 0.0 then Plus(s.start, Times(HorizontalForward(t, s.startYaw), at))
      else if at >= s.length then Plus(s.end, Times(HorizontalForward(t, s.endYaw), at - s.length))
      else if s.turnAngle == 0.0 then Plus(s.start, Times(HorizontalForward(t, s.startYaw), at))
      else (CurvatureNonzero(s.turnAngle, s.length); ArcPoint(t, s.start, s.startYaw, Curvature(s.turnAngle, s.length), at));
    p.(y := HeightAt(t, s, at))
  }

  // The curve a section follows between its ends, seen from above: straight on, or turned
  // about the centre of the bend.
  function Curve(t: Trig, s: Section, at: real): Vec3
    requires s.length > 0.0
  {
    if s.turnAngle == 0.0 then Plus(s.start, Times(HorizontalForward(t, s.startYaw), at))
    else (CurvatureNonzero(s.turnAngle, s.length); ArcPoint(t, s.start, s.startYaw, Curvature(s.turnAngle, s.length), at))
  }

  // A section as the makers leave it: its recorded end is where its curve, turn and drop lead.
  ghost predicate WellMade(t: Trig, s: Section) {
    && s.length > 0.0 && s.endYaw == s.startYaw + s.turnAngle
    && s.end == Curve(t, s, s.length).(y := s.start.y - s.drop)
  }

  lemma MadeLine(t: Trig, p: Pose, length: real, drop: real, bump: real)
    requires length > 0.0
    ensures WellMade(t, MakeLine(t, p, length, drop, bump))
  {
  }

  lemma MadeArc(t: Trig, p: Pose, radius: real, signedAngle: real, drop: real)
    requires radius > 0.0 && signedAngle != 0.0
    ensures WellMade(t, MakeArc(t, p, radius, signedAngle, drop))
  {
    var length := radius * Abs(signedAngle);
    ArcHasLength(radius, signedAngle);
    CurvatureNonzero(signedAngle, length);
    var k, s := Curvature(signedAngle, length), MakeArc(t, p, radius, signedAngle, drop);
    assert k * length == signedAngle;
    ArcTurns(t, p.pos, p.yaw, k, length, signedAngle);
    assert s.end == TurnedAbout(t, p.pos, p.yaw, k, signedAngle).(y := p.pos.y - drop);
  }

  lemma ArcTurns(t: Trig, start: Vec3, yaw: real, k: real, at: real, angle: real)
    requires k != 0.0 && k * at == angle
    ensures ArcPoint(t, start, yaw, k, at) == TurnedAbout(t, start, yaw, k, angle)
  {
  }

  lemma CurveStarts(t: Trig, s: Section)
    requires t.Valid() && s.length > 0.0
    ensures Curve(t, s, 0.0) == s.start.(y := Curve(t, s, 0.0).y)
  {
    if s.turnAngle != 0.0 {
      CurvatureNonzero(s.turnAngle, s.length);
      var k := Curvature(s.turnAngle, s.length);
      var spoke := Minus(s.start, Minus(s.start, Times(HorizontalRight(t, s.startYaw), 1.0 / k)));
      assert k * 0.0 == 0.0;
      UnturnedStays(t, spoke);
    }
  }

  lemma UnturnedStays(t: Trig, v: Vec3)
    requires t.Valid()
    ensures RotateY(t, v, 0.0) == v
  {
  }

  // The centreline follows the curve all the way: it begins and ends at the recorded
  // points, heights included, and so does the curve.
  lemma CentreEnds(t: Trig, s: Section)
    requires t.Valid() && WellMade(t, s)
    ensures CentreAt(t, s, 0.0) == s.start && CentreAt(t, s, s.length) == s.end
    ensures forall at | 0.0 <= at <= s.length :: CentreAt(t, s, at) == Curve(t, s, at).(y := HeightAt(t, s, at))
  {
    hide Curve;
    assert 0.0 / s.length == 0.0 && s.length / s.length == 1.0;
    CurveStarts(t, s);
    forall at | 0.0 <= at <= s.length
      ensures CentreAt(t, s, at) == Curve(t, s, at).(y := HeightAt(t, s, at))
    {
      if 0.0 < at < s.length {
        CentreInside(t, s, at);
      }
    }
  }

  lemma CentreInside(t: Trig, s: Section, at: real)
    requires 0.0 < at < s.length
    ensures CentreAt(t, s, at) == Curve(t, s, at).(y := HeightAt(t, s, at))
  {
    hide HeightAt, ArcPoint;
  }

  // Along a section the heading goes straight from the start heading to the end one.
  lemma YawBetween(t: Trig, s: Section, at: real)
    requires WellMade(t, s)
    ensures s.startYaw <= YawAt(s, at) <= s.endYaw || s.endYaw <= YawAt(s, at) <= s.startYaw
  {
    hide Curve;
    PartOfTurn(s.turnAngle, s.length, Clamp(at, 0.0, s.length));
  }

  lemma PartOfTurn(turnAngle: real, length: real, x: real)
    requires 0.0 <= x <= length && length > 0.0
    ensures var turned := Curvature(turnAngle, length) * x; 0.0 <= turned <= turnAngle || turnAngle <= turned <= 0.0
  {
    Share(x, length);
    Share(turnAngle, length);
    Commutes(turnAngle / length, x, length, x / length);
    Scaled(turnAngle, x / length);
  }

  lemma Share(x: real, length: real)
    requires length > 0.0
    ensures x / length * length == x
    ensures 0.0 <= x <= length ==> 0.0 <= x / length <= 1.0
  {
    var f := x / length;
    assert f * length == x;
    if x >= 0.0 && x <= length {
      assert (f - 1.0) * length <= 0.0;
    }
  }

  lemma Commutes(k: real, x: real, length: real, f: real)
    requires f * length == x
    ensures k * x == k * length * f
  {
  }

  lemma Scaled(a: real, f: real)
    requires 0.0 <= f <= 1.0
    ensures a >= 0.0 ==> 0.0 <= a * f <= a
    ensures a <= 0.0 ==> a <= a * f <= 0.0
  {
  }
}
