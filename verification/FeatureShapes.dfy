/** What each kind of feature is: the bends it is made of, and when it applies. */
module FeatureShapes {
  import opened Angles
  import opened Basics
  import opened TrackFeatures
  import opened TrackSections

  // A bend with its radius in metres and its angle in degrees, falling by so much a metre.
  ghost predicate Bend(s: Section, r0: real, r1: real, a0: real, a1: real, g0: real, g1: real) {
    && s.kind == Arc && r0 <= s.radius <= r1 && Radians(a0) <= Abs(s.turnAngle) <= Radians(a1)
    && s.length == s.radius * Abs(s.turnAngle) && Falls(s, g0, g1)
  }

  ghost predicate Falls(s: Section, g0: real, g1: real) {
    exists g :: g0 <= g <= g1 && s.drop == Part(s.length, g)
  }

  ghost predicate Link(s: Section, l0: real, l1: real, g0: real, g1: real) {
    s.kind == Line && s.turnAngle == 0.0 && l0 <= s.length <= l1 && s.bump == 0.0 && Falls(s, g0, g1)
  }

  // A straight: short or, at times, long; level, downhill, a short climb, or a crest or dip
  // gentle for its length.
  ghost predicate StraightShape(s: Section) {
    && s.kind == Line && s.turnAngle == 0.0 && (14.0 <= s.length <= 40.0 || 50.0 <= s.length <= 70.0)
    && Abs(s.bump) <= 0.9 && Abs(s.bump) <= 0.0009 * s.length * s.length && (s.bump != 0.0 ==> s.length >= 22.0)
    && (s.drop < 0.0 ==> s.length <= 30.0 && s.bump == 0.0)
    && exists g :: -0.05 <= g <= 0.08 && s.drop == Part(s.length, g)
  }

  // From a heading phi0 off the fall line, after a feature of the kind last.
  ghost predicate Shape(kind: FeatureKind, s: seq<Section>, phi0: real, last: FeatureKind) {
    match kind
    case Start => false
    case Straight => |s| == 1 && StraightShape(s[0])
    case Sweeper => |s| == 1 && Bend(s[0], 40.0, 70.0, 30.0, 60.0, 0.03, 0.06)
    case Corner => |s| == 1 && Bend(s[0], 16.0, 24.0, 70.0, 100.0, 0.04, 0.08)
    case Hairpin =>
      && |s| == (if last == Hairpin then 2 else 1)
      && Bend(s[|s| - 1], 14.0, 20.0, 150.0, 176.0, 0.06, 0.09)
      && (s[|s| - 1].turnAngle > 0.0 <==> phi0 <= 0.0)
      && (last == Hairpin ==> Link(s[0], 8.0, 14.0, 0.03, 0.03))
    case Esses =>
      && 2 <= |s| <= 3
      && Bend(s[0], 26.0, 40.0, 35.0, 60.0, 0.03, 0.06)
      && (|s| == 3 ==> Link(s[1], 1.0, 6.0, 0.03, 0.06))
      && Opposed(s[0], s[|s| - 1])
    case Chicane =>
      && |s| == 5
      && Bend(s[0], 18.0, 24.0, 25.0, 40.0, 0.02, 0.05) && Link(s[1], 2.0, 5.0, 0.02, 0.05)
      && s[2].kind == Arc && s[2].radius == s[0].radius && s[2].turnAngle == -2.0 * s[0].turnAngle
      && Link(s[3], 2.0, 5.0, 0.02, 0.05)
      && s[4].kind == Arc && s[4].radius == s[0].radius && s[4].turnAngle == s[0].turnAngle
    case Tightening => |s| == 3 && Narrowing(s[0], s[1], s[2])
    case Opening => |s| == 3 && Narrowing(s[2], s[1], s[0])
  }

  // The second bend turns the other way, and is the first one give or take a fifth in angle
  // and a seventh in radius.
  ghost predicate Opposed(a: Section, b: Section) {
    && b.kind == Arc
    && (exists f :: 0.8 <= f <= 1.2 && b.turnAngle == -Part(a.turnAngle, f))
    && (exists h :: 0.85 <= h <= 1.15 && b.radius == Part(a.radius, h))
  }

  // Three bends one way, 70 to 130 degrees in all, to 0.65 and 0.42 of the radius.
  ghost predicate Narrowing(a: Section, b: Section, c: Section) {
    && a.kind == Arc && b.kind == Arc && c.kind == Arc
    && 45.0 <= a.radius <= 60.0 && b.radius == a.radius * 0.65 && c.radius == a.radius * 0.42
    && exists total :: Radians(70.0) <= Abs(total) <= Radians(130.0)
         && a.turnAngle == total * 0.3 && b.turnAngle == total * 0.35 && c.turnAngle == total * 0.35
  }

  // ---- layouts --------------------------------------------------------------------------

  ghost predicate TurnOn(s: Section, dir: int, radius: real, angle: real, grade: real) {
    && s.kind == Arc && s.radius == radius && s.turnAngle == (if dir > 0 then angle else -angle)
    && s.length == radius * angle && s.drop == Part(s.length, grade)
  }

  ghost predicate LineOn(s: Section, length: real, drop: real, bump: real) {
    s.kind == Line && s.turnAngle == 0.0 && s.length == length && s.drop == drop && s.bump == bump
  }

  lemma TurnAdded(t: Trig, l: Layout, dir: int, radius: real, angle: real, grade: real)
    requires dir != 0 && radius > 0.0 && angle > 0.0
    ensures var m := AddTurn(t, l, dir, radius, angle, grade).sections;
            |m| == |l.sections| + 1 && l.sections <= m && TurnOn(m[|l.sections|], dir, radius, angle, grade)
  {
    hide TurnedAbout, Curvature, Part;
    ArcIs(t, l.pose, radius, if dir > 0 then angle else -angle, radius * angle * grade);
    var s := MakeArc(t, l.pose, radius, if dir > 0 then angle else -angle, radius * angle * grade);
    assert s.length == radius * angle;
    PartOf(radius * angle, grade);
  }

  lemma ArcIs(t: Trig, pose: Pose, radius: real, turn: real, drop: real)
    requires radius > 0.0 && turn != 0.0
    ensures var s := MakeArc(t, pose, radius, turn, drop);
            s.kind == Arc && s.radius == radius && s.turnAngle == turn && s.length == radius * Abs(turn) && s.drop == drop
  {
    hide TurnedAbout, Curvature;
  }

  lemma PartOf(whole: real, share: real)
    ensures whole * share == Part(whole, share)
  {
  }

  lemma LineAdded(t: Trig, l: Layout, length: real, drop: real, bump: real)
    ensures var m := AddLine(t, l, length, drop, bump).sections;
            |m| == |l.sections| + 1 && l.sections <= m && LineOn(m[|l.sections|], length, drop, bump)
  {
  }

  lemma TurnBends(s: Section, dir: int, radius: real, angle: real, grade: real, r0: real, r1: real, a0: real, a1: real, g0: real, g1: real)
    requires TurnOn(s, dir, radius, angle, grade) && angle > 0.0
    requires r0 <= radius <= r1 && Radians(a0) <= angle <= Radians(a1) && g0 <= grade <= g1
    ensures Bend(s, r0, r1, a0, a1, g0, g1)
  {
    hide Radians, Part;
  }

  lemma LineLinks(s: Section, length: real, grade: real, l0: real, l1: real, g0: real, g1: real)
    requires LineOn(s, length, Part(length, grade), 0.0) && l0 <= length <= l1 && g0 <= grade <= g1
    ensures Link(s, l0, l1, g0, g1)
  {
    hide Part;
  }

  // ---- the kinds ----------------------------------------------------------------------------

  // Turning by the angle to one side or the other keeps the heading in the band.
  ghost predicate Turnable(p: TrackParams, phi0: real, angle: real) {
    Abs(phi0 + angle) <= p.headingBand || Abs(phi0 - angle) <= p.headingBand
  }

  // Which way a turn goes: always into the band; of two ways, off a steep traverse usually
  // back to the fall line, else usually the other way than the last turn.
  lemma DirectionSays(p: TrackParams, g: Pacing, phi0: real, angle: real, pref: real)
    ensures var dir := ChooseDir(p, g, phi0, angle, pref);
            var usual := if Abs(phi0) > Radians(50.0) then phi0 > 0.0 else g.lastTurnSign > 0;
            && (dir == 0 <==> !Turnable(p, phi0, angle)) && -1 <= dir <= 1
            && (dir != 0 ==> Abs(phi0 + (if dir > 0 then angle else -angle)) <= p.headingBand)
            && (Abs(phi0 + angle) <= p.headingBand && Abs(phi0 - angle) <= p.headingBand && (Abs(phi0) > Radians(50.0) || g.lastTurnSign != 0) ==>
                  dir == if (pref < 0.6) == usual then -1 else 1)
  {
    hide Radians;
  }

  lemma BendShape(t: Trig, p: TrackParams, g: Pacing, from: Pose, rng: Stream, pos: nat,
                  a0: real, a1: real, r0: real, r1: real, g0: real, g1: real)
    requires UnitStream(rng) && 0.0 < a0 <= a1 <= 176.0 && 0.0 < r0 <= r1 && g0 <= g1
    ensures var (ok, l, q) := BuildBend(t, p, g, Layout([], from), rng, pos, a0, a1, r0, r1, g0, g1);
            var phi0 := Phi(p, from.yaw);
            && (ok <==> Turnable(p, phi0, Radians(Range(a0, a1, rng(pos)))))
            && (ok ==> |l.sections| == 1 && Bend(l.sections[0], r0, r1, a0, a1, g0, g1) && Abs(phi0 + l.sections[0].turnAngle) <= p.headingBand)
  {
    hide Range, Radians, AddTurn, ChooseDir, Phi, Bend;
    RangeWithin(a0, a1, rng(pos));
    RangeWithin(r0, r1, rng(pos + 1));
    GradeWithin(g0, g1, rng(pos + 2));
    var angle, r, grade := Radians(Range(a0, a1, rng(pos))), Range(r0, r1, rng(pos + 1)), Range(g0, g1, rng(pos + 2));
    var dir := ChooseDir(p, g, Phi(p, from.yaw), angle, rng(pos + 3));
    DirectionSays(p, g, Phi(p, from.yaw), angle, rng(pos + 3));
    if dir != 0 {
      TurnAdded(t, Layout([], from), dir, r, angle, grade);
      TurnBends(AddTurn(t, Layout([], from), dir, r, angle, grade).sections[0], dir, r, angle, grade, r0, r1, a0, a1, g0, g1);
    }
  }

  lemma GradeWithin(lo: real, hi: real, u: real)
    requires lo <= hi && 0.0 <= u < 1.0
    ensures lo <= Range(lo, hi, u) <= hi
  {
    hide Part;
    PartWithin(hi - lo, u);
  }

  lemma HairpinShape(t: Trig, p: TrackParams, g: Pacing, from: Pose, rng: Stream, pos: nat)
    requires UnitStream(rng)
    ensures var (ok, l, q) := BuildHairpin(t, p, g, Layout([], from), rng, pos);
            var phi0 := Phi(p, from.yaw);
            (ok <==> Abs(phi0) >= Radians(60.0)) && (ok ==> Shape(Hairpin, l.sections, phi0, g.lastKind))
  {
    hide Range, Radians, AddTurn, AddLine, Phi, Bend, Link;
    var exitDeg, r := Range(65.0, 86.0, rng(pos)), Range(14.0, 20.0, rng(pos + 1));
    var grade, link := Range(0.06, 0.09, rng(pos + 2)), Range(8.0, 14.0, rng(pos + 3));
    RangeWithin(14.0, 20.0, rng(pos + 1));
    RangeWithin(8.0, 14.0, rng(pos + 3));
    RangeWithin(0.06, 0.09, rng(pos + 2));
    RadiansGrow(150.0, 176.0);
    var phi0, start := Phi(p, from.yaw), Layout([], from);
    if Abs(phi0) >= Radians(60.0) {
      var angle, dir := Clamp(Abs(phi0) + Radians(exitDeg), Radians(150.0), Radians(176.0)), if phi0 > 0.0 then -1 else 1;
      LineAdded(t, start, link, link * 0.03, 0.0);
      var linked := if g.lastKind == Hairpin then AddLine(t, start, link, link * 0.03, 0.0) else start;
      TurnAdded(t, linked, dir, r, angle, grade);
      var last := AddTurn(t, linked, dir, r, angle, grade).sections[|linked.sections|];
      TurnBends(last, dir, r, angle, grade, 14.0, 20.0, 150.0, 176.0, 0.06, 0.09);
      if g.lastKind == Hairpin {
        LineLinks(linked.sections[0], link, 0.03, 8.0, 14.0, 0.03, 0.03);
      }
    }
  }

  lemma EssesShape(t: Trig, l: Layout, dir: int, a1: real, r1: real, f2: real, h2: real, link: real, grade: real)
    requires l.sections == [] && dir in {-1, 1} && 0.0 < Radians(35.0) <= a1 <= Radians(60.0) && 26.0 <= r1 <= 40.0
    requires 0.8 <= f2 <= 1.2 && 0.85 <= h2 <= 1.15 && 0.0 <= link <= 6.0 && 0.03 <= grade <= 0.06
    ensures var s := EssesLayout(t, l, dir, a1, r1, f2, h2, link, grade).sections;
            && 2 <= |s| <= 3 && TurnOn(s[0], dir, r1, a1, grade)
            && Bend(s[0], 26.0, 40.0, 35.0, 60.0, 0.03, 0.06) && (|s| == 3 ==> Link(s[1], 1.0, 6.0, 0.03, 0.06))
            && TurnOn(s[|s| - 1], -dir, Part(r1, h2), Part(a1, f2), grade)
  {
    hide AddTurn, AddLine, Radians, Bend, Link, TurnOn, LineOn;
    Positive(r1, h2);
    Positive(a1, f2);
    var first := AddTurn(t, l, dir, r1, a1, grade);
    TurnAdded(t, l, dir, r1, a1, grade);
    TurnBends(first.sections[0], dir, r1, a1, grade, 26.0, 40.0, 35.0, 60.0, 0.03, 0.06);
    var linked := if link > 1.0 then AddLine(t, first, link, link * grade, 0.0) else first;
    if link > 1.0 {
      LineAdded(t, first, link, link * grade, 0.0);
      LineLinks(linked.sections[1], link, grade, 1.0, 6.0, 0.03, 0.06);
    }
    TurnAdded(t, linked, -dir, r1 * h2, a1 * f2, grade);
    assert r1 * h2 == Part(r1, h2) && a1 * f2 == Part(a1, f2);
    var s := EssesLayout(t, l, dir, a1, r1, f2, h2, link, grade).sections;
    assert s == AddTurn(t, linked, -dir, r1 * h2, a1 * f2, grade).sections;
    assert s[0] == first.sections[0] && (link > 1.0 ==> s[1] == linked.sections[1]);
  }

  lemma OpposedTurns(a: Section, b: Section, dir: int, r1: real, a1: real, f2: real, h2: real, grade: real)
    requires dir in {-1, 1} && 0.8 <= f2 <= 1.2 && 0.85 <= h2 <= 1.15
    requires TurnOn(a, dir, r1, a1, grade) && TurnOn(b, -dir, Part(r1, h2), Part(a1, f2), grade)
    ensures Opposed(a, b)
  {
    assert b.turnAngle == -Part(a.turnAngle, f2);
  }

  lemma BuiltEsses(t: Trig, p: TrackParams, g: Pacing, from: Pose, rng: Stream, pos: nat)
    requires UnitStream(rng)
    ensures var (ok, l, q) := BuildEsses(t, p, g, Layout([], from), rng, pos);
            var phi0 := Phi(p, from.yaw);
            && (ok <==> Turnable(p, phi0, Radians(Range(35.0, 60.0, rng(pos)))))
            && (ok ==> Shape(Esses, l.sections, phi0, g.lastKind) && Abs(phi0 + l.sections[0].turnAngle) <= p.headingBand)
  {
    hide Range, Radians, EssesLayout, Phi, ChooseDir, Bend, Link, Opposed;
    RangeWithin(35.0, 60.0, rng(pos));
    RangeWithin(26.0, 40.0, rng(pos + 1));
    RangeWithin(0.8, 1.2, rng(pos + 2));
    RangeWithin(0.85, 1.15, rng(pos + 3));
    GradeWithin(0.0, 6.0, rng(pos + 4));
    GradeWithin(0.03, 0.06, rng(pos + 5));
    var a1, r1 := Radians(Range(35.0, 60.0, rng(pos))), Range(26.0, 40.0, rng(pos + 1));
    var f2, h2 := Range(0.8, 1.2, rng(pos + 2)), Range(0.85, 1.15, rng(pos + 3));
    var link, grade := Range(0.0, 6.0, rng(pos + 4)), Range(0.03, 0.06, rng(pos + 5));
    var phi0 := Phi(p, from.yaw);
    var dir := ChooseDir(p, g, phi0, a1, rng(pos + 6));
    DirectionSays(p, g, phi0, a1, rng(pos + 6));
    if dir != 0 {
      EssesShape(t, Layout([], from), dir, a1, r1, f2, h2, link, grade);
      var s := EssesLayout(t, Layout([], from), dir, a1, r1, f2, h2, link, grade).sections;
      OpposedTurns(s[0], s[|s| - 1], dir, r1, a1, f2, h2, grade);
    }
  }

  lemma ChicaneShape(t: Trig, l: Layout, dir: int, a: real, r: real, link: real, grade: real)
    requires l.sections == [] && dir in {-1, 1} && 0.0 < Radians(25.0) <= a <= Radians(40.0) && 18.0 <= r <= 24.0
    requires 2.0 <= link <= 5.0 && 0.02 <= grade <= 0.05
    ensures var s := ChicaneLayout(t, l, dir, a, r, link, grade).sections;
            && Shape(Chicane, s, 0.0, Start) && s[0].turnAngle == (if dir > 0 then a else -a)
  {
    hide AddTurn, AddLine, Radians, Bend, Link;
    var one := AddTurn(t, l, dir, r, a, grade);
    TurnAdded(t, l, dir, r, a, grade);
    TurnBends(one.sections[0], dir, r, a, grade, 18.0, 24.0, 25.0, 40.0, 0.02, 0.05);
    var first := AddLine(t, one, link, link * grade, 0.0);
    LineAdded(t, one, link, link * grade, 0.0);
    LineLinks(first.sections[1], link, grade, 2.0, 5.0, 0.02, 0.05);
    var two := AddTurn(t, first, -dir, r, 2.0 * a, grade);
    TurnAdded(t, first, -dir, r, 2.0 * a, grade);
    var second := AddLine(t, two, link, link * grade, 0.0);
    LineAdded(t, two, link, link * grade, 0.0);
    LineLinks(second.sections[3], link, grade, 2.0, 5.0, 0.02, 0.05);
    TurnAdded(t, second, dir, r, a, grade);
  }

  lemma BuiltChicane(t: Trig, p: TrackParams, g: Pacing, from: Pose, rng: Stream, pos: nat)
    requires UnitStream(rng)
    ensures var (ok, l, q) := BuildChicane(t, p, g, Layout([], from), rng, pos);
            var phi0, a := Phi(p, from.yaw), Radians(Range(25.0, 40.0, rng(pos)));
            && (ok <==> Abs(phi0 + a) <= p.headingBand && Abs(phi0 - a) <= p.headingBand)
            && (ok ==> Shape(Chicane, l.sections, phi0, g.lastKind))
  {
    hide Range, Radians, ChicaneLayout, Phi, ChooseDir, Bend, Link;
    RangeWithin(25.0, 40.0, rng(pos));
    RangeWithin(18.0, 24.0, rng(pos + 1));
    RangeWithin(2.0, 5.0, rng(pos + 2));
    GradeWithin(0.02, 0.05, rng(pos + 3));
    var a, r := Radians(Range(25.0, 40.0, rng(pos))), Range(18.0, 24.0, rng(pos + 1));
    var link, grade := Range(2.0, 5.0, rng(pos + 2)), Range(0.02, 0.05, rng(pos + 3));
    var dir := ChooseDir(p, g, Phi(p, from.yaw), a, rng(pos + 4));
    DirectionSays(p, g, Phi(p, from.yaw), a, rng(pos + 4));
    if dir != 0 {
      ChicaneShape(t, Layout([], from), dir, a, r, link, grade);
    }
  }

  lemma ThreeShape(t: Trig, l: Layout, dir: int, grade: real, r1: real, a1: real, r2: real, a2: real, r3: real, a3: real)
    requires l.sections == [] && dir in {-1, 1} && r1 > 0.0 && r2 > 0.0 && r3 > 0.0 && a1 > 0.0 && a2 > 0.0 && a3 > 0.0
    ensures var s := ThreeTurns(t, l, dir, grade, r1, a1, r2, a2, r3, a3).sections;
            && |s| == 3 && TurnOn(s[0], dir, r1, a1, grade) && TurnOn(s[1], dir, r2, a2, grade) && TurnOn(s[2], dir, r3, a3, grade)
  {
    hide AddTurn, TurnOn;
    TurnAdded(t, l, dir, r1, a1, grade);
    var one := AddTurn(t, l, dir, r1, a1, grade);
    TurnAdded(t, one, dir, r2, a2, grade);
    var two := AddTurn(t, one, dir, r2, a2, grade);
    TurnAdded(t, two, dir, r3, a3, grade);
  }

  // The floor of 15 metres is never reached: 0.42 of 45 metres is more.
  lemma NarrowingTurns(a: Section, b: Section, c: Section, dir: int, r1: real, total: real, grade: real)
    requires dir in {-1, 1} && 45.0 <= r1 <= 60.0 && 0.0 < Radians(70.0) <= total <= Radians(130.0)
    requires TurnOn(a, dir, r1, total * 0.3, grade) && TurnOn(b, dir, Max(15.0, r1 * 0.65), total * 0.35, grade)
    requires TurnOn(c, dir, Max(15.0, r1 * 0.42), total * 0.35, grade)
    ensures Narrowing(a, b, c)
  {
    hide Radians;
    var signed := if dir > 0 then total else -total;
    assert Radians(70.0) <= Abs(signed) <= Radians(130.0);
    assert a.turnAngle == signed * 0.3 && b.turnAngle == signed * 0.35;
  }

  lemma BuiltSpiral(t: Trig, p: TrackParams, g: Pacing, from: Pose, tightening: bool, rng: Stream, pos: nat)
    requires UnitStream(rng)
    ensures var (ok, l, q) := BuildSpiral(t, p, g, Layout([], from), tightening, rng, pos);
            var phi0, total := Phi(p, from.yaw), Radians(Range(70.0, 130.0, rng(pos)));
            && (ok <==> Turnable(p, phi0, total))
            && (ok ==> Shape(if tightening then Tightening else Opening, l.sections, phi0, g.lastKind))
  {
    hide Range, Radians, ThreeTurns, Phi, ChooseDir, Narrowing, TurnOn;
    RangeWithin(70.0, 130.0, rng(pos));
    RangeWithin(45.0, 60.0, rng(pos + 1));
    var total, r1, grade := Radians(Range(70.0, 130.0, rng(pos))), Range(45.0, 60.0, rng(pos + 1)), Range(0.03, 0.07, rng(pos + 2));
    var r2, r3 := Max(15.0, r1 * 0.65), Max(15.0, r1 * 0.42);
    SpiralFit(total);
    var start := Layout([], from);
    var dir := ChooseDir(p, g, Phi(p, from.yaw), total, rng(pos + 3));
    DirectionSays(p, g, Phi(p, from.yaw), total, rng(pos + 3));
    if dir != 0 {
      ThreeShape(t, start, dir, grade, r1, total * 0.3, r2, total * 0.35, r3, total * 0.35);
      ThreeShape(t, start, dir, grade, r3, total * 0.35, r2, total * 0.35, r1, total * 0.3);
      var down, up := ThreeTurns(t, start, dir, grade, r1, total * 0.3, r2, total * 0.35, r3, total * 0.35).sections,
                      ThreeTurns(t, start, dir, grade, r3, total * 0.35, r2, total * 0.35, r1, total * 0.3).sections;
      NarrowingTurns(down[0], down[1], down[2], dir, r1, total, grade);
      NarrowingTurns(up[2], up[1], up[0], dir, r1, total, grade);
    }
  }

  lemma BuiltStraight(t: Trig, p: TrackParams, from: Pose, rng: Stream, pos: nat)
    requires UnitStream(rng) && p.Valid()
    ensures var l := BuildStraight(t, p, Layout([], from), rng, pos).0;
            |l.sections| == 1 && StraightShape(l.sections[0])
  {
    hide Range, PickWeighted, StraightLayout, StraightShape;
    GradeWithin(50.0, 70.0, rng(pos + 1));
    GradeWithin(14.0, 40.0, rng(pos + 1));
    var length := if rng(pos) < 0.15 then Range(50.0, 70.0, rng(pos + 1)) else Range(14.0, 40.0, rng(pos + 1));
    var (drawn, q) := PickWeighted(p.profileWeight, rng, pos + 2);
    GradeWithin(0.0, 1.0, rng(q));
    GradeWithin(0.0, 1.0, rng(q + 1));
    StraightIs(t, Layout([], from), length, Profile(drawn, length), Range(0.0, 1.0, rng(q)), Range(0.0, 1.0, rng(q + 1)));
  }

  lemma StraightIs(t: Trig, l: Layout, length: real, prof: int, a: real, b: real)
    requires l.sections == [] && (14.0 <= length <= 40.0 || 50.0 <= length <= 70.0) && 0.0 <= a <= 1.0 && 0.0 <= b <= 1.0
    requires (prof == 2 ==> length <= 30.0) && (prof == 3 || prof == 4 ==> length >= 22.0)
    ensures var s := StraightLayout(t, l, length, prof, a, b).sections; |s| == 1 && StraightShape(s[0])
  {
    hide AddLine, StraightShape;
    var most := 0.0009 * length * length;
    var bump := if 0.4 + 0.5 * b < most then 0.4 + 0.5 * b else most;
    BumpFits(length, b);
    if prof == 1 {
      LineShaped(t, l, length, length * (0.03 + 0.05 * a), 0.03 + 0.05 * a, 0.0);
    } else if prof == 2 {
      LineShaped(t, l, length, -length * (0.02 + 0.03 * a), -(0.02 + 0.03 * a), 0.0);
    } else if prof == 3 {
      LineShaped(t, l, length, length * 0.03 * a, 0.03 * a, bump);
    } else if prof == 4 {
      LineShaped(t, l, length, length * 0.03 * a, 0.03 * a, -bump);
    } else {
      LineShaped(t, l, length, 0.0, 0.0, 0.0);
    }
  }

  lemma LineShaped(t: Trig, l: Layout, length: real, drop: real, g: real, bump: real)
    requires l.sections == [] && (14.0 <= length <= 40.0 || 50.0 <= length <= 70.0) && drop == Part(length, g) && -0.05 <= g <= 0.08
    requires g < 0.0 ==> length <= 30.0 && bump == 0.0
    requires bump != 0.0 ==> length >= 22.0
    requires Abs(bump) <= 0.9 && Abs(bump) <= 0.0009 * length * length
    ensures var s := AddLine(t, l, length, drop, bump).sections; |s| == 1 && StraightShape(s[0])
  {
    hide AddLine, Part;
    LineAdded(t, l, length, drop, bump);
    if g >= 0.0 {
      Downhill(length, g);
    }
  }

  lemma Downhill(length: real, g: real)
    requires length > 0.0 && g >= 0.0
    ensures Part(length, g) >= 0.0
  {
  }

  lemma BumpFits(length: real, b: real)
    requires length > 0.0 && 0.0 <= b <= 1.0
    ensures var most := 0.0009 * length * length; var bump := if 0.4 + 0.5 * b < most then 0.4 + 0.5 * b else most;
            0.0 <= bump <= 0.9 && bump <= most
  {
    Positive(length, length);
    assert 0.0009 * length * length == 0.0009 * (length * length);
  }

  // Every kind has its shape whenever it applies; a straight always does, a hairpin on a
  // traverse of sixty degrees or more, the start never.
  lemma KindSays(t: Trig, p: TrackParams, g: Pacing, kind: FeatureKind, from: Pose, rng: Stream, pos: nat)
    requires UnitStream(rng) && p.Valid()
    ensures var (ok, s, q) := BuildFeature(t, p, g, kind, from, rng, pos);
            && (ok ==> Shape(kind, s, Phi(p, from.yaw), g.lastKind))
            && (ok <==> Applies(p, kind, Phi(p, from.yaw), rng(pos)))
  {
    hide BuildBend, BuildHairpin, BuildEsses, BuildChicane, BuildSpiral, BuildStraight, Bend, StraightShape, Turnable, Radians, Phi, Opposed, Narrowing, Link, Range;
    match kind {
      case Start =>
      case Straight => BuiltStraight(t, p, from, rng, pos);
      case Sweeper => BendShape(t, p, g, from, rng, pos, 30.0, 60.0, 40.0, 70.0, 0.03, 0.06);
      case Corner => BendShape(t, p, g, from, rng, pos, 70.0, 100.0, 16.0, 24.0, 0.04, 0.08);
      case Hairpin => HairpinShape(t, p, g, from, rng, pos);
      case Esses => BuiltEsses(t, p, g, from, rng, pos);
      case Chicane => BuiltChicane(t, p, g, from, rng, pos);
      case Tightening => BuiltSpiral(t, p, g, from, true, rng, pos);
      case Opening => BuiltSpiral(t, p, g, from, false, rng, pos);
    }
  }

  // When a kind applies, by the heading and, where the turn must fit the band, the angle drawn.
  ghost predicate Applies(p: TrackParams, kind: FeatureKind, phi0: real, u: real) {
    match kind
    case Start => false
    case Straight => true
    case Sweeper => Turnable(p, phi0, Radians(Range(30.0, 60.0, u)))
    case Corner => Turnable(p, phi0, Radians(Range(70.0, 100.0, u)))
    case Hairpin => Abs(phi0) >= Radians(60.0)
    case Esses => Turnable(p, phi0, Radians(Range(35.0, 60.0, u)))
    case Chicane => var a := Radians(Range(25.0, 40.0, u)); Abs(phi0 + a) <= p.headingBand && Abs(phi0 - a) <= p.headingBand
    case _ => Turnable(p, phi0, Radians(Range(70.0, 130.0, u)))
  }
}
