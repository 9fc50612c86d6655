/** The menu of road features, drawn from one random stream. */
module TrackFeatures {
  import opened Angles
  import opened Basics
  import opened TrackGrid
  import opened TrackSections
  import opened Vectors

  // The generator's floats in [0, 1), fixed by the seed.
  type Stream = nat -> real

  ghost predicate UnitStream(rng: Stream) {
    forall i :: 0.0 <= rng(i) < 1.0
  }

  datatype TrackParams = TrackParams(
    startLength: real, runoffWidth: real,
    weight: seq<real>, profileWeight: seq<real>, styleWeight: seq<real>,
    descentYaw: real, headingBand: real, clearance: real, clearanceSkip: real,
    maxAttempts: nat, longStraight: real,
    forwardBufferSections: nat, rearBufferSections: nat)
  {
    predicate Valid() {
      && startLength > 0.0 && |weight| == 9 && |profileWeight| == 5 && |styleWeight| == 4
      && 0.0 <= headingBand && Band() < Radians(92.0)
    }

    // What is checked of a heading relative to the fall line.
    function Band(): real {
      headingBand + 0.001
    }
  }

  const MAX_TURN := Radians(176.0)

  // Heading relative to the fall line.
  function Phi(p: TrackParams, yaw: real): real {
    WrapAngle(yaw - p.descentYaw)
  }

  function Range(lo: real, hi: real, u: real): real {
    lo + Part(hi - lo, u)
  }

  function Sum(w: seq<real>): real {
    if w == [] then 0.0 else Sum(w[..|w| - 1]) + w[|w| - 1]
  }

  // The first index whose share the draw falls into, else the last with a positive weight.
  function PickFrom(w: seq<real>, i: nat, r: real): int
    requires i <= |w|
    decreases |w| - i
  {
    if i == |w| then LastPositive(w, |w|)
    else if r < w[i] then i
    else PickFrom(w, i + 1, r - w[i])
  }

  function LastPositive(w: seq<real>, n: nat): int
    requires n <= |w|
  {
    if n == 0 then -1 else if w[n - 1] > 0.0 then n - 1 else LastPositive(w, n - 1)
  }

  // A weighted index and the number of draws it takes; -1 without a draw if nothing weighs.
  function PickWeighted(w: seq<real>, rng: Stream, pos: nat): (int, nat) {
    if Sum(w) <= 0.0 then (-1, pos) else (PickFrom(w, 0, Part(Sum(w), rng(pos))), pos + 1)
  }

  lemma {:induction false} PickInRange(w: seq<real>, i: nat, r: real)
    requires i <= |w|
    ensures -1 <= PickFrom(w, i, r) < |w| || (w == [] && PickFrom(w, i, r) == -1)
    decreases |w| - i
  {
    if i == |w| {
      LastPositiveInRange(w, |w|);
    } else if r >= w[i] {
      PickInRange(w, i + 1, r - w[i]);
    }
  }

  lemma {:induction false} LastPositiveInRange(w: seq<real>, n: nat)
    requires n <= |w|
    ensures -1 <= LastPositive(w, n) < n || (n == 0 && LastPositive(w, n) == -1)
  {
    if n != 0 && w[n - 1] <= 0.0 {
      LastPositiveInRange(w, n - 1);
    }
  }

  // What a feature is built from besides the random stream.
  datatype Pacing = Pacing(lastTurnSign: int, lastKind: FeatureKind, lastStraightLength: real)

  // Sections laid end to end so far, and the pose they lead to.
  datatype Layout = Layout(sections: seq<Section>, pose: Pose)

  function AddLine(t: Trig, l: Layout, length: real, drop: real, bump: real): Layout {
    var s := MakeLine(t, l.pose, length, drop, bump);
    Layout(l.sections + [s], EndPose(s))
  }

  function AddArc(t: Trig, l: Layout, radius: real, angle: real, drop: real): Layout
    requires radius > 0.0 && angle != 0.0
  {
    var s := MakeArc(t, l.pose, radius, angle, drop);
    Layout(l.sections + [s], EndPose(s))
  }

  // A bend to the left (+1) or right (-1) losing height with the grade.
  function AddTurn(t: Trig, l: Layout, dir: int, radius: real, angle: real, grade: real): Layout
    requires dir != 0 && radius > 0.0 && angle > 0.0
  {
    AddArc(t, l, radius, if dir > 0 then angle else -angle, radius * angle * grade)
  }

  // +1 left, -1 right, 0 if neither keeps the heading in the band; pref is the draw.
  function ChooseDir(p: TrackParams, g: Pacing, phi0: real, angle: real, pref: real): (dir: int)
    ensures -1 <= dir <= 1
    ensures dir == 1 ==> Abs(phi0 + angle) <= p.headingBand
    ensures dir == -1 ==> Abs(phi0 - angle) <= p.headingBand
  {
    var left, right := Abs(phi0 + angle) <= p.headingBand, Abs(phi0 - angle) <= p.headingBand;
    if left && right then
      if Abs(phi0) > Radians(50.0) then
        if pref < 0.6 then (if phi0 > 0.0 then -1 else 1) else (if phi0 > 0.0 then 1 else -1)
      else if g.lastTurnSign != 0 then
        if (pref < 0.6) == (g.lastTurnSign > 0) then -1 else 1
      else if pref < 0.5 then 1 else -1
    else if left then 1
    else if right then -1
    else 0
  }

  // ---- one function for each kind; the random draws are given by position ----

  function Profile(prof: int, length: real): int {
    var climb := if prof == 2 && length > 30.0 then 1 else prof;
    if (climb == 3 || climb == 4) && length < 22.0 then 1 else climb
  }

  // Flat, downhill, a short climb, a crest or a dip.
  function StraightLayout(t: Trig, l: Layout, length: real, prof: int, a: real, b: real): Layout {
    var maxBump := 0.0009 * length * length;
    var bump := if 0.4 + 0.5 * b < maxBump then 0.4 + 0.5 * b else maxBump;
    if prof == 1 then AddLine(t, l, length, length * (0.03 + 0.05 * a), 0.0)
    else if prof == 2 then AddLine(t, l, length, -length * (0.02 + 0.03 * a), 0.0)
    else if prof == 3 then AddLine(t, l, length, length * 0.03 * a, bump)
    else if prof == 4 then AddLine(t, l, length, length * 0.03 * a, -bump)
    else AddLine(t, l, length, 0.0, 0.0)
  }

  function BuildStraight(t: Trig, p: TrackParams, l: Layout, rng: Stream, pos: nat): (Layout, nat)
    requires |p.profileWeight| == 5
  {
    var length := if rng(pos) < 0.15 then Range(50.0, 70.0, rng(pos + 1)) else Range(14.0, 40.0, rng(pos + 1));
    var (drawn, q) := PickWeighted(p.profileWeight, rng, pos + 2);
    var a, b := Range(0.0, 1.0, rng(q)), Range(0.0, 1.0, rng(q + 1));
    (StraightLayout(t, l, length, Profile(drawn, length), a, b), q + 2)
  }

  // A single bend: angle and radius ranges in degrees and metres, grade range.
  function BuildBend(t: Trig, p: TrackParams, g: Pacing, l: Layout, rng: Stream, pos: nat,
                     a0: real, a1: real, r0: real, r1: real, g0: real, g1: real): (bool, Layout, nat)
    requires UnitStream(rng) && 0.0 < a0 <= a1 <= 176.0 && 0.0 < r0 <= r1
  {
    RangeWithin(a0, a1, rng(pos));
    RangeWithin(r0, r1, rng(pos + 1));
    var angle, r, grade := Radians(Range(a0, a1, rng(pos))), Range(r0, r1, rng(pos + 1)), Range(g0, g1, rng(pos + 2));
    var dir := ChooseDir(p, g, Phi(p, l.pose.yaw), angle, rng(pos + 3));
    if dir == 0 then (false, l, pos + 4)
    else (true, AddTurn(t, l, dir, r, angle, grade), pos + 4)
  }

  function BuildHairpin(t: Trig, p: TrackParams, g: Pacing, l: Layout, rng: Stream, pos: nat): (bool, Layout, nat)
    requires UnitStream(rng)
  {
    var exitDeg, r := Range(65.0, 86.0, rng(pos)), Range(14.0, 20.0, rng(pos + 1));
    var grade, link := Range(0.06, 0.09, rng(pos + 2)), Range(8.0, 14.0, rng(pos + 3));
    RangeWithin(14.0, 20.0, rng(pos + 1));
    var phi0 := Phi(p, l.pose.yaw);
    if Abs(phi0) < Radians(60.0) then (false, l, pos + 4)
    else
      var angle := Clamp(Abs(phi0) + Radians(exitDeg), Radians(150.0), Radians(176.0));
      var linked := if g.lastKind == Hairpin then AddLine(t, l, link, link * 0.03, 0.0) else l;
      (true, AddTurn(t, linked, if phi0 > 0.0 then -1 else 1, r, angle, grade), pos + 4)
  }

  // Two opposite bends, the second scaled from the first, with a short link between.
  function EssesLayout(t: Trig, l: Layout, dir: int, a1: real, r1: real, f2: real, h2: real, link: real, grade: real): Layout
    requires dir != 0 && a1 > 0.0 && r1 > 0.0 && f2 > 0.0 && h2 > 0.0
  {
    Positive(a1, f2);
    Positive(r1, h2);
    var first := AddTurn(t, l, dir, r1, a1, grade);
    var linked := if link > 1.0 then AddLine(t, first, link, link * grade, 0.0) else first;
    AddTurn(t, linked, -dir, r1 * h2, a1 * f2, grade)
  }

  function BuildEsses(t: Trig, p: TrackParams, g: Pacing, l: Layout, rng: Stream, pos: nat): (bool, Layout, nat)
    requires UnitStream(rng)
  {
    RangeWithin(35.0, 60.0, rng(pos));
    RangeWithin(26.0, 40.0, rng(pos + 1));
    RangeWithin(0.8, 1.2, rng(pos + 2));
    RangeWithin(0.85, 1.15, rng(pos + 3));
    var a1, r1 := Radians(Range(35.0, 60.0, rng(pos))), Range(26.0, 40.0, rng(pos + 1));
    var f2, h2 := Range(0.8, 1.2, rng(pos + 2)), Range(0.85, 1.15, rng(pos + 3));
    var link, grade := Range(0.0, 6.0, rng(pos + 4)), Range(0.03, 0.06, rng(pos + 5));
    var dir := ChooseDir(p, g, Phi(p, l.pose.yaw), a1, rng(pos + 6));
    if dir == 0 then (false, l, pos + 7) else (true, EssesLayout(t, l, dir, a1, r1, f2, h2, link, grade), pos + 7)
  }

  // One way, twice the other way, and back.
  function ChicaneLayout(t: Trig, l: Layout, dir: int, a: real, r: real, link: real, grade: real): Layout
    requires dir != 0 && a > 0.0 && r > 0.0
  {
    var first := AddLine(t, AddTurn(t, l, dir, r, a, grade), link, link * grade, 0.0);
    var second := AddLine(t, AddTurn(t, first, -dir, r, 2.0 * a, grade), link, link * grade, 0.0);
    AddTurn(t, second, dir, r, a, grade)
  }

  function BuildChicane(t: Trig, p: TrackParams, g: Pacing, l: Layout, rng: Stream, pos: nat): (bool, Layout, nat)
    requires UnitStream(rng)
  {
    RangeWithin(25.0, 40.0, rng(pos));
    RangeWithin(18.0, 24.0, rng(pos + 1));
    var a, r := Radians(Range(25.0, 40.0, rng(pos))), Range(18.0, 24.0, rng(pos + 1));
    var link, grade := Range(2.0, 5.0, rng(pos + 2)), Range(0.02, 0.05, rng(pos + 3));
    var phi0 := Phi(p, l.pose.yaw);
    var dir := ChooseDir(p, g, phi0, a, rng(pos + 4));
    if dir == 0 || Abs(if dir > 0 then phi0 - a else phi0 + a) > p.headingBand then (false, l, pos + 5)
    else (true, ChicaneLayout(t, l, dir, a, r, link, grade), pos + 5)
  }

  // Three arcs of decreasing radius, or the same in reverse.
  function BuildSpiral(t: Trig, p: TrackParams, g: Pacing, l: Layout, tightening: bool, rng: Stream, pos: nat): (bool, Layout, nat)
    requires UnitStream(rng)
  {
    RangeWithin(70.0, 130.0, rng(pos));
    RangeWithin(45.0, 60.0, rng(pos + 1));
    var total, r1, grade := Radians(Range(70.0, 130.0, rng(pos))), Range(45.0, 60.0, rng(pos + 1)), Range(0.03, 0.07, rng(pos + 2));
    var r2, r3 := Max(15.0, r1 * 0.65), Max(15.0, r1 * 0.42);
    var dir := ChooseDir(p, g, Phi(p, l.pose.yaw), total, rng(pos + 3));
    if dir == 0 then (false, l, pos + 4)
    else
      var sharp, wide := total * 0.35, total * 0.3;
      if tightening then (true, ThreeTurns(t, l, dir, grade, r1, wide, r2, sharp, r3, sharp), pos + 4)
      else (true, ThreeTurns(t, l, dir, grade, r3, sharp, r2, sharp, r1, wide), pos + 4)
  }

  function ThreeTurns(t: Trig, l: Layout, dir: int, grade: real, r1: real, a1: real, r2: real, a2: real, r3: real, a3: real): Layout
    requires dir != 0 && r1 > 0.0 && r2 > 0.0 && r3 > 0.0 && a1 > 0.0 && a2 > 0.0 && a3 > 0.0
  {
    AddTurn(t, AddTurn(t, AddTurn(t, l, dir, r1, a1, grade), dir, r2, a2, grade), dir, r3, a3, grade)
  }

  // Lay out one feature from the pose: whether it applies, its sections, and the draws taken.
  function BuildFeature(t: Trig, p: TrackParams, g: Pacing, kind: FeatureKind, from: Pose, rng: Stream, pos: nat): (bool, seq<Section>, nat)
    requires UnitStream(rng) && p.Valid()
  {
    var l := Layout([], from);
    match kind
    case Straight => var (layout, q) := BuildStraight(t, p, l, rng, pos); (true, layout.sections, q)
    case Sweeper => Built(BuildBend(t, p, g, l, rng, pos, 30.0, 60.0, 40.0, 70.0, 0.03, 0.06))
    case Corner => Built(BuildBend(t, p, g, l, rng, pos, 70.0, 100.0, 16.0, 24.0, 0.04, 0.08))
    case Hairpin => Built(BuildHairpin(t, p, g, l, rng, pos))
    case Esses => Built(BuildEsses(t, p, g, l, rng, pos))
    case Chicane => Built(BuildChicane(t, p, g, l, rng, pos))
    case Tightening => Built(BuildSpiral(t, p, g, l, true, rng, pos))
    case Opening => Built(BuildSpiral(t, p, g, l, false, rng, pos))
    case Start => (false, [], pos)
  }

  function Built(b: (bool, Layout, nat)): (bool, seq<Section>, nat) {
    (b.0, b.1.sections, b.2)
  }

  lemma RangeWithin(lo: real, hi: real, u: real)
    requires lo <= hi && 0.0 <= u < 1.0
    ensures lo <= Range(lo, hi, u) <= hi
    ensures 0.0 < lo ==> 0.0 < Radians(lo) <= Radians(Range(lo, hi, u)) <= Radians(hi)
  {
    hide Part, Radians;
    PartWithin(hi - lo, u);
    var r := Range(lo, hi, u);
    if 0.0 < lo {
      RadiansGrow(lo, r);
      RadiansGrow(r, hi);
    }
  }

  lemma RadiansGrow(a: real, b: real)
    requires 0.0 < a <= b
    ensures 0.0 < Radians(a) <= Radians(b)
  {
  }

  lemma ProductWithin(a: real, f: real, hi: real)
    requires a > 0.0 && 0.0 < f <= hi
    ensures 0.0 < a * f <= a * hi
  {
    Positive(a, f);
    assert a * hi - a * f == a * (hi - f);
  }

  lemma Positive(a: real, f: real)
    requires a > 0.0 && f > 0.0
    ensures a * f > 0.0
  {
  }

  // ---- what every feature keeps -------------------------------------------------

  function StartPose(s: Section): Pose {
    Pose(s.start, s.startYaw, s.startDistance)
  }

  // Well-made sections end to end from a pose, none turning more than 176 degrees.
  ghost predicate Chained(t: Trig, sections: seq<Section>, from: Pose) {
    forall i | 0 <= i < |sections| :: Linked(t, sections, i, from)
  }

  ghost predicate Linked(t: Trig, sections: seq<Section>, i: int, from: Pose)
    requires 0 <= i < |sections|
  {
    && WellMade(t, sections[i]) && Abs(sections[i].turnAngle) <= MAX_TURN
    && StartPose(sections[i]) == (if i == 0 then from else EndPose(sections[i - 1]))
  }

  ghost predicate LayoutOk(t: Trig, l: Layout, from: Pose) {
    Chained(t, l.sections, from) && l.pose == if l.sections == [] then from else EndPose(l.sections[|l.sections| - 1])
  }

  lemma ChainGrows(t: Trig, sections: seq<Section>, s: Section, from: Pose)
    requires Chained(t, sections, from) && WellMade(t, s) && Abs(s.turnAngle) <= MAX_TURN
    requires StartPose(s) == if sections == [] then from else EndPose(sections[|sections| - 1])
    ensures Chained(t, sections + [s], from)
  {
    var more := sections + [s];
    forall i | 0 <= i < |more|
      ensures Linked(t, more, i, from)
    {
      if i < |sections| {
        assert Linked(t, sections, i, from);
      }
    }
  }

  lemma AddLineOk(t: Trig, l: Layout, length: real, drop: real, bump: real, from: Pose)
    requires LayoutOk(t, l, from) && length > 0.0
    ensures LayoutOk(t, AddLine(t, l, length, drop, bump), from)
  {
    hide Chained;
    DegreesFit(1.0);
    RadiansGrow(1.0, 1.0);
    MadeLine(t, l.pose, length, drop, bump);
    ChainGrows(t, l.sections, MakeLine(t, l.pose, length, drop, bump), from);
  }

  lemma AddTurnOk(t: Trig, l: Layout, dir: int, radius: real, angle: real, grade: real, from: Pose)
    requires LayoutOk(t, l, from) && dir != 0 && radius > 0.0 && 0.0 < angle <= MAX_TURN
    ensures LayoutOk(t, AddTurn(t, l, dir, radius, angle, grade), from)
  {
    hide Chained, MakeArc, EndPose, StartPose, WellMade, Radians;
    var turn := if dir > 0 then angle else -angle;
    MakeArcOk(t, l.pose, radius, turn, radius * angle * grade);
    ChainGrows(t, l.sections, MakeArc(t, l.pose, radius, turn, radius * angle * grade), from);
  }

  lemma MakeArcOk(t: Trig, pose: Pose, radius: real, turn: real, drop: real)
    requires radius > 0.0 && turn != 0.0
    ensures var s := MakeArc(t, pose, radius, turn, drop);
            WellMade(t, s) && s.turnAngle == turn && StartPose(s) == pose
  {
    hide WellMade;
    MadeArc(t, pose, radius, turn, drop);
  }

  lemma DegreesFit(degrees: real)
    requires 0.0 < degrees <= 176.0
    ensures Radians(degrees) <= MAX_TURN
  {
    RadiansGrow(degrees, 176.0);
  }

  lemma BendOk(t: Trig, p: TrackParams, g: Pacing, l: Layout, rng: Stream, pos: nat,
               a0: real, a1: real, r0: real, r1: real, g0: real, g1: real, from: Pose)
    requires LayoutOk(t, l, from) && UnitStream(rng) && 0.0 < a0 <= a1 <= 176.0 && 0.0 < r0 <= r1
    ensures LayoutOk(t, BuildBend(t, p, g, l, rng, pos, a0, a1, r0, r1, g0, g1).1, from)
    ensures BuildBend(t, p, g, l, rng, pos, a0, a1, r0, r1, g0, g1).0 ==> BuildBend(t, p, g, l, rng, pos, a0, a1, r0, r1, g0, g1).1.sections != []
  {
    hide Range, Radians, AddTurn, ChooseDir, Phi, LayoutOk;
    RangeWithin(a0, a1, rng(pos));
    RangeWithin(r0, r1, rng(pos + 1));
    DegreesFit(a1);
    var angle, r, grade := Radians(Range(a0, a1, rng(pos))), Range(r0, r1, rng(pos + 1)), Range(g0, g1, rng(pos + 2));
    var dir := ChooseDir(p, g, Phi(p, l.pose.yaw), angle, rng(pos + 3));
    if dir != 0 {
      AddTurnOk(t, l, dir, r, angle, grade, from);
      TurnAdds(t, l, dir, r, angle, grade);
    }
  }

  lemma TurnAdds(t: Trig, l: Layout, dir: int, radius: real, angle: real, grade: real)
    requires dir != 0 && radius > 0.0 && angle > 0.0
    ensures AddTurn(t, l, dir, radius, angle, grade).sections != []
  {
  }

  lemma StraightOk(t: Trig, p: TrackParams, l: Layout, rng: Stream, pos: nat, from: Pose)
    requires LayoutOk(t, l, from) && UnitStream(rng) && p.Valid()
    ensures LayoutOk(t, BuildStraight(t, p, l, rng, pos).0, from) && BuildStraight(t, p, l, rng, pos).0.sections != []
  {
    hide Range, Radians, LayoutOk, PickWeighted, Profile;
    RangeWithin(50.0, 70.0, rng(pos + 1));
    RangeWithin(14.0, 40.0, rng(pos + 1));
    var length := if rng(pos) < 0.15 then Range(50.0, 70.0, rng(pos + 1)) else Range(14.0, 40.0, rng(pos + 1));
    forall drop, bump
      ensures LayoutOk(t, AddLine(t, l, length, drop, bump), from)
    {
      AddLineOk(t, l, length, drop, bump, from);
    }
  }

  lemma HairpinOk(t: Trig, p: TrackParams, g: Pacing, l: Layout, rng: Stream, pos: nat, from: Pose)
    requires LayoutOk(t, l, from) && UnitStream(rng)
    ensures LayoutOk(t, BuildHairpin(t, p, g, l, rng, pos).1, from)
    ensures BuildHairpin(t, p, g, l, rng, pos).0 ==> BuildHairpin(t, p, g, l, rng, pos).1.sections != []
  {
    hide Range, Radians, AddTurn, AddLine, Phi, LayoutOk;
    var exitDeg, r := Range(65.0, 86.0, rng(pos)), Range(14.0, 20.0, rng(pos + 1));
    var grade, link := Range(0.06, 0.09, rng(pos + 2)), Range(8.0, 14.0, rng(pos + 3));
    RangeWithin(14.0, 20.0, rng(pos + 1));
    RangeWithin(8.0, 14.0, rng(pos + 3));
    RadiansGrow(150.0, 176.0);
    var phi0 := Phi(p, l.pose.yaw);
    if Abs(phi0) >= Radians(60.0) {
      var angle := Clamp(Abs(phi0) + Radians(exitDeg), Radians(150.0), Radians(176.0));
      AddLineOk(t, l, link, link * 0.03, 0.0, from);
      var linked := if g.lastKind == Hairpin then AddLine(t, l, link, link * 0.03, 0.0) else l;
      AddTurnOk(t, linked, if phi0 > 0.0 then -1 else 1, r, angle, grade, from);
      TurnAdds(t, linked, if phi0 > 0.0 then -1 else 1, r, angle, grade);
    }
  }

  lemma EssesLayoutOk(t: Trig, l: Layout, dir: int, a1: real, r1: real, f2: real, h2: real, link: real, grade: real, from: Pose)
    requires LayoutOk(t, l, from) && dir != 0 && 0.0 < a1 <= Radians(60.0) && r1 > 0.0 && 0.0 < f2 <= 1.2 && h2 > 0.0
    ensures LayoutOk(t, EssesLayout(t, l, dir, a1, r1, f2, h2, link, grade), from)
    ensures EssesLayout(t, l, dir, a1, r1, f2, h2, link, grade).sections != []
  {
    hide LayoutOk, AddTurn, AddLine, Radians;
    Positive(r1, h2);
    ProductWithin(a1, f2, 1.2);
    EssesFit(a1, a1 * f2);
    var first := AddTurn(t, l, dir, r1, a1, grade);
    AddTurnOk(t, l, dir, r1, a1, grade, from);
    if link > 1.0 {
      AddLineOk(t, first, link, link * grade, 0.0, from);
    }
    var linked := if link > 1.0 then AddLine(t, first, link, link * grade, 0.0) else first;
    AddTurnOk(t, linked, -dir, r1 * h2, a1 * f2, grade, from);
    TurnAdds(t, linked, -dir, r1 * h2, a1 * f2, grade);
  }

  lemma EssesFit(a1: real, a2: real)
    requires 0.0 < a1 <= Radians(60.0) && 0.0 < a2 <= a1 * 1.2
    ensures a1 <= MAX_TURN && a2 <= MAX_TURN
  {
  }

  lemma EssesOk(t: Trig, p: TrackParams, g: Pacing, l: Layout, rng: Stream, pos: nat, from: Pose)
    requires LayoutOk(t, l, from) && UnitStream(rng)
    ensures LayoutOk(t, BuildEsses(t, p, g, l, rng, pos).1, from)
    ensures BuildEsses(t, p, g, l, rng, pos).0 ==> BuildEsses(t, p, g, l, rng, pos).1.sections != []
  {
    hide Range, Radians, EssesLayout, Phi, LayoutOk, ChooseDir;
    RangeWithin(35.0, 60.0, rng(pos));
    RangeWithin(26.0, 40.0, rng(pos + 1));
    RangeWithin(0.8, 1.2, rng(pos + 2));
    RangeWithin(0.85, 1.15, rng(pos + 3));
    var a1, r1 := Radians(Range(35.0, 60.0, rng(pos))), Range(26.0, 40.0, rng(pos + 1));
    var f2, h2 := Range(0.8, 1.2, rng(pos + 2)), Range(0.85, 1.15, rng(pos + 3));
    var link, grade := Range(0.0, 6.0, rng(pos + 4)), Range(0.03, 0.06, rng(pos + 5));
    var dir := ChooseDir(p, g, Phi(p, l.pose.yaw), a1, rng(pos + 6));
    if dir != 0 {
      EssesLayoutOk(t, l, dir, a1, r1, f2, h2, link, grade, from);
    }
  }

  lemma ChicaneLayoutOk(t: Trig, l: Layout, dir: int, a: real, r: real, link: real, grade: real, from: Pose)
    requires LayoutOk(t, l, from) && dir != 0 && 0.0 < a <= Radians(40.0) && r > 0.0 && link > 0.0
    ensures LayoutOk(t, ChicaneLayout(t, l, dir, a, r, link, grade), from)
    ensures ChicaneLayout(t, l, dir, a, r, link, grade).sections != []
  {
    hide LayoutOk, AddTurn, AddLine, Radians;
    ChicaneFit(a);
    var one := AddTurn(t, l, dir, r, a, grade);
    AddTurnOk(t, l, dir, r, a, grade, from);
    AddLineOk(t, one, link, link * grade, 0.0, from);
    var first := AddLine(t, one, link, link * grade, 0.0);
    AddTurnOk(t, first, -dir, r, 2.0 * a, grade, from);
    var two := AddTurn(t, first, -dir, r, 2.0 * a, grade);
    AddLineOk(t, two, link, link * grade, 0.0, from);
    var second := AddLine(t, two, link, link * grade, 0.0);
    AddTurnOk(t, second, dir, r, a, grade, from);
    TurnAdds(t, second, dir, r, a, grade);
  }

  lemma ChicaneFit(a: real)
    requires 0.0 < a <= Radians(40.0)
    ensures 2.0 * a <= MAX_TURN
  {
  }

  lemma ChicaneOk(t: Trig, p: TrackParams, g: Pacing, l: Layout, rng: Stream, pos: nat, from: Pose)
    requires LayoutOk(t, l, from) && UnitStream(rng)
    ensures LayoutOk(t, BuildChicane(t, p, g, l, rng, pos).1, from)
    ensures BuildChicane(t, p, g, l, rng, pos).0 ==> BuildChicane(t, p, g, l, rng, pos).1.sections != []
  {
    hide Range, Radians, ChicaneLayout, Phi, LayoutOk, ChooseDir;
    RangeWithin(25.0, 40.0, rng(pos));
    RangeWithin(18.0, 24.0, rng(pos + 1));
    RangeWithin(2.0, 5.0, rng(pos + 2));
    var a, r := Radians(Range(25.0, 40.0, rng(pos))), Range(18.0, 24.0, rng(pos + 1));
    var link, grade := Range(2.0, 5.0, rng(pos + 2)), Range(0.02, 0.05, rng(pos + 3));
    var dir := ChooseDir(p, g, Phi(p, l.pose.yaw), a, rng(pos + 4));
    if dir != 0 {
      ChicaneLayoutOk(t, l, dir, a, r, link, grade, from);
    }
  }

  lemma SpiralOk(t: Trig, p: TrackParams, g: Pacing, l: Layout, tightening: bool, rng: Stream, pos: nat, from: Pose)
    requires LayoutOk(t, l, from) && UnitStream(rng)
    ensures LayoutOk(t, BuildSpiral(t, p, g, l, tightening, rng, pos).1, from)
    ensures BuildSpiral(t, p, g, l, tightening, rng, pos).0 ==> BuildSpiral(t, p, g, l, tightening, rng, pos).1.sections != []
  {
    hide Range, Radians, ThreeTurns, Phi, LayoutOk, ChooseDir;
    RangeWithin(70.0, 130.0, rng(pos));
    RangeWithin(45.0, 60.0, rng(pos + 1));
    var total, r1, grade := Radians(Range(70.0, 130.0, rng(pos))), Range(45.0, 60.0, rng(pos + 1)), Range(0.03, 0.07, rng(pos + 2));
    var r2, r3 := Max(15.0, r1 * 0.65), Max(15.0, r1 * 0.42);
    SpiralFit(total);
    var dir := ChooseDir(p, g, Phi(p, l.pose.yaw), total, rng(pos + 3));
    if dir != 0 {
      ThreeTurnsOk(t, l, dir, grade, r1, total * 0.3, r2, total * 0.35, r3, total * 0.35, from);
      ThreeTurnsOk(t, l, dir, grade, r3, total * 0.35, r2, total * 0.35, r1, total * 0.3, from);
    }
  }

  lemma SpiralFit(total: real)
    requires 0.0 < total <= Radians(130.0)
    ensures 0.0 < total * 0.3 <= MAX_TURN && 0.0 < total * 0.35 <= MAX_TURN
  {
  }

  lemma ThreeTurnsOk(t: Trig, l: Layout, dir: int, grade: real, r1: real, a1: real, r2: real, a2: real, r3: real, a3: real, from: Pose)
    requires LayoutOk(t, l, from) && dir != 0 && r1 > 0.0 && r2 > 0.0 && r3 > 0.0
    requires 0.0 < a1 <= MAX_TURN && 0.0 < a2 <= MAX_TURN && 0.0 < a3 <= MAX_TURN
    ensures LayoutOk(t, ThreeTurns(t, l, dir, grade, r1, a1, r2, a2, r3, a3), from)
    ensures ThreeTurns(t, l, dir, grade, r1, a1, r2, a2, r3, a3).sections != []
  {
    hide AddTurn, LayoutOk, Radians;
    var one := AddTurn(t, l, dir, r1, a1, grade);
    var two := AddTurn(t, one, dir, r2, a2, grade);
    AddTurnOk(t, l, dir, r1, a1, grade, from);
    AddTurnOk(t, one, dir, r2, a2, grade, from);
    AddTurnOk(t, two, dir, r3, a3, grade, from);
    TurnAdds(t, two, dir, r3, a3, grade);
  }

  // Every feature that applies is a chain of well-made sections from the given pose.
  lemma FeatureOk(t: Trig, p: TrackParams, g: Pacing, kind: FeatureKind, from: Pose, rng: Stream, pos: nat)
    requires UnitStream(rng) && p.Valid()
    ensures var (ok, sections, q) := BuildFeature(t, p, g, kind, from, rng, pos);
            Chained(t, sections, from) && (ok ==> sections != [])
  {
    hide BuildStraight, BuildBend, BuildHairpin, BuildEsses, BuildChicane, BuildSpiral, Chained;
    var l := Layout([], from);
    EmptyLayout(t, from);
    match kind
    case Straight => StraightOk(t, p, l, rng, pos, from);
    case Sweeper => BendOk(t, p, g, l, rng, pos, 30.0, 60.0, 40.0, 70.0, 0.03, 0.06, from);
    case Corner => BendOk(t, p, g, l, rng, pos, 70.0, 100.0, 16.0, 24.0, 0.04, 0.08, from);
    case Hairpin => HairpinOk(t, p, g, l, rng, pos, from);
    case Esses => EssesOk(t, p, g, l, rng, pos, from);
    case Chicane => ChicaneOk(t, p, g, l, rng, pos, from);
    case Tightening => SpiralOk(t, p, g, l, true, rng, pos, from);
    case Opening => SpiralOk(t, p, g, l, false, rng, pos, from);
    case Start =>
  }

  lemma EmptyLayout(t: Trig, from: Pose)
    ensures Chained(t, [], from)
  {
  }
}
