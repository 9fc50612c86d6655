/** The endless track: features picked, checked, committed, and what every generated track keeps. */
module TrackGenerator {
  import opened Angles
  import opened Basics
  import opened TrackFeatures
  import opened TrackGrid
  import opened TrackSections
  import opened Vectors

  // A committed feature: its first section, how many it has, and whether it passed the
  // checks or was a fallback.
  datatype Feature = Feature(first: nat, count: nat, checked: bool)

  // The generator between two features; pos counts the draws taken from the stream.
  datatype Gen = Gen(sections: seq<Section>, grid: Grid, pos: nat, pacing: Pacing, log: seq<Feature>)

  // ---- footprints -------------------------------------------------------------

  // Samples of the centreline about three metres apart.
  function Steps(length: real): int {
    -((-(length / 3.0)).Floor)
  }

  lemma SomeSteps(length: real)
    requires length > 0.0
    ensures Steps(length) >= 1
  {
  }

  // How far along the k-th sample is.
  function Along(length: real, k: nat): real
    requires length > 0.0
  {
    SomeSteps(length);
    length * k as real / Steps(length) as real
  }

  function Sample(t: Trig, s: Section, k: nat): FootPoint
    requires s.length > 0.0
  {
    var c := CentreAt(t, s, Along(s.length, k));
    FootPoint(c.x, c.z, s.startDistance + Along(s.length, k))
  }

  function Footprint(t: Trig, s: Section): seq<FootPoint>
    requires s.length > 0.0
  {
    SomeSteps(s.length);
    seq(Steps(s.length) + 1, k requires 0 <= k => Sample(t, s, k))
  }

  // The samples begin and end with the section and are nowhere more than three metres apart.
  lemma SamplesClose(t: Trig, s: Section, k: nat)
    requires s.length > 0.0 && k < |Footprint(t, s)| - 1
    ensures Footprint(t, s)[0].distance == s.startDistance && Footprint(t, s)[|Footprint(t, s)| - 1].distance == s.startDistance + s.length
    ensures 0.0 <= Footprint(t, s)[k + 1].distance - Footprint(t, s)[k].distance <= 3.0
  {
    hide CentreAt;
    var n := Steps(s.length) as real;
    SomeSteps(s.length);
    StepShort(s.length, n, k as real);
    ExactQuotient(0.0, n, 0.0);
    ExactQuotient(s.length * n, n, s.length);
  }

  lemma StepShort(length: real, n: real, k: real)
    requires length > 0.0 && n >= 1.0 && n * 3.0 >= length
    ensures 0.0 <= length * (k + 1.0) / n - length * k / n <= 3.0
  {
    var step := length / n;
    assert step * n == length;
    assert length * (k + 1.0) == (step * (k + 1.0)) * n && length * k == (step * k) * n;
    ExactQuotient(length * (k + 1.0), n, step * (k + 1.0));
    ExactQuotient(length * k, n, step * k);
    assert step > 3.0 ==> step * n > 3.0 * n;
  }

  ghost predicate AllLong(sections: seq<Section>) {
    forall s | s in sections :: s.length > 0.0
  }

  function Footprints(t: Trig, sections: seq<Section>): seq<FootPoint>
    requires AllLong(sections)
  {
    if sections == [] then []
    else
      var front, last := sections[..|sections| - 1], sections[|sections| - 1];
      assert last in sections;
      assert forall s | s in front :: s in sections;
      Footprints(t, front) + Footprint(t, last)
  }

  // The recorded points are the samples of the sections.
  lemma {:induction false} FootprintsHold(t: Trig, sections: seq<Section>, f: FootPoint)
    requires AllLong(sections)
    ensures f in Footprints(t, sections) <==> SampledBy(t, sections, f)
  {
    hide Footprint, AllLong;
    if sections != [] {
      var front, n := sections[..|sections| - 1], |sections| - 1;
      FrontLong(sections);
      LongAt(sections, n);
      FootprintsHold(t, front, f);
      if SampledBy(t, front, f) {
        var j: nat :| j < |front| && front[j].length > 0.0 && f in Footprint(t, front[j]);
        assert sections[j] == front[j];
      }
      if SampledBy(t, sections, f) {
        var j: nat :| j < |sections| && sections[j].length > 0.0 && f in Footprint(t, sections[j]);
        assert j == n || front[j] == sections[j];
      }
    }
  }

  ghost predicate SampledBy(t: Trig, sections: seq<Section>, f: FootPoint) {
    exists j: nat :: j < |sections| && sections[j].length > 0.0 && f in Footprint(t, sections[j])
  }

  lemma LongAt(sections: seq<Section>, i: nat)
    requires AllLong(sections) && i < |sections|
    ensures sections[i].length > 0.0
  {
  }

  lemma FrontLong(sections: seq<Section>)
    requires AllLong(sections) && sections != []
    ensures AllLong(sections[..|sections| - 1])
  {
  }

  // ---- checking a candidate ---------------------------------------------------

  predicate SectionFits(t: Trig, p: TrackParams, grid: Grid, s: Section)
    requires s.length > 0.0
  {
    Abs(Phi(p, s.endYaw)) <= p.Band() && !Crowded(p, grid, Footprint(t, s))
  }

  predicate Crowded(p: TrackParams, grid: Grid, points: seq<FootPoint>) {
    exists c | c in points :: ConflictNearby(grid, c, p.clearance, p.clearanceSkip)
  }

  predicate FitsIn(t: Trig, p: TrackParams, grid: Grid, cand: seq<Section>)
    requires AllLong(cand)
  {
    forall s | s in cand :: SectionFits(t, p, grid, s)
  }

  // ---- committing -------------------------------------------------------------

  function RunoffOf(p: TrackParams, s: Section, style: RoadsideStyle): Sides {
    if style != Runoff then s.runoff
    else if s.turnAngle > 0.0 then s.runoff.(right := p.runoffWidth)
    else if s.turnAngle < 0.0 then s.runoff.(left := p.runoffWidth)
    else Sides(p.runoffWidth * 0.7, p.runoffWidth * 0.7)
  }

  function Dressed(p: TrackParams, before: seq<Section>, s: Section, kind: FeatureKind, part: nat, style: RoadsideStyle): Section {
    var d := s.(index := |before|, feature := kind, featurePart := part, style := style, runoff := RunoffOf(p, s, style));
    if before == [] then d.(prevStyle := style)
    else d.(prevStyle := before[|before| - 1].style, prevRunoff := before[|before| - 1].runoff)
  }

  function TurnSign(g: Pacing, s: Section): int {
    if s.turnAngle == 0.0 then g.lastTurnSign else if s.turnAngle > 0.0 then 1 else -1
  }

  function CommitOne(t: Trig, p: TrackParams, g: Gen, s: Section, kind: FeatureKind, part: nat, style: RoadsideStyle): Gen
    requires s.length > 0.0
  {
    g.(sections := g.sections + [Dressed(p, g.sections, s, kind, part, style)],
       grid := AddAll(g.grid, Footprint(t, s)),
       pacing := g.pacing.(lastTurnSign := TurnSign(g.pacing, s)))
  }

  // Committing a section takes no draw.
  lemma CommitIgnoresPos(t: Trig, p: TrackParams, g: Gen, s: Section, kind: FeatureKind, part: nat, style: RoadsideStyle, pos: nat)
    requires s.length > 0.0
    ensures CommitOne(t, p, g.(pos := pos), s, kind, part, style) == CommitOne(t, p, g, s, kind, part, style).(pos := pos)
  {
    hide Dressed, Footprint, AddAll, TurnSign;
  }

  function CommitFirst(t: Trig, p: TrackParams, g: Gen, cand: seq<Section>, kind: FeatureKind, style: RoadsideStyle, n: nat): Gen
    requires n <= |cand| && AllLong(cand)
  {
    if n == 0 then g
    else CommitOne(t, p, CommitFirst(t, p, g, cand, kind, style, n - 1), cand[n - 1], kind, n - 1, style)
  }

  function StyleOf(k: int): RoadsideStyle {
    if k <= 0 then Forest else if k == 1 then Cliff else if k == 2 then RockWall else Runoff
  }

  function DrawStyle(p: TrackParams, kind: FeatureKind, rng: Stream, pos: nat): (RoadsideStyle, nat) {
    if kind == Start then (Forest, pos)
    else var (k, q) := PickWeighted(p.styleWeight, rng, pos); (StyleOf(k), q)
  }

  function StraightSoFar(g: Pacing, kind: FeatureKind, last: Section): real {
    if kind == Straight || kind == Start then g.lastStraightLength + last.length else 0.0
  }

  function Committed(t: Trig, p: TrackParams, rng: Stream, g: Gen, cand: seq<Section>, kind: FeatureKind, checked: bool): Gen
    requires cand != [] && AllLong(cand)
  {
    var (style, q) := DrawStyle(p, kind, rng, g.pos);
    var c := CommitFirst(t, p, g, cand, kind, style, |cand|);
    c.(pos := q,
       pacing := c.pacing.(lastKind := kind, lastStraightLength := StraightSoFar(g.pacing, kind, cand[|cand| - 1])),
       log := g.log + [Feature(|g.sections|, |cand|, checked)])
  }

  // ---- the next feature -------------------------------------------------------

  function KindOf(k: int): FeatureKind {
    match k
    case 1 => Straight
    case 2 => Sweeper
    case 3 => Corner
    case 4 => Hairpin
    case 5 => Esses
    case 6 => Chicane
    case 7 => Tightening
    case 8 => Opening
    case _ => Start
  }

  // No tight feature off a long straight; hairpins only off a steep traverse.
  function Weights(p: TrackParams, g: Pacing, phi0: real): seq<real>
    requires |p.weight| == 9
  {
    var fast := g.lastStraightLength > p.longStraight;
    var hairpin := if fast || Abs(phi0) < Radians(60.0) then 0.0 else p.weight[4] * 2.5;
    [0.0, p.weight[1], p.weight[2], p.weight[3], hairpin, p.weight[5],
     if fast then 0.0 else p.weight[6], if fast then 0.0 else p.weight[7], p.weight[8]]
  }

  datatype Choice = Chosen(kind: FeatureKind, sections: seq<Section>) | NoChoice

  // Up to so many attempts from the pose; the first feature that applies and fits.
  function Choose(t: Trig, p: TrackParams, rng: Stream, g: Gen, from: Pose, pos: nat, attempts: nat): (Choice, nat)
    requires UnitStream(rng) && p.Valid()
    decreases attempts
  {
    if attempts == 0 then (NoChoice, pos)
    else
      var (k, q) := PickWeighted(Weights(p, g.pacing, Phi(p, from.yaw)), rng, pos);
      if k < 0 then (NoChoice, q)
      else
        var (ok, cand, r) := BuildFeature(t, p, g.pacing, KindOf(k), from, rng, q);
        FeatureLong(t, p, g.pacing, KindOf(k), from, rng, q);
        if ok && FitsIn(t, p, g.grid, cand) then (Chosen(KindOf(k), cand), r)
        else Choose(t, p, rng, g, from, r, attempts - 1)
  }

  lemma FeatureLong(t: Trig, p: TrackParams, g: Pacing, kind: FeatureKind, from: Pose, rng: Stream, pos: nat)
    requires UnitStream(rng) && p.Valid()
    ensures AllLong(BuildFeature(t, p, g, kind, from, rng, pos).1)
  {
    hide BuildFeature;
    FeatureOk(t, p, g, kind, from, rng, pos);
    ChainLong(t, BuildFeature(t, p, g, kind, from, rng, pos).1, from);
  }

  lemma ChainLong(t: Trig, sections: seq<Section>, from: Pose)
    requires Chained(t, sections, from)
    ensures AllLong(sections)
  {
    forall s | s in sections
      ensures s.length > 0.0
    {
      var i :| 0 <= i < |sections| && sections[i] == s;
      assert Linked(t, sections, i, from);
    }
  }

  // A gentle bend back towards the fall line, else a short straight.
  function Fallback(t: Trig, p: TrackParams, from: Pose): (f: (FeatureKind, Section))
    ensures f.1.length > 0.0
  {
    var phi0 := Phi(p, from.yaw);
    if Abs(phi0) > Radians(5.0) then
      var angle := FallbackAngle(phi0);
      BendHasLength(60.0, angle);
      (Sweeper, MakeArc(t, from, 60.0, if phi0 > 0.0 then -angle else angle, 60.0 * angle * 0.04))
    else
      (Straight, MakeLine(t, from, 20.0, 0.8, 0.0))
  }

  function FallbackAngle(phi0: real): (angle: real)
    requires Abs(phi0) > Radians(5.0)
    ensures 0.0 < angle <= Abs(phi0) && angle <= MAX_TURN
  {
    RadiansGrow(5.0, 40.0);
    RadiansGrow(40.0, 176.0);
    if Abs(phi0) < Radians(40.0) then Abs(phi0) else Radians(40.0)
  }

  lemma BendHasLength(radius: real, angle: real)
    requires radius > 0.0 && angle > 0.0
    ensures radius * Abs(angle) > 0.0 && radius * Abs(-angle) > 0.0
  {
  }

  function Appended(t: Trig, p: TrackParams, rng: Stream, g: Gen): Gen
    requires UnitStream(rng) && p.Valid() && g.sections != []
  {
    var from := EndPose(g.sections[|g.sections| - 1]);
    var (choice, q) := Choose(t, p, rng, g, from, g.pos, p.maxAttempts);
    ChosenOk(t, p, rng, g, from, g.pos, p.maxAttempts);
    if choice.Chosen? then Committed(t, p, rng, g.(pos := q), choice.sections, choice.kind, true)
    else
      var (kind, s) := Fallback(t, p, from);
      Committed(t, p, rng, g.(pos := q), [s], kind, false)
  }

  // What is chosen is a chain from the pose that fits.
  lemma {:induction false} ChosenOk(t: Trig, p: TrackParams, rng: Stream, g: Gen, from: Pose, pos: nat, attempts: nat)
    requires UnitStream(rng) && p.Valid()
    ensures var c := Choose(t, p, rng, g, from, pos, attempts).0;
            c.Chosen? ==> c.sections != [] && Chained(t, c.sections, from) && AllLong(c.sections) && FitsIn(t, p, g.grid, c.sections)
    decreases attempts
  {
    hide BuildFeature, Chained, AllLong, FitsIn, PickWeighted, Weights, Phi;
    if attempts != 0 {
      var (k, q) := PickWeighted(Weights(p, g.pacing, Phi(p, from.yaw)), rng, pos);
      if k >= 0 {
        var (ok, cand, r) := BuildFeature(t, p, g.pacing, KindOf(k), from, rng, q);
        FeatureLong(t, p, g.pacing, KindOf(k), from, rng, q);
        FeatureOk(t, p, g.pacing, KindOf(k), from, rng, q);
        if !(ok && FitsIn(t, p, g.grid, cand)) {
          ChosenOk(t, p, rng, g, from, r, attempts - 1);
        }
      }
    }
  }

  // ---- the track --------------------------------------------------------------

  function Origin(p: TrackParams): Pose {
    Pose(ORIGIN, p.descentYaw, 0.0)
  }

  const EMPTY := Gen([], map[], 0, Pacing(0, Start, 0.0), [])

  // Only the start straight.
  function Fresh(t: Trig, p: TrackParams, rng: Stream): Gen
    requires p.Valid()
  {
    var s := MakeLine(t, Origin(p), p.startLength, 0.0, 0.0).(kind := StartSection);
    Committed(t, p, rng, EMPTY, [s], Start, true)
  }

  lemma {:induction false} CommitGrows(t: Trig, p: TrackParams, g: Gen, cand: seq<Section>, kind: FeatureKind, style: RoadsideStyle, n: nat)
    requires n <= |cand| && AllLong(cand)
    ensures var c := CommitFirst(t, p, g, cand, kind, style, n);
            |c.sections| == |g.sections| + n && g.sections <= c.sections
  {
    hide AllLong, Footprint, AddAll, Dressed, TurnSign;
    if n != 0 {
      CommitGrows(t, p, g, cand, kind, style, n - 1);
    }
  }

  lemma AppendGrows(t: Trig, p: TrackParams, rng: Stream, g: Gen)
    requires UnitStream(rng) && p.Valid() && g.sections != []
    ensures |Appended(t, p, rng, g).sections| > |g.sections| && g.sections <= Appended(t, p, rng, g).sections
  {
    hide Choose, Fallback, CommitFirst, DrawStyle, StraightSoFar, EndPose, AllLong, Chained, FitsIn;
    var from := EndPose(g.sections[|g.sections| - 1]);
    var (choice, q) := Choose(t, p, rng, g, from, g.pos, p.maxAttempts);
    ChosenOk(t, p, rng, g, from, g.pos, p.maxAttempts);
    if choice.Chosen? {
      CommittedGrows(t, p, rng, g.(pos := q), choice.sections, choice.kind, true);
    } else {
      var (kind, s) := Fallback(t, p, from);
      OneLong(s);
      CommittedGrows(t, p, rng, g.(pos := q), [s], kind, false);
    }
  }

  lemma OneLong(s: Section)
    requires s.length > 0.0
    ensures AllLong([s])
  {
  }

  lemma CommittedGrows(t: Trig, p: TrackParams, rng: Stream, g: Gen, cand: seq<Section>, kind: FeatureKind, checked: bool)
    requires cand != [] && AllLong(cand)
    ensures var c := Committed(t, p, rng, g, cand, kind, checked).sections;
            |c| == |g.sections| + |cand| && g.sections <= c
  {
    hide CommitFirst, AllLong;
    CommitGrows(t, p, g, cand, kind, DrawStyle(p, kind, rng, g.pos).0, |cand|);
  }

  // Features appended until the section exists.
  function Ensured(t: Trig, p: TrackParams, rng: Stream, g: Gen, index: nat): (r: Gen)
    requires UnitStream(rng) && p.Valid() && g.sections != []
    ensures |r.sections| > index && g.sections <= r.sections
    decreases index + 1 - |g.sections|
  {
    AppendGrows(t, p, rng, g);
    if |g.sections| > index then g else Ensured(t, p, rng, Appended(t, p, rng, g), index)
  }

  // Two requests are one for the further section.
  lemma {:induction false} EnsuredTwice(t: Trig, p: TrackParams, rng: Stream, g: Gen, i: nat, j: nat)
    requires UnitStream(rng) && p.Valid() && g.sections != []
    ensures Ensured(t, p, rng, Ensured(t, p, rng, g, i), j) == Ensured(t, p, rng, g, if i < j then j else i)
    decreases i + 1 - |g.sections|
  {
    hide Appended;
    if |g.sections| <= i {
      AppendGrows(t, p, rng, g);
      EnsuredTwice(t, p, rng, Appended(t, p, rng, g), i, j);
    }
  }
}
