/** What every generated track keeps: joints, heading band, clearance, and one road for all. */
module TrackInvariants {
  import opened Angles
  import opened Basics
  import opened TrackFeatures
  import opened TrackGenerator
  import opened TrackGrid
  import opened TrackSections
  import opened Vectors

  // ---- headings ---------------------------------------------------------------

  // How far a heading is from the fall line, whole turns counted.
  ghost predicate InBand(p: TrackParams, yaw: real) {
    Abs(yaw - p.descentYaw) <= p.Band()
  }

  // A turn of at most 176 degrees cannot reach the band by going round the back.
  lemma TurnStaysInBand(t: Trig, p: TrackParams, s: Section)
    requires p.Valid() && WellMade(t, s) && Abs(s.turnAngle) <= MAX_TURN
    requires InBand(p, s.startYaw) && Abs(Phi(p, s.endYaw)) <= p.Band()
    ensures InBand(p, s.endYaw)
  {
    hide WrapAngle;
    Degrees();
    WrappedInBand(s.endYaw - p.descentYaw, p.Band());
  }

  lemma Degrees()
    ensures MAX_TURN + Radians(92.0) + Radians(92.0) == 2.0 * PI && Radians(92.0) < PI && MAX_TURN < PI
  {
  }

  // Why the band must stay under 92 degrees: from there on a turn of 176 degrees can go
  // round the back and look as if it ended inside.
  lemma BandLimit(band: real)
    requires 0.0 <= band < PI
    ensures (forall yaw, turn :: InsideAfter(band, yaw, turn)) <==> band < Radians(92.0)
  {
    Degrees();
    if band < Radians(92.0) {
      forall yaw, turn
        ensures InsideAfter(band, yaw, turn)
      {
        if Abs(yaw) <= band && Abs(turn) <= MAX_TURN && Abs(WrapAngle(yaw + turn)) <= band {
          WrappedInBand(yaw + turn, band);
        }
      }
    } else {
      RoundTheBack(band);
      assert !InsideAfter(band, band, 2.0 * PI - 2.0 * band);
    }
  }

  // A turn from inside the band that looks as if it ended inside does end inside.
  ghost predicate InsideAfter(band: real, yaw: real, turn: real) {
    Abs(yaw) <= band && Abs(turn) <= MAX_TURN && Abs(WrapAngle(yaw + turn)) <= band ==> Abs(yaw + turn) <= band
  }

  lemma RoundTheBack(band: real)
    requires Radians(92.0) <= band < PI
    ensures WrapAngle(2.0 * PI - band) == -band
  {
    var q := (3.0 * PI - band) / (2.0 * PI);
    assert q * (2.0 * PI) == 3.0 * PI - band;
    assert 1.0 < q < 2.0;
  }

  ghost predicate EndsInBand(p: TrackParams, sections: seq<Section>) {
    forall i | 0 <= i < |sections| :: InBand(p, sections[i].endYaw)
  }

  lemma {:induction false} CandidateInBand(t: Trig, p: TrackParams, grid: Grid, cand: seq<Section>, from: Pose, n: nat)
    requires p.Valid() && Chained(t, cand, from) && AllLong(cand) && FitsIn(t, p, grid, cand) && InBand(p, from.yaw) && n <= |cand|
    ensures forall i | 0 <= i < n :: InBand(p, cand[i].endYaw)
  {
    hide WellMade, InBand, Crowded, Phi;
    if n != 0 {
      CandidateInBand(t, p, grid, cand, from, n - 1);
      assert Linked(t, cand, n - 1, from);
      assert SectionFits(t, p, grid, cand[n - 1]);
      TurnStaysInBand(t, p, cand[n - 1]);
    }
  }

  lemma FallbackOk(t: Trig, p: TrackParams, from: Pose)
    requires p.Valid() && InBand(p, from.yaw)
    ensures var s := Fallback(t, p, from).1;
            WellMade(t, s) && Abs(s.turnAngle) <= MAX_TURN && StartPose(s) == from && InBand(p, s.endYaw)
  {
    hide WrapAngle, MakeArc, Radians;
    Degrees();
    WrapSmall(from.yaw - p.descentYaw);
    var phi0 := Phi(p, from.yaw);
    if Abs(phi0) > Radians(5.0) {
      var angle := FallbackAngle(phi0);
      var turn := if phi0 > 0.0 then -angle else angle;
      MakeArcOk(t, from, 60.0, turn, 60.0 * angle * 0.04);
    } else {
      RadiansGrow(176.0, 176.0);
    }
  }

  // ---- what the generator keeps -----------------------------------------------

  function EndOf(p: TrackParams, sections: seq<Section>): Pose {
    if sections == [] then Origin(p) else EndPose(sections[|sections| - 1])
  }

  // Numbered in order, within the band, and blending from the section before.
  ghost predicate Recorded(p: TrackParams, sections: seq<Section>, i: nat)
    requires i < |sections|
  {
    var s := sections[i];
    && s.index == i && InBand(p, s.startYaw) && InBand(p, s.endYaw)
    && (i > 0 ==> s.prevStyle == sections[i - 1].style && s.prevRunoff == sections[i - 1].runoff)
  }

  ghost predicate RoadOk(t: Trig, p: TrackParams, sections: seq<Section>) {
    Chained(t, sections, Origin(p)) && forall i | 0 <= i < |sections| :: Recorded(p, sections, i)
  }

  // No sample of a is too close to a sample of b.
  ghost predicate Apart(t: Trig, p: TrackParams, a: Section, b: Section)
    requires a.length > 0.0 && b.length > 0.0
  {
    forall c, f | c in Footprint(t, a) && f in Footprint(t, b) :: !Conflict(c, f, p.clearance, p.clearanceSkip)
  }

  ghost predicate ClearOfOlder(t: Trig, p: TrackParams, sections: seq<Section>, first: nat, count: nat)
    requires AllLong(sections) && first + count <= |sections|
  {
    forall i, j | first <= i < first + count && 0 <= j < first :: Apart(t, p, sections[i], sections[j])
  }

  // The log tiles the sections, and checked features are clear of everything older.
  ghost predicate LogOk(t: Trig, p: TrackParams, sections: seq<Section>, log: seq<Feature>)
    requires AllLong(sections)
  {
    && (forall k | 0 <= k < |log| :: FeatureClear(t, p, sections, log[k]))
    && (forall k | 0 <= k < |log| :: Follows(log, k))
    && |sections| == if log == [] then 0 else log[|log| - 1].first + log[|log| - 1].count
  }

  ghost predicate Follows(log: seq<Feature>, k: int)
    requires 0 <= k < |log|
  {
    log[k].first == if k == 0 then 0 else log[k - 1].first + log[k - 1].count
  }

  ghost predicate FeatureClear(t: Trig, p: TrackParams, sections: seq<Section>, f: Feature)
    requires AllLong(sections)
  {
    && f.first + f.count <= |sections|
    && (f.checked && 0.0 <= p.clearance <= CELL ==> ClearOfOlder(t, p, sections, f.first, f.count))
  }

  ghost predicate GenOk(t: Trig, p: TrackParams, g: Gen) {
    && RoadOk(t, p, g.sections) && AllLong(g.sections)
    && g.grid == GridOf(Footprints(t, g.sections))
    && LogOk(t, p, g.sections, g.log)
  }

  // ---- committing keeps it ----------------------------------------------------

  // The same road: what styles and numbering leave alone.
  ghost predicate SameRoad(a: Section, b: Section) {
    && a.start == b.start && a.startYaw == b.startYaw && a.length == b.length && a.turnAngle == b.turnAngle
    && a.drop == b.drop && a.bump == b.bump && a.startDistance == b.startDistance && a.end == b.end && a.endYaw == b.endYaw
  }

  lemma SameFootprint(t: Trig, a: Section, b: Section)
    requires SameRoad(a, b) && a.length > 0.0
    ensures Footprint(t, a) == Footprint(t, b)
  {
    hide Steps, Sample;
    SomeSteps(a.length);
    forall k | 0 <= k < |Footprint(t, a)|
      ensures Footprint(t, a)[k] == Footprint(t, b)[k]
    {
      SameSample(t, a, b, k);
    }
  }

  lemma SameSample(t: Trig, a: Section, b: Section, k: nat)
    requires SameRoad(a, b) && a.length > 0.0
    ensures Sample(t, a, k) == Sample(t, b, k)
  {
    hide CentreAt, Along;
    SameCentre(t, a, b, Along(a.length, k));
  }

  lemma SameCentre(t: Trig, a: Section, b: Section, along: real)
    requires SameRoad(a, b) && a.length > 0.0
    ensures CentreAt(t, a, along).x == CentreAt(t, b, along).x && CentreAt(t, a, along).z == CentreAt(t, b, along).z
  {
    hide Curvature, ArcPoint, HeightAt, HorizontalForward, Plus, Times;
  }

  lemma DressedSame(t: Trig, p: TrackParams, before: seq<Section>, s: Section, kind: FeatureKind, part: nat, style: RoadsideStyle)
    requires s.length > 0.0
    ensures var d := Dressed(p, before, s, kind, part, style);
            SameRoad(d, s) && Footprint(t, d) == Footprint(t, s)
  {
    hide Footprint, RunoffOf;
    SameFootprint(t, Dressed(p, before, s, kind, part, style), s);
  }

  // The road grows by one section.
  lemma RoadGrows(t: Trig, p: TrackParams, before: seq<Section>, s: Section, kind: FeatureKind, part: nat, style: RoadsideStyle)
    requires RoadOk(t, p, before) && (before == [] ==> InBand(p, p.descentYaw))
    requires WellMade(t, s) && Abs(s.turnAngle) <= MAX_TURN && StartPose(s) == EndOf(p, before) && InBand(p, s.endYaw)
    ensures RoadOk(t, p, before + [Dressed(p, before, s, kind, part, style)])
  {
    hide InBand, RunoffOf, Chained;
    var d := Dressed(p, before, s, kind, part, style);
    ChainGrows(t, before, d, Origin(p));
    forall i | 0 <= i < |before| + 1
      ensures Recorded(p, before + [d], i)
    {
      if i < |before| {
        assert Recorded(p, before, i);
      } else if i > 0 {
        assert Recorded(p, before, i - 1);
      }
    }
  }

  lemma GridGrows(t: Trig, before: seq<Section>, d: Section)
    requires AllLong(before) && d.length > 0.0
    ensures AllLong(before + [d])
    ensures GridOf(Footprints(t, before + [d])) == AddAll(GridOf(Footprints(t, before)), Footprint(t, d))
  {
    hide GridOf, AddAll, Footprint;
    var all := before + [d];
    forall s | s in all
      ensures s.length > 0.0
    {
      assert s in before || s == d;
    }
    assert all[..|all| - 1] == before;
    var more := Footprint(t, d);
    GridOfAppend(Footprints(t, before), more, |more|);
    assert more[..|more|] == more;
  }

  ghost predicate CommitOk(t: Trig, p: TrackParams, sections: seq<Section>, grid: Grid) {
    RoadOk(t, p, sections) && AllLong(sections) && grid == GridOf(Footprints(t, sections))
  }

  lemma CommitOneKeeps(t: Trig, p: TrackParams, g: Gen, s: Section, kind: FeatureKind, part: nat, style: RoadsideStyle)
    requires CommitOk(t, p, g.sections, g.grid) && p.Valid()
    requires WellMade(t, s) && Abs(s.turnAngle) <= MAX_TURN && StartPose(s) == EndOf(p, g.sections) && InBand(p, s.endYaw)
    ensures var c := CommitOne(t, p, g, s, kind, part, style);
            CommitOk(t, p, c.sections, c.grid) && EndOf(p, c.sections) == EndPose(s)
  {
    hide GridOf, AddAll, Footprint, Footprints, AllLong, RoadOk, Dressed, StartPose, EndOf;
    var d := Dressed(p, g.sections, s, kind, part, style);
    RoadGrows(t, p, g.sections, s, kind, part, style);
    DressedSame(t, p, g.sections, s, kind, part, style);
    GridGrows(t, g.sections, d);
    EndIs(p, g.sections, d, s);
  }

  lemma EndIs(p: TrackParams, before: seq<Section>, d: Section, s: Section)
    requires SameRoad(d, s)
    ensures EndOf(p, before + [d]) == EndPose(s)
  {
  }

  lemma {:induction false} CommitFirstKeeps(t: Trig, p: TrackParams, g: Gen, cand: seq<Section>, kind: FeatureKind, style: RoadsideStyle, n: nat)
    requires CommitOk(t, p, g.sections, g.grid) && p.Valid() && n <= |cand| && AllLong(cand)
    requires Chained(t, cand, EndOf(p, g.sections)) && EndsInBand(p, cand)
    ensures var c := CommitFirst(t, p, g, cand, kind, style, n);
            && CommitOk(t, p, c.sections, c.grid) && |c.sections| == |g.sections| + n && g.sections <= c.sections
            && EndOf(p, c.sections) == (if n == 0 then EndOf(p, g.sections) else EndPose(cand[n - 1]))
            && forall i | 0 <= i < n :: Footprint(t, cand[i]) == Footprint(t, c.sections[|g.sections| + i])
  {
    hide CommitOk, AllLong, Footprint, EndOf, AddAll, Dressed, TurnSign, WellMade, EndPose, StartPose, InBand;
    if n != 0 {
      CommitFirstKeeps(t, p, g, cand, kind, style, n - 1);
      assert Linked(t, cand, n - 1, EndOf(p, g.sections));
      var c := CommitFirst(t, p, g, cand, kind, style, n - 1);
      LongAt(cand, n - 1);
      CommitOneKeeps(t, p, c, cand[n - 1], kind, n - 1, style);
      DressedSame(t, p, c.sections, cand[n - 1], kind, n - 1, style);
    }
  }

  // The grid finds a section crowded exactly when one of its samples is too close to one
  // of an older section.
  lemma CrowdedExactly(t: Trig, p: TrackParams, sections: seq<Section>, s: Section)
    requires AllLong(sections) && s.length > 0.0 && 0.0 <= p.clearance <= CELL
    ensures !Crowded(p, GridOf(Footprints(t, sections)), Footprint(t, s)) <==> ClearOfAll(t, p, sections, s)
  {
    hide Footprint, Footprints, AllLong, Conflict, ConflictNearby, GridOf;
    var points := Footprints(t, sections);
    forall c | c in Footprint(t, s)
      ensures ConflictNearby(GridOf(points), c, p.clearance, p.clearanceSkip) <==> ConflictAnywhere(points, c, p.clearance, p.clearanceSkip)
    {
      LookupExact(points, c, p.clearance, p.clearanceSkip);
    }
    if ClearOfAll(t, p, sections, s) {
      forall c, f | c in Footprint(t, s) && f in points
        ensures !Conflict(c, f, p.clearance, p.clearanceSkip)
      {
        FootprintsHold(t, sections, f);
        var j: nat :| j < |sections| && sections[j].length > 0.0 && f in Footprint(t, sections[j]);
        assert Apart(t, p, s, sections[j]);
      }
    } else {
      LongAll(sections);
      var j: nat :| j < |sections| && !Apart(t, p, s, sections[j]);
      var c, f :| c in Footprint(t, s) && f in Footprint(t, sections[j]) && Conflict(c, f, p.clearance, p.clearanceSkip);
      FootprintsHold(t, sections, f);
      assert f in points && ConflictAnywhere(points, c, p.clearance, p.clearanceSkip);
    }
  }

  lemma LongAll(sections: seq<Section>)
    requires AllLong(sections)
    ensures forall j: nat | j < |sections| :: sections[j].length > 0.0
  {
  }

  ghost predicate ClearOfAll(t: Trig, p: TrackParams, sections: seq<Section>, s: Section)
    requires AllLong(sections) && s.length > 0.0
  {
    forall j: nat | j < |sections| :: Apart(t, p, s, sections[j])
  }

  lemma OlderFeaturesStayClear(t: Trig, p: TrackParams, sections: seq<Section>, more: seq<Section>, f: Feature)
    requires AllLong(sections) && AllLong(more) && sections <= more && FeatureClear(t, p, sections, f)
    ensures FeatureClear(t, p, more, f)
  {
    hide Apart, AllLong;
  }

  // Whether a new feature, checked or not, is clear of all older road can be read off the
  // grid before it is committed.
  lemma NewFeatureClearIff(t: Trig, p: TrackParams, sections: seq<Section>, more: seq<Section>, cand: seq<Section>)
    requires AllLong(sections) && AllLong(more) && AllLong(cand) && sections <= more && |more| == |sections| + |cand|
    requires forall i | 0 <= i < |cand| :: Footprint(t, cand[i]) == Footprint(t, more[|sections| + i])
    requires 0.0 <= p.clearance <= CELL
    ensures ClearOfOlder(t, p, more, |sections|, |cand|) <==> NoneCrowded(t, p, sections, cand)
  {
    hide Footprint, Conflict, Crowded, GridOf;
    var n := |sections|;
    LongAll(cand);
    forall i | 0 <= i < |cand|
      ensures !Crowded(p, GridOf(Footprints(t, sections)), Footprint(t, cand[i])) <==> ClearFrom(t, p, more, n + i, n)
    {
      CrowdedExactly(t, p, sections, cand[i]);
      LongAll(more);
      assert more[n + i].length > 0.0;
      SameClear(t, p, sections, more, cand[i], n + i);
    }
    if NoneCrowded(t, p, sections, cand) {
      forall i, j | n <= i < n + |cand| && 0 <= j < n
        ensures Apart(t, p, more[i], more[j])
      {
        assert cand[i - n].length > 0.0;
        assert ClearFrom(t, p, more, n + (i - n), n);
      }
    }
    if ClearOfOlder(t, p, more, n, |cand|) {
      forall k: nat | n <= k < |more|
        ensures ClearFrom(t, p, more, k, n)
      {
      }
    }
  }

  ghost predicate NoneCrowded(t: Trig, p: TrackParams, sections: seq<Section>, cand: seq<Section>)
    requires AllLong(sections) && AllLong(cand)
  {
    LongAll(cand);
    forall i | 0 <= i < |cand| :: !Crowded(p, GridOf(Footprints(t, sections)), Footprint(t, cand[i]))
  }

  ghost predicate ClearFrom(t: Trig, p: TrackParams, more: seq<Section>, i: nat, n: nat)
    requires AllLong(more) && i < |more| && n <= |more|
  {
    LongAll(more);
    forall j: nat | j < n :: Apart(t, p, more[i], more[j])
  }

  lemma SameClear(t: Trig, p: TrackParams, sections: seq<Section>, more: seq<Section>, s: Section, i: nat)
    requires AllLong(sections) && AllLong(more) && sections <= more && |sections| <= i < |more|
    requires s.length > 0.0 && more[i].length > 0.0 && Footprint(t, s) == Footprint(t, more[i])
    ensures ClearOfAll(t, p, sections, s) <==> ClearFrom(t, p, more, i, |sections|)
  {
    hide Footprint, Conflict;
    LongAll(more);
    forall j: nat | j < |sections|
      ensures Apart(t, p, s, sections[j]) <==> Apart(t, p, more[i], more[j])
    {
      assert sections[j] == more[j];
    }
  }

  // A candidate that fits is not crowded.
  lemma NewFeatureIsClear(t: Trig, p: TrackParams, sections: seq<Section>, more: seq<Section>, cand: seq<Section>)
    requires AllLong(sections) && AllLong(more) && AllLong(cand) && sections <= more && |more| == |sections| + |cand|
    requires forall i | 0 <= i < |cand| :: Footprint(t, cand[i]) == Footprint(t, more[|sections| + i])
    requires sections == [] || FitsIn(t, p, GridOf(Footprints(t, sections)), cand)
    requires 0.0 <= p.clearance <= CELL
    ensures ClearOfOlder(t, p, more, |sections|, |cand|)
  {
    hide Footprint, Crowded, GridOf, Phi;
    if sections != [] {
      LongAll(cand);
      forall i | 0 <= i < |cand|
        ensures !Crowded(p, GridOf(Footprints(t, sections)), Footprint(t, cand[i]))
      {
        assert cand[i] in cand;
        assert SectionFits(t, p, GridOf(Footprints(t, sections)), cand[i]);
      }
      NewFeatureClearIff(t, p, sections, more, cand);
    }
  }

  lemma LogGrows(t: Trig, p: TrackParams, sections: seq<Section>, more: seq<Section>, log: seq<Feature>, f: Feature)
    requires AllLong(sections) && AllLong(more) && sections <= more && LogOk(t, p, sections, log)
    requires FeatureClear(t, p, more, f) && f.first == |sections| && f.first + f.count == |more|
    ensures LogOk(t, p, more, log + [f])
  {
    hide FeatureClear, AllLong;
    var all, n := log + [f], |log|;
    assert all[n] == f;
    forall k | 0 <= k < n
      ensures FeatureClear(t, p, more, all[k])
    {
      OlderFeaturesStayClear(t, p, sections, more, log[k]);
      assert all[k] == log[k];
    }
    forall k | 0 <= k < n
      ensures Follows(all, k)
    {
      assert Follows(log, k);
      assert all[k] == log[k] && (k > 0 ==> all[k - 1] == log[k - 1]);
    }
    assert n > 0 ==> all[n - 1] == log[n - 1];
  }

  lemma CommittedKeeps(t: Trig, p: TrackParams, rng: Stream, g: Gen, cand: seq<Section>, kind: FeatureKind, checked: bool)
    requires GenOk(t, p, g) && p.Valid() && cand != [] && AllLong(cand)
    requires Chained(t, cand, EndOf(p, g.sections)) && EndsInBand(p, cand)
    requires checked && g.sections != [] ==> FitsIn(t, p, g.grid, cand)
    ensures GenOk(t, p, Committed(t, p, rng, g, cand, kind, checked))
  {
    hide AllLong, Footprint, CommitFirst, EndOf, EndPose, Chained, EndsInBand, RoadOk, SectionFits, GridOf, LogOk, ClearOfOlder, StraightSoFar, DrawStyle;
    var style := DrawStyle(p, kind, rng, g.pos).0;
    CommitFirstKeeps(t, p, g, cand, kind, style, |cand|);
    var more := CommitFirst(t, p, g, cand, kind, style, |cand|).sections;
    if checked && 0.0 <= p.clearance <= CELL {
      NewFeatureIsClear(t, p, g.sections, more, cand);
    }
    LogGrows(t, p, g.sections, more, g.log, Feature(|g.sections|, |cand|, checked));
  }

  lemma FreshOk(t: Trig, p: TrackParams, rng: Stream)
    requires p.Valid()
    ensures GenOk(t, p, Fresh(t, p, rng))
  {
    hide Committed;
    var s := MakeLine(t, Origin(p), p.startLength, 0.0, 0.0).(kind := StartSection);
    EmptyOk(t, p);
    OneChained(t, s, Origin(p));
    CommittedKeeps(t, p, rng, EMPTY, [s], Start, true);
  }

  lemma EmptyOk(t: Trig, p: TrackParams)
    ensures GenOk(t, p, EMPTY)
  {
  }

  lemma OneChained(t: Trig, s: Section, from: Pose)
    requires WellMade(t, s) && Abs(s.turnAngle) <= MAX_TURN && StartPose(s) == from
    ensures Chained(t, [s], from) && AllLong([s])
  {
    EmptyLayout(t, from);
    ChainGrows(t, [], s, from);
    assert [] + [s] == [s];
  }

  // Appending a feature, checked or fallback, keeps everything.
  lemma AppendedKeeps(t: Trig, p: TrackParams, rng: Stream, g: Gen)
    requires UnitStream(rng) && p.Valid() && g.sections != [] && GenOk(t, p, g)
    ensures GenOk(t, p, Appended(t, p, rng, g))
  {
    hide Committed, Choose, Fallback, Chained, AllLong, FitsIn, LogOk, GridOf, Footprints, WellMade, InBand, EndPose;
    var from := EndPose(g.sections[|g.sections| - 1]);
    LastInBand(t, p, g.sections);
    var (choice, q) := Choose(t, p, rng, g, from, g.pos, p.maxAttempts);
    ChosenOk(t, p, rng, g, from, g.pos, p.maxAttempts);
    if choice.Chosen? {
      CandidateInBand(t, p, g.grid, choice.sections, from, |choice.sections|);
      CommittedKeeps(t, p, rng, g.(pos := q), choice.sections, choice.kind, true);
    } else {
      var (kind, s) := Fallback(t, p, from);
      FallbackOk(t, p, from);
      OneChained(t, s, from);
      CommittedKeeps(t, p, rng, g.(pos := q), [s], kind, false);
    }
  }

  lemma LastInBand(t: Trig, p: TrackParams, sections: seq<Section>)
    requires RoadOk(t, p, sections) && sections != []
    ensures InBand(p, EndPose(sections[|sections| - 1]).yaw)
  {
    assert Recorded(p, sections, |sections| - 1);
  }

  lemma {:induction false} EnsuredKeeps(t: Trig, p: TrackParams, rng: Stream, g: Gen, index: nat)
    requires UnitStream(rng) && p.Valid() && g.sections != [] && GenOk(t, p, g)
    ensures GenOk(t, p, Ensured(t, p, rng, g, index))
    decreases index + 1 - |g.sections|
  {
    hide Appended, GenOk;
    if |g.sections| <= index {
      AppendGrows(t, p, rng, g);
      AppendedKeeps(t, p, rng, g);
      EnsuredKeeps(t, p, rng, Appended(t, p, rng, g), index);
    }
  }

  // ---- every run of calls -----------------------------------------------------

  // What callers do to a track after a reset.
  datatype Call = EnsureTo(index: nat) | Advance(current: nat)

  function Requested(p: TrackParams, c: Call): nat {
    if c.EnsureTo? then c.index else c.current + p.forwardBufferSections
  }

  function Run(t: Trig, p: TrackParams, rng: Stream, calls: seq<Call>): (g: Gen)
    requires UnitStream(rng) && p.Valid()
    ensures g.sections != []
  {
    if calls == [] then Ensured(t, p, rng, Started(t, p, rng), p.forwardBufferSections)
    else Ensured(t, p, rng, Run(t, p, rng, calls[..|calls| - 1]), Requested(p, calls[|calls| - 1]))
  }

  function Started(t: Trig, p: TrackParams, rng: Stream): (g: Gen)
    requires p.Valid()
    ensures |g.sections| == 1
  {
    var s := MakeLine(t, Origin(p), p.startLength, 0.0, 0.0).(kind := StartSection);
    CommittedGrows(t, p, rng, EMPTY, [s], Start, true);
    Fresh(t, p, rng)
  }

  function Furthest(p: TrackParams, calls: seq<Call>): nat {
    if calls == [] then p.forwardBufferSections
    else MaxNat(Furthest(p, calls[..|calls| - 1]), Requested(p, calls[|calls| - 1]))
  }

  // The whole generator, stream position and grid included, depends on nothing but the
  // furthest section ever asked for.
  lemma {:induction false} RunDependsOnFurthest(t: Trig, p: TrackParams, rng: Stream, calls: seq<Call>)
    requires UnitStream(rng) && p.Valid()
    ensures Run(t, p, rng, calls) == Ensured(t, p, rng, Started(t, p, rng), Furthest(p, calls))
  {
    hide Ensured, Started, Requested;
    if calls != [] {
      var front := calls[..|calls| - 1];
      RunDependsOnFurthest(t, p, rng, front);
      EnsuredTwice(t, p, rng, Started(t, p, rng), Furthest(p, front), Requested(p, calls[|calls| - 1]));
    }
  }

  // Section i of the one endless road of a stream and its parameters.
  function RoadAt(t: Trig, p: TrackParams, rng: Stream, i: nat): Section
    requires UnitStream(rng) && p.Valid()
  {
    Ensured(t, p, rng, Started(t, p, rng), i).sections[i]
  }

  // Whatever was asked for in whatever order, the sections are a prefix of that road,
  // so any two peers agree as far as both have generated.
  lemma OneRoad(t: Trig, p: TrackParams, rng: Stream, calls: seq<Call>, i: nat)
    requires UnitStream(rng) && p.Valid() && i < |Run(t, p, rng, calls).sections|
    ensures Run(t, p, rng, calls).sections[i] == RoadAt(t, p, rng, i)
  {
    hide Started, Furthest, Run, Appended;
    RunDependsOnFurthest(t, p, rng, calls);
    var start, far := Started(t, p, rng), Furthest(p, calls);
    if i <= far {
      EnsuredTwice(t, p, rng, start, i, far);
    } else {
      EnsuredTwice(t, p, rng, start, far, i);
    }
  }

  lemma {:induction false} RunOk(t: Trig, p: TrackParams, rng: Stream, calls: seq<Call>)
    requires UnitStream(rng) && p.Valid()
    ensures GenOk(t, p, Run(t, p, rng, calls))
  {
    hide GenOk, Ensured, Fresh;
    if calls == [] {
      FreshOk(t, p, rng);
      EnsuredKeeps(t, p, rng, Started(t, p, rng), p.forwardBufferSections);
    } else {
      var front := calls[..|calls| - 1];
      RunOk(t, p, rng, front);
      EnsuredKeeps(t, p, rng, Run(t, p, rng, front), Requested(p, calls[|calls| - 1]));
    }
  }

  // The heading stays in the band at every point of every section, fallbacks included.
  lemma HeadingInBand(t: Trig, p: TrackParams, rng: Stream, calls: seq<Call>, i: nat, at: real)
    requires UnitStream(rng) && p.Valid() && i < |Run(t, p, rng, calls).sections|
    ensures Abs(Phi(p, YawAt(Run(t, p, rng, calls).sections[i], at))) <= p.Band()
  {
    hide Run, WrapAngle, YawAt, WellMade, LogOk, GridOf, Footprints, AllLong;
    RunOk(t, p, rng, calls);
    var sections := Run(t, p, rng, calls).sections;
    var s := sections[i];
    assert Linked(t, sections, i, Origin(p)) && Recorded(p, sections, i);
    YawBetween(t, s, at);
    Degrees();
    WrapSmall(YawAt(s, at) - p.descentYaw);
  }

  // Consecutive sections meet: the curve of the one leads to where the curve of the next
  // begins, at the same height, heading and distance along the road.
  lemma JointsMeet(t: Trig, p: TrackParams, rng: Stream, calls: seq<Call>, i: nat)
    requires UnitStream(rng) && p.Valid() && t.Valid() && i + 1 < |Run(t, p, rng, calls).sections|
    ensures var a, b := Run(t, p, rng, calls).sections[i], Run(t, p, rng, calls).sections[i + 1];
            && a.length > 0.0 && b.length > 0.0
            && CentreAt(t, a, a.length) == CentreAt(t, b, 0.0)
            && Curve(t, a, a.length).(y := HeightAt(t, a, a.length)) == Curve(t, b, 0.0).(y := HeightAt(t, b, 0.0))
            && YawAt(a, a.length) == YawAt(b, 0.0)
            && b.startDistance == a.startDistance + a.length
  {
    hide Run, LogOk, GridOf, Footprints, AllLong, CentreAt, YawAt, Recorded, Phi;
    RunOk(t, p, rng, calls);
    var sections := Run(t, p, rng, calls).sections;
    var a, b := sections[i], sections[i + 1];
    assert Linked(t, sections, i, Origin(p)) && Linked(t, sections, i + 1, Origin(p));
    CentreEnds(t, a);
    CentreEnds(t, b);
    YawEnds(t, a);
    YawEnds(t, b);
  }

  lemma YawEnds(t: Trig, s: Section)
    requires WellMade(t, s)
    ensures YawAt(s, 0.0) == s.startYaw && YawAt(s, s.length) == s.endYaw
  {
    assert s.turnAngle / s.length * s.length == s.turnAngle;
  }

  // Every sample of a feature that was checked, in every reachable track, is at least the
  // clearance from every older feature's sample further back than the skip.
  lemma CheckedRoadIsClear(t: Trig, p: TrackParams, rng: Stream, calls: seq<Call>, k: nat, i: nat, j: nat)
    requires UnitStream(rng) && p.Valid() && 0.0 <= p.clearance <= CELL
    requires var g := Run(t, p, rng, calls);
             k < |g.log| && g.log[k].checked && g.log[k].first <= i < g.log[k].first + g.log[k].count && j < g.log[k].first
    ensures var sections := Run(t, p, rng, calls).sections;
            && j < i < |sections| && sections[i].length > 0.0 && sections[j].length > 0.0
            && forall c, f | c in Footprint(t, sections[i]) && f in Footprint(t, sections[j]) && c.distance - f.distance >= p.clearanceSkip ::
                 Square(c.x - f.x) + Square(c.z - f.z) >= Square(p.clearance)
  {
    hide Run, RoadOk, GridOf, Footprints, Footprint, AllLong, Square;
    RunOk(t, p, rng, calls);
    var g := Run(t, p, rng, calls);
    assert FeatureClear(t, p, g.sections, g.log[k]);
    LongAt(g.sections, i);
    LongAt(g.sections, j);
    assert Apart(t, p, g.sections[i], g.sections[j]);
  }

  // ---- the clearance of fallback sections ----------------------------------------

  lemma SliceLong(sections: seq<Section>, i: nat, j: nat)
    requires AllLong(sections) && i <= j <= |sections|
    ensures AllLong(sections[i..j]) && AllLong(sections[..i])
  {
  }

  // Checked or not: in every run a feature is clear of all older road exactly when none
  // of its sections was crowded against the grid of what came before. Checked features
  // always are.
  lemma FeatureClearIff(t: Trig, p: TrackParams, rng: Stream, calls: seq<Call>, k: nat)
    requires UnitStream(rng) && p.Valid() && 0.0 <= p.clearance <= CELL && k < |Run(t, p, rng, calls).log|
    ensures var g := Run(t, p, rng, calls);
            var f, n := g.log[k], g.log[k].first + g.log[k].count;
            && n <= |g.sections| && AllLong(g.sections) && AllLong(g.sections[..f.first]) && AllLong(g.sections[f.first..n])
            && (ClearOfOlder(t, p, g.sections, f.first, f.count) <==> NoneCrowded(t, p, g.sections[..f.first], g.sections[f.first..n]))
            && (f.checked ==> ClearOfOlder(t, p, g.sections, f.first, f.count))
  {
    hide Run, RoadOk, GridOf, Footprint, AllLong, NoneCrowded, ClearOfOlder;
    RunOk(t, p, rng, calls);
    var g := Run(t, p, rng, calls);
    var f := g.log[k];
    assert FeatureClear(t, p, g.sections, f);
    SliceLong(g.sections, f.first, f.first + f.count);
    SliceLong(g.sections, f.first + f.count, |g.sections|);
    var older, upTo, own := g.sections[..f.first], g.sections[..f.first + f.count], g.sections[f.first..f.first + f.count];
    OwnFootprints(t, upTo, older, own);
    NewFeatureClearIff(t, p, older, upTo, own);
    SameOlder(t, p, g.sections, upTo, f.first, f.count);
  }

  lemma OwnFootprints(t: Trig, upTo: seq<Section>, older: seq<Section>, own: seq<Section>)
    requires AllLong(upTo) && AllLong(own) && upTo == older + own
    ensures forall i | 0 <= i < |own| :: upTo[|older| + i] == own[i] && own[i].length > 0.0
  {
    LongAll(own);
  }

  lemma SameOlder(t: Trig, p: TrackParams, all: seq<Section>, upTo: seq<Section>, first: nat, count: nat)
    requires AllLong(all) && AllLong(upTo) && upTo <= all && |upTo| == first + count
    ensures ClearOfOlder(t, p, all, first, count) <==> ClearOfOlder(t, p, upTo, first, count)
  {
    hide Apart;
    LongAll(all);
    if ClearOfOlder(t, p, upTo, first, count) {
      forall i, j | first <= i < first + count && 0 <= j < first
        ensures Apart(t, p, all[i], all[j])
      {
        assert all[i] == upTo[i] && all[j] == upTo[j];
      }
    }
    if ClearOfOlder(t, p, all, first, count) {
      forall i, j | first <= i < first + count && 0 <= j < first
        ensures Apart(t, p, upTo[i], upTo[j])
      {
        assert all[i] == upTo[i] && all[j] == upTo[j];
      }
    }
  }

  // So the fallback section is clear exactly when the grid, asked before committing it,
  // would have let it pass.
  lemma FallbackClearIff(t: Trig, p: TrackParams, rng: Stream, g: Gen)
    requires UnitStream(rng) && p.Valid() && g.sections != [] && GenOk(t, p, g) && 0.0 <= p.clearance <= CELL
    requires Choose(t, p, rng, g, EndPose(g.sections[|g.sections| - 1]), g.pos, p.maxAttempts).0.NoChoice?
    ensures var next, s := Appended(t, p, rng, g), Fallback(t, p, EndPose(g.sections[|g.sections| - 1])).1;
            && AllLong(next.sections) && |next.sections| == |g.sections| + 1
            && (ClearOfOlder(t, p, next.sections, |g.sections|, 1) <==> !Crowded(p, g.grid, Footprint(t, s)))
  {
    hide Footprint, AllLong, Choose, Fallback, EndOf, GridOf, LogOk, RoadOk, ClearOfOlder, Crowded, Chained, InBand, CommitFirst;
    var from := EndPose(g.sections[|g.sections| - 1]);
    var (choice, q) := Choose(t, p, rng, g, from, g.pos, p.maxAttempts);
    var (kind, s) := Fallback(t, p, from);
    AppendedKeeps(t, p, rng, g);
    LastInBand(t, p, g.sections);
    FallbackOk(t, p, from);
    OneChained(t, s, from);
    OneCommitted(t, p, rng, g.(pos := q), s, kind, false);
    NewFeatureClearIff(t, p, g.sections, Appended(t, p, rng, g).sections, [s]);
    assert NoneCrowded(t, p, g.sections, [s]) <==> !Crowded(p, g.grid, Footprint(t, [s][0]));
  }

  // Committing one section.
  lemma OneCommitted(t: Trig, p: TrackParams, rng: Stream, g: Gen, s: Section, kind: FeatureKind, checked: bool)
    requires s.length > 0.0 && AllLong([s])
    ensures var c := Committed(t, p, rng, g, [s], kind, checked);
            && |c.sections| == |g.sections| + 1 && g.sections <= c.sections && SameRoad(c.sections[|g.sections|], s)
            && c.sections[|g.sections|].length > 0.0
            && Footprint(t, c.sections[|g.sections|]) == Footprint(t, s)
            && c.log == g.log + [Feature(|g.sections|, 1, checked)]
  {
    hide Footprint, AddAll, RunoffOf, TurnSign, DrawStyle, AllLong;
    var style := DrawStyle(p, kind, rng, g.pos).0;
    DressedSame(t, p, g.sections, s, kind, 0, style);
    assert CommitFirst(t, p, g, [s], kind, style, 0) == g;
    assert CommitFirst(t, p, g, [s], kind, style, 1) == CommitOne(t, p, g, s, kind, 0, style);
  }

  // ---- when no feature ever fits ---------------------------------------------------

  // The last sample of one section and the first of the next are the same point.
  lemma EndSamples(t: Trig, a: Section, b: Section)
    requires a.length > 0.0 && b.length > 0.0 && StartPose(b) == EndPose(a)
    ensures FootPoint(a.end.x, a.end.z, a.startDistance + a.length) in Footprint(t, a)
    ensures FootPoint(a.end.x, a.end.z, a.startDistance + a.length) in Footprint(t, b)
  {
    hide Steps, HeightAt, ArcPoint, Along;
    SomeSteps(a.length);
    SomeSteps(b.length);
    AllTheWay(a.length);
    AllTheWay(b.length);
    var n := Steps(a.length);
    StraightOn(t, a);
    StraightOn(t, b);
    assert Footprint(t, a)[n] == Sample(t, a, n) && Footprint(t, b)[0] == Sample(t, b, 0);
  }

  lemma StraightOn(t: Trig, s: Section)
    requires s.length > 0.0
    ensures CentreAt(t, s, s.length).x == s.end.x && CentreAt(t, s, s.length).z == s.end.z
    ensures CentreAt(t, s, 0.0).x == s.start.x && CentreAt(t, s, 0.0).z == s.start.z
  {
    hide HeightAt, ArcPoint;
  }

  lemma AllTheWay(length: real)
    requires length > 0.0
    ensures Steps(length) >= 1 && Along(length, Steps(length)) == length && Along(length, 0) == 0.0
  {
    hide Steps;
    SomeSteps(length);
    CancelSteps(length, Steps(length));
  }

  lemma CancelSteps(length: real, n: int)
    requires n >= 1
    ensures length * n as real / n as real == length && length * 0 as real / n as real == 0.0
  {
    assert length * n as real / n as real * n as real == length * n as real;
  }

  lemma TouchesLast(t: Trig, p: TrackParams, a: Section, b: Section)
    requires a.length > 0.0 && b.length > 0.0 && StartPose(b) == EndPose(a) && p.clearanceSkip <= 0.0 < p.clearance
    ensures !Apart(t, p, b, a)
  {
    hide Footprint, StartPose, EndPose;
    EndSamples(t, a, b);
    var f := FootPoint(a.end.x, a.end.z, a.startDistance + a.length);
    assert Conflict(f, f, p.clearance, p.clearanceSkip) by {
      OnTheSpot(f, p);
    }
  }

  lemma OnTheSpot(f: FootPoint, p: TrackParams)
    requires p.clearanceSkip <= 0.0 < p.clearance
    ensures Conflict(f, f, p.clearance, p.clearanceSkip)
  {
    SquareGrows(0.0, p.clearance);
    assert f.x - f.x == 0.0 && f.z - f.z == 0.0 && Square(0.0) == 0.0;
  }

  // Without a skip every candidate runs into the section it continues.
  lemma NothingFits(t: Trig, p: TrackParams, g: Gen, cand: seq<Section>)
    requires p.Valid() && g.sections != [] && GenOk(t, p, g) && p.clearanceSkip <= 0.0 < p.clearance <= CELL
    requires cand != [] && AllLong(cand) && Chained(t, cand, EndPose(g.sections[|g.sections| - 1]))
    ensures !FitsIn(t, p, g.grid, cand)
  {
    hide Footprint, GridOf, LogOk, RoadOk, Crowded, Phi, WellMade, StartPose, EndPose, Apart;
    var n := |g.sections| - 1;
    LongAt(g.sections, n);
    LongAt(cand, 0);
    assert Linked(t, cand, 0, EndPose(g.sections[n]));
    TouchesLast(t, p, g.sections[n], cand[0]);
    CrowdedExactly(t, p, g.sections, cand[0]);
    assert !SectionFits(t, p, g.grid, cand[0]) && cand[0] in cand;
  }

  lemma {:induction false} NothingChosen(t: Trig, p: TrackParams, rng: Stream, g: Gen, pos: nat, attempts: nat)
    requires UnitStream(rng) && p.Valid() && g.sections != [] && GenOk(t, p, g) && p.clearanceSkip <= 0.0 < p.clearance <= CELL
    ensures Choose(t, p, rng, g, EndPose(g.sections[|g.sections| - 1]), pos, attempts).0.NoChoice?
    decreases attempts
  {
    hide BuildFeature, Chained, AllLong, FitsIn, PickWeighted, Weights, Phi, GenOk, EndPose;
    var from := EndPose(g.sections[|g.sections| - 1]);
    if attempts != 0 {
      var (k, q) := PickWeighted(Weights(p, g.pacing, Phi(p, from.yaw)), rng, pos);
      if k >= 0 {
        var (ok, cand, r) := BuildFeature(t, p, g.pacing, KindOf(k), from, rng, q);
        FeatureLong(t, p, g.pacing, KindOf(k), from, rng, q);
        FeatureOk(t, p, g.pacing, KindOf(k), from, rng, q);
        if ok {
          NothingFits(t, p, g, cand);
        }
        NothingChosen(t, p, rng, g, r, attempts - 1);
      }
    }
  }

  // All features but the first are unchecked, and each touches the section before it.
  ghost predicate AllFallback(t: Trig, p: TrackParams, g: Gen) {
    forall k | 1 <= k < |g.log| :: FallsBack(t, p, g.sections, g.log[k])
  }

  ghost predicate FallsBack(t: Trig, p: TrackParams, sections: seq<Section>, f: Feature) {
    && !f.checked && f.count == 1 && 1 <= f.first < |sections|
    && sections[f.first].length > 0.0 && sections[f.first - 1].length > 0.0
    && !Apart(t, p, sections[f.first], sections[f.first - 1])
  }

  lemma AppendedFallsBack(t: Trig, p: TrackParams, rng: Stream, g: Gen)
    requires UnitStream(rng) && p.Valid() && g.sections != [] && GenOk(t, p, g) && p.clearanceSkip <= 0.0 < p.clearance <= CELL
    requires AllFallback(t, p, g)
    ensures AllFallback(t, p, Appended(t, p, rng, g))
  {
    hide AllLong, Choose, Fallback, GridOf, LogOk, RoadOk, Chained, InBand, CommitFirst, Footprint, Apart, EndPose, StartPose;
    var last := g.sections[|g.sections| - 1];
    var from := EndPose(last);
    var (choice, q) := Choose(t, p, rng, g, from, g.pos, p.maxAttempts);
    var (kind, s) := Fallback(t, p, from);
    NothingChosen(t, p, rng, g, g.pos, p.maxAttempts);
    LastInBand(t, p, g.sections);
    FallbackOk(t, p, from);
    OneChained(t, s, from);
    OneCommitted(t, p, rng, g.(pos := q), s, kind, false);
    LongAt(g.sections, |g.sections| - 1);
    var next := Appended(t, p, rng, g);
    SameStart(next.sections[|g.sections|], s);
    TouchesLast(t, p, last, next.sections[|g.sections|]);
    forall k | 1 <= k < |next.log|
      ensures FallsBack(t, p, next.sections, next.log[k])
    {
      if k < |g.log| {
        assert FallsBack(t, p, g.sections, g.log[k]);
      }
    }
  }

  lemma SameStart(a: Section, b: Section)
    requires SameRoad(a, b)
    ensures StartPose(a) == StartPose(b)
  {
  }

  lemma {:induction false} EnsuredFallsBack(t: Trig, p: TrackParams, rng: Stream, g: Gen, index: nat)
    requires UnitStream(rng) && p.Valid() && g.sections != [] && GenOk(t, p, g) && p.clearanceSkip <= 0.0 < p.clearance <= CELL
    requires AllFallback(t, p, g)
    ensures AllFallback(t, p, Ensured(t, p, rng, g, index))
    decreases index + 1 - |g.sections|
  {
    hide Appended, GenOk, AllFallback;
    if |g.sections| <= index {
      AppendGrows(t, p, rng, g);
      AppendedKeeps(t, p, rng, g);
      AppendedFallsBack(t, p, rng, g);
      EnsuredFallsBack(t, p, rng, Appended(t, p, rng, g), index);
    }
  }

  lemma {:induction false} RunFallsBack(t: Trig, p: TrackParams, rng: Stream, calls: seq<Call>)
    requires UnitStream(rng) && p.Valid() && p.clearanceSkip <= 0.0 < p.clearance <= CELL
    ensures AllFallback(t, p, Run(t, p, rng, calls))
  {
    hide GenOk, Ensured, AllFallback, Started;
    if calls == [] {
      FreshOk(t, p, rng);
      StartedAlone(t, p, rng);
      EnsuredFallsBack(t, p, rng, Started(t, p, rng), p.forwardBufferSections);
    } else {
      var front := calls[..|calls| - 1];
      RunOk(t, p, rng, front);
      RunFallsBack(t, p, rng, front);
      EnsuredFallsBack(t, p, rng, Run(t, p, rng, front), Requested(p, calls[|calls| - 1]));
    }
  }

  lemma StartedAlone(t: Trig, p: TrackParams, rng: Stream)
    requires p.Valid()
    ensures AllFallback(t, p, Started(t, p, rng)) && Started(t, p, rng) == Fresh(t, p, rng)
  {
    hide Footprint, DrawStyle, CommitFirst;
  }

  // Fallback sections can come too close: with no skip and any clearance up to a cell,
  // every feature of every run but the first is an unchecked fallback that conflicts with
  // the road before it.
  lemma FallbacksConflict(t: Trig, p: TrackParams, rng: Stream, calls: seq<Call>, k: nat)
    requires UnitStream(rng) && p.Valid() && p.clearanceSkip <= 0.0 < p.clearance <= CELL
    requires 1 <= k < |Run(t, p, rng, calls).log|
    ensures var g := Run(t, p, rng, calls);
            && !g.log[k].checked && g.log[k].first + g.log[k].count <= |g.sections| && AllLong(g.sections)
            && !ClearOfOlder(t, p, g.sections, g.log[k].first, g.log[k].count)
  {
    hide Run, RoadOk, GridOf, Footprint, AllLong, Apart;
    RunOk(t, p, rng, calls);
    RunFallsBack(t, p, rng, calls);
    var g := Run(t, p, rng, calls);
    assert FallsBack(t, p, g.sections, g.log[k]) && FeatureClear(t, p, g.sections, g.log[k]);
    var i := g.log[k].first;
    assert !Apart(t, p, g.sections[i], g.sections[i - 1]);
  }
}
