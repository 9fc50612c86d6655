/** The track object: generation on demand, updating its lists and grid in place. */
module EndlessTrack {
  import opened Angles
  import opened Basics
  import opened TrackFeatures
  import opened TrackGenerator
  import opened TrackGrid
  import opened TrackInvariants
  import opened TrackSections
  import opened Vectors

  class Track {
    const t: Trig
    const p: TrackParams
    var rng: Stream
    var pos: nat
    var firstLive: nat
    var lastTurnSign: int
    var lastKind: FeatureKind
    var lastStraightLength: real
    var sections: seq<Section>
    var grid: Grid
    // Which sections make up each feature; nothing that runs reads it.
    ghost var log: seq<Feature>

    function Paced(): Pacing
      reads this
    {
      Pacing(lastTurnSign, lastKind, lastStraightLength)
    }

    ghost function State(): Gen
      reads this
    {
      Gen(sections, grid, pos, Paced(), log)
    }

    ghost predicate Valid()
      reads this
    {
      UnitStream(rng) && p.Valid()
    }

    // Everything generated so far is some amount of the one road of the stream.
    ghost predicate Reached(calls: seq<Call>)
      reads this
    {
      Valid() && State() == Run(t, p, rng, calls)
    }

    constructor (t: Trig, p: TrackParams, rng: Stream)
      requires UnitStream(rng) && p.Valid()
      ensures this.t == t && this.p == p && this.rng == rng && Reached([]) && firstLive == 0
    {
      this.t, this.p, this.rng := t, p, rng;
      new;
      Reset(rng);
    }

    // Start again from another seed's stream.
    method Reset(rng: Stream)
      requires UnitStream(rng) && p.Valid()
      modifies this
      ensures this.rng == rng && Reached([]) && firstLive == 0
    {
      hide Committed, Ensured;
      this.rng, pos, firstLive := rng, 0, 0;
      lastTurnSign, lastKind, lastStraightLength := 0, Start, 0.0;
      sections, grid, log := [], map[], [];
      var s := MakeLine(t, Origin(p), p.startLength, 0.0, 0.0).(kind := StartSection);
      Commit([s], Start, true);
      assert State() == Started(t, p, rng);
      EnsureGenerated(p.forwardBufferSections);
    }

    method EnsureGenerated(index: nat)
      requires Valid() && sections != []
      modifies `pos, `lastTurnSign, `lastKind, `lastStraightLength, `sections, `grid, `log
      ensures Valid() && State() == Ensured(t, p, rng, old(State()), index)
    {
      hide Appended;
      while |sections| <= index
        invariant sections != []
        invariant Ensured(t, p, rng, State(), index) == Ensured(t, p, rng, old(State()), index)
        decreases index + 1 - |sections|
      {
        AppendGrows(t, p, rng, State());
        AppendFeature();
      }
    }

    method Update(current: nat, ghost calls: seq<Call>)
      requires Reached(calls)
      modifies this
      ensures rng == old(rng) && Reached(calls + [Advance(current)])
      ensures firstLive == (if current > p.rearBufferSections then current - p.rearBufferSections else 0)
      ensures firstLive <= current && current + p.forwardBufferSections < |sections|
    {
      hide Ensured;
      assert (calls + [Advance(current)])[..|calls|] == calls;
      EnsureGenerated(current + p.forwardBufferSections);
      var rear := p.rearBufferSections;
      firstLive := if current > rear then current - rear else 0;
    }

    // ---- one feature ------------------------------------------------------------

    method AppendFeature()
      requires Valid() && sections != []
      modifies `pos, `lastTurnSign, `lastKind, `lastStraightLength, `sections, `grid, `log
      ensures State() == Appended(t, p, rng, old(State()))
    {
      hide BuildFeature, Committed, Fallback, Weights, PickWeighted, AllLong, FitsIn, Chained;
      var from := EndPose(sections[|sections| - 1]);
      var w := Weights(p, Paced(), Phi(p, from.yaw));
      var attempt := 0;
      ghost var g := State();
      ChosenOk(t, p, rng, g, from, g.pos, p.maxAttempts);
      while attempt < p.maxAttempts
        invariant 0 <= attempt <= p.maxAttempts
        invariant State() == g.(pos := pos)
        invariant Choose(t, p, rng, g, from, pos, p.maxAttempts - attempt) == Choose(t, p, rng, g, from, g.pos, p.maxAttempts)
      {
        var (k, q) := PickWeighted(w, rng, pos);
        pos := q;
        if k < 0 {
          break;
        }
        var (ok, cand, r) := BuildFeature(t, p, Paced(), KindOf(k), from, rng, pos);
        FeatureLong(t, p, Paced(), KindOf(k), from, rng, pos);
        pos := r;
        if ok {
          var fits := Fits(cand);
          if fits {
            Commit(cand, KindOf(k), true);
            return;
          }
        }
        attempt := attempt + 1;
      }
      var (kind, s) := Fallback(t, p, from);
      OneLong(s);
      Commit([s], kind, false);
    }

    // ---- checking a candidate -----------------------------------------------------

    method Fits(cand: seq<Section>) returns (ok: bool)
      requires AllLong(cand)
      ensures ok == FitsIn(t, p, grid, cand)
    {
      hide Footprint, Crowded, Phi;
      for i := 0 to |cand|
        invariant forall s | s in cand[..i] :: SectionFits(t, p, grid, s)
      {
        var s := cand[i];
        assert s in cand;
        if Abs(Phi(p, s.endYaw)) > p.Band() {
          return false;
        }
        var crowded := AnyConflict(s);
        if crowded {
          return false;
        }
      }
      assert cand[..|cand|] == cand;
      return true;
    }

    method AnyConflict(s: Section) returns (crowded: bool)
      requires s.length > 0.0
      ensures crowded == Crowded(p, grid, Footprint(t, s))
    {
      hide Sample, Steps, ConflictNearby;
      SomeSteps(s.length);
      var n := Steps(s.length);
      ghost var points := Footprint(t, s);
      for i := 0 to n + 1
        invariant forall j | 0 <= j < i :: !ConflictNearby(grid, points[j], p.clearance, p.clearanceSkip)
      {
        var c := Sample(t, s, i);
        assert points[i] == c;
        var near := NearConflict(c);
        if near {
          return true;
        }
      }
      return false;
    }

    method NearConflict(c: FootPoint) returns (near: bool)
      ensures near == ConflictNearby(grid, c, p.clearance, p.clearanceSkip)
    {
      hide ConflictInCell;
      for ox := -1 to 2
        invariant forall x, z | -1 <= x < ox && -1 <= z <= 1 :: !ConflictInCell(grid, c, x, z, p.clearance, p.clearanceSkip)
      {
        for oz := -1 to 2
          invariant forall z | -1 <= z < oz :: !ConflictInCell(grid, c, ox, z, p.clearance, p.clearanceSkip)
        {
          var hit := CellConflict(c, ox, oz);
          if hit {
            return true;
          }
        }
      }
      return false;
    }

    method CellConflict(c: FootPoint, ox: int, oz: int) returns (hit: bool)
      ensures hit == ConflictInCell(grid, c, ox, oz, p.clearance, p.clearanceSkip)
    {
      hide CellKey, Square;
      var key := CellKey(c.x + ox as real * CELL, c.z + oz as real * CELL);
      if key !in grid {
        return false;
      }
      for i := 0 to |grid[key]|
        invariant forall f | f in grid[key][..i] :: !Conflict(c, f, p.clearance, p.clearanceSkip)
      {
        var f := grid[key][i];
        var dx, dz := c.x - f.x, c.z - f.z;
        if c.distance - f.distance >= p.clearanceSkip && Square(dx) + Square(dz) < Square(p.clearance) {
          assert f in Lookup(grid, key) && Conflict(c, f, p.clearance, p.clearanceSkip);
          return true;
        }
      }
      assert grid[key][..|grid[key]|] == grid[key];
      return false;
    }

    // ---- committing ---------------------------------------------------------------

    method Commit(cand: seq<Section>, kind: FeatureKind, ghost checked: bool)
      requires cand != [] && AllLong(cand)
      modifies `pos, `lastTurnSign, `lastKind, `lastStraightLength, `sections, `grid, `log
      ensures State() == Committed(t, p, rng, old(State()), cand, kind, checked)
    {
      hide PickWeighted, CommitOne, AllLong;
      var style := Forest;
      if kind != Start {
        var (k, q) := PickWeighted(p.styleWeight, rng, pos);
        style, pos := StyleOf(k), q;
      }
      ghost var g := old(State());
      for i := 0 to |cand|
        invariant pos == DrawStyle(p, kind, rng, g.pos).1 && style == DrawStyle(p, kind, rng, g.pos).0
        invariant State() == CommitFirst(t, p, g, cand, kind, style, i).(pos := pos)
        invariant lastStraightLength == g.pacing.lastStraightLength && log == g.log
      {
        LongAt(cand, i);
        CommitSection(cand[i], kind, i, style);
        CommitIgnoresPos(t, p, CommitFirst(t, p, g, cand, kind, style, i), cand[i], kind, i, style, pos);
      }
      lastKind := kind;
      if kind == Straight || kind == Start {
        lastStraightLength := lastStraightLength + cand[|cand| - 1].length;
      } else {
        lastStraightLength := 0.0;
      }
      log := log + [Feature(|g.sections|, |cand|, checked)];
    }

    method CommitSection(section: Section, kind: FeatureKind, part: nat, style: RoadsideStyle)
      requires section.length > 0.0
      modifies `lastTurnSign, `sections, `grid
      ensures State() == CommitOne(t, p, old(State()), section, kind, part, style)
    {
      hide Footprint, AddAll;
      var s := section.(index := |sections|, feature := kind, featurePart := part, style := style);
      if style == Runoff {
        if s.turnAngle > 0.0 {
          s := s.(runoff := s.runoff.(right := p.runoffWidth));
        } else if s.turnAngle < 0.0 {
          s := s.(runoff := s.runoff.(left := p.runoffWidth));
        } else {
          s := s.(runoff := Sides(p.runoffWidth * 0.7, p.runoffWidth * 0.7));
        }
      }
      if sections != [] {
        var prev := sections[|sections| - 1];
        s := s.(prevStyle := prev.style, prevRunoff := prev.runoff);
      } else {
        s := s.(prevStyle := style);
      }
      DressedSame(t, p, sections, section, kind, part, style);
      AddFootprint(s);
      if s.turnAngle != 0.0 {
        lastTurnSign := if s.turnAngle > 0.0 then 1 else -1;
      }
      sections := sections + [s];
    }

    method AddFootprint(s: Section)
      requires s.length > 0.0
      modifies `grid
      ensures grid == AddAll(old(grid), Footprint(t, s))
    {
      hide Sample, Steps, CellKey;
      SomeSteps(s.length);
      var n := Steps(s.length);
      ghost var points := Footprint(t, s);
      for k := 0 to n + 1
        invariant grid == AddAll(old(grid), points[..k])
      {
        var f := Sample(t, s, k);
        var key := CellKey(f.x, f.z);
        assert points[..k + 1][..k] == points[..k] && points[..k + 1][k] == f;
        grid := grid[key := (if key in grid then grid[key] else []) + [f]];
      }
      assert points[..n + 1] == points;
    }
  }
}
