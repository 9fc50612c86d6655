/** Which feature a track takes next, told from the draws alone, and what committing it records. */
module TrackChoices {
  import opened Angles
  import opened Basics
  import opened FeatureShapes
  import opened TrackFeatures
  import opened TrackGenerator
  import opened TrackGrid
  import opened TrackInvariants
  import opened TrackSections
  import opened Vectors

  // ---- weighted picks --------------------------------------------------------------------

  // The draw falls into the share of the index picked, weights laid end to end.
  lemma {:induction false} PickShare(w: seq<real>, i: nat, r: real)
    requires i <= |w| && 0.0 <= r && (forall k | i <= k < |w| :: w[k] >= 0.0) && r < Sum(w[i..])
    ensures var k := PickFrom(w, i, r);
            i <= k < |w| && Sum(w[i..k]) <= r < Sum(w[i..k]) + w[k]
    decreases |w| - i
  {
    SumFirst(w[i..]);
    if i < |w| {
      assert w[i..][1..] == w[i + 1..];
      if r >= w[i] {
        PickShare(w, i + 1, r - w[i]);
        var k := PickFrom(w, i + 1, r - w[i]);
        SumFirst(w[i..k]);
        assert w[i..k][1..] == w[i + 1..k];
      } else {
        assert w[i..i] == [];
      }
    }
  }

  lemma {:induction false} SumFirst(w: seq<real>)
    ensures Sum(w) == if w == [] then 0.0 else w[0] + Sum(w[1..])
  {
    if |w| > 1 {
      SumFirst(w[..|w| - 1]);
      assert w[..|w| - 1][1..] == w[1..][..|w| - 2];
    }
  }

  // Whatever the weights, what is picked has a positive one.
  lemma {:induction false} PickWeighs(w: seq<real>, i: nat, r: real)
    requires i <= |w| && 0.0 <= r && PickFrom(w, i, r) >= 0
    ensures PickFrom(w, i, r) < |w| && w[PickFrom(w, i, r)] > 0.0
    decreases |w| - i
  {
    if i == |w| {
      LastWeighs(w, |w|);
    } else if r >= w[i] {
      PickWeighs(w, i + 1, r - w[i]);
    }
  }

  lemma {:induction false} LastWeighs(w: seq<real>, n: nat)
    requires n <= |w| && LastPositive(w, n) >= 0
    ensures LastPositive(w, n) < n && w[LastPositive(w, n)] > 0.0
  {
    if n != 0 && w[n - 1] <= 0.0 {
      LastWeighs(w, n - 1);
    }
  }

  lemma PickedWeighs(w: seq<real>, rng: Stream, pos: nat)
    requires UnitStream(rng) && PickWeighted(w, rng, pos).0 >= 0
    ensures PickWeighted(w, rng, pos).0 < |w| && w[PickWeighted(w, rng, pos).0] > 0.0
  {
    hide Part;
    PartWithin(Sum(w), rng(pos));
    PickWeighs(w, 0, Part(Sum(w), rng(pos)));
  }

  // A weighted pick: nothing, without a draw, if nothing weighs; else the index in whose
  // share of the whole the one draw lies.
  lemma PickedShare(w: seq<real>, rng: Stream, pos: nat)
    requires UnitStream(rng) && forall i | 0 <= i < |w| :: w[i] >= 0.0
    ensures var (k, q) := PickWeighted(w, rng, pos);
            if Sum(w) == 0.0 then k == -1 && q == pos
            else 0 <= k < |w| && q == pos + 1 && Sum(w[..k]) <= Part(Sum(w), rng(pos)) < Sum(w[..k]) + w[k]
  {
    hide Part;
    SumNotNegative(w);
    if Sum(w) > 0.0 {
      var r := Part(Sum(w), rng(pos));
      PartShort(Sum(w), rng(pos));
      assert w[0..] == w;
      PickShare(w, 0, r);
      var k := PickFrom(w, 0, r);
      assert w[0..k] == w[..k];
    }
  }

  lemma {:induction false} SumNotNegative(w: seq<real>)
    requires forall i | 0 <= i < |w| :: w[i] >= 0.0
    ensures Sum(w) >= 0.0
  {
    if w != [] {
      SumNotNegative(w[..|w| - 1]);
    }
  }

  lemma PartShort(whole: real, share: real)
    requires whole > 0.0 && 0.0 <= share < 1.0
    ensures 0.0 <= Part(whole, share) < whole
  {
  }

  // ---- the attempts ------------------------------------------------------------------------

  // One attempt: what is picked, whether it applies, its sections, and where it leaves the
  // stream. There is none when nothing weighs.
  datatype Attempt = Attempt(kind: FeatureKind, applies: bool, sections: seq<Section>, next: nat)

  function AttemptAt(t: Trig, p: TrackParams, rng: Stream, g: Pacing, from: Pose, pos: nat): Option<Attempt>
    requires UnitStream(rng) && p.Valid()
  {
    var (k, q) := PickWeighted(Weights(p, g, Phi(p, from.yaw)), rng, pos);
    if k < 0 then None
    else
      var (applies, sections, next) := BuildFeature(t, p, g, KindOf(k), from, rng, q);
      Some(Attempt(KindOf(k), applies, sections, next))
  }

  // An attempt applies by the heading and its second draw, and then has the shape of its kind.
  lemma AttemptShaped(t: Trig, p: TrackParams, rng: Stream, g: Pacing, from: Pose, pos: nat)
    requires UnitStream(rng) && p.Valid() && AttemptAt(t, p, rng, g, from, pos).Some?
    ensures var a := AttemptAt(t, p, rng, g, from, pos).value;
            && (a.applies <==> Applies(p, a.kind, Phi(p, from.yaw), rng(pos + 1)))
            && (a.applies ==> Shape(a.kind, a.sections, Phi(p, from.yaw), g.lastKind))
  {
    hide BuildFeature, Shape, Applies, Phi, Weights, PickFrom, Part, Sum;
    var (k, q) := PickWeighted(Weights(p, g, Phi(p, from.yaw)), rng, pos);
    KindSays(t, p, g, KindOf(k), from, rng, q);
  }

  // Attempt n, by the draws alone: each starts where the one before left the stream.
  function NthAttempt(t: Trig, p: TrackParams, rng: Stream, g: Pacing, from: Pose, pos: nat, n: nat): Option<Attempt>
    requires UnitStream(rng) && p.Valid()
    decreases n
  {
    match AttemptAt(t, p, rng, g, from, pos)
    case None => None
    case Some(a) => if n == 0 then Some(a) else NthAttempt(t, p, rng, g, from, a.next, n - 1)
  }

  // Rejected: it does not apply, leaves the heading band, or comes too close to older road.
  ghost predicate Rejected(t: Trig, p: TrackParams, grid: Grid, a: Attempt) {
    !a.applies || exists i :: 0 <= i < |a.sections| && Unfit(t, p, grid, a.sections[i])
  }

  ghost predicate Unfit(t: Trig, p: TrackParams, grid: Grid, s: Section)
  {
    s.length > 0.0 && (Abs(Phi(p, s.endYaw)) > p.Band() || exists c :: c in Footprint(t, s) && TooClose(p, grid, c))
  }

  // One of the nine cells around c holds a point the clearance forbids.
  ghost predicate TooClose(p: TrackParams, grid: Grid, c: FootPoint) {
    exists ox, oz :: -1 <= ox <= 1 && -1 <= oz <= 1 && CloseInCell(p, grid, c, ox, oz)
  }

  ghost predicate CloseInCell(p: TrackParams, grid: Grid, c: FootPoint, ox: int, oz: int) {
    exists f :: f in Lookup(grid, CellKey(c.x + ox as real * CELL, c.z + oz as real * CELL))
      && c.distance - f.distance >= p.clearanceSkip
      && Square(c.x - f.x) + Square(c.z - f.z) < Square(p.clearance)
  }

  lemma CloseIs(p: TrackParams, grid: Grid, c: FootPoint)
    ensures ConflictNearby(grid, c, p.clearance, p.clearanceSkip) <==> TooClose(p, grid, c)
  {
    hide ConflictInCell, CloseInCell;
    forall ox, oz
      ensures ConflictInCell(grid, c, ox, oz, p.clearance, p.clearanceSkip) <==> CloseInCell(p, grid, c, ox, oz)
    {
      CloseInCellIs(p, grid, c, ox, oz);
    }
  }

  lemma CloseInCellIs(p: TrackParams, grid: Grid, c: FootPoint, ox: int, oz: int)
    ensures ConflictInCell(grid, c, ox, oz, p.clearance, p.clearanceSkip) <==> CloseInCell(p, grid, c, ox, oz)
  {
    hide CellKey, Square, Lookup;
    var key := CellKey(c.x + ox as real * CELL, c.z + oz as real * CELL);
    if ConflictInCell(grid, c, ox, oz, p.clearance, p.clearanceSkip) {
      var f :| f in Lookup(grid, key) && Conflict(c, f, p.clearance, p.clearanceSkip);
      assert c.distance - f.distance >= p.clearanceSkip;
    }
    if CloseInCell(p, grid, c, ox, oz) {
      var f :| f in Lookup(grid, key)
        && c.distance - f.distance >= p.clearanceSkip
        && Square(c.x - f.x) + Square(c.z - f.z) < Square(p.clearance);
      assert Conflict(c, f, p.clearance, p.clearanceSkip);
    }
  }

  lemma RejectedIs(t: Trig, p: TrackParams, grid: Grid, a: Attempt)
    requires AllLong(a.sections)
    ensures Rejected(t, p, grid, a) <==> !(a.applies && FitsIn(t, p, grid, a.sections))
  {
    hide Footprint, TooClose, ConflictNearby, Phi;
    LongAll(a.sections);
    forall c
      ensures ConflictNearby(grid, c, p.clearance, p.clearanceSkip) <==> TooClose(p, grid, c)
    {
      CloseIs(p, grid, c);
    }
    if Rejected(t, p, grid, a) && a.applies {
      var i :| 0 <= i < |a.sections| && Unfit(t, p, grid, a.sections[i]);
      assert a.sections[i] in a.sections && !SectionFits(t, p, grid, a.sections[i]);
    }
    if !FitsIn(t, p, grid, a.sections) {
      var s :| s in a.sections && !SectionFits(t, p, grid, s);
      var i :| 0 <= i < |a.sections| && a.sections[i] == s;
    }
  }

  // Attempt n is made, with all before it rejected, and is not.
  ghost predicate Accepted(t: Trig, p: TrackParams, rng: Stream, g: Gen, from: Pose, pos: nat, n: nat)
    requires UnitStream(rng) && p.Valid()
  {
    && NthAttempt(t, p, rng, g.pacing, from, pos, n).Some?
    && !Rejected(t, p, g.grid, NthAttempt(t, p, rng, g.pacing, from, pos, n).value)
    && forall m: nat | m < n :: RejectedAt(t, p, rng, g, from, pos, m)
  }

  ghost predicate RejectedAt(t: Trig, p: TrackParams, rng: Stream, g: Gen, from: Pose, pos: nat, m: nat)
    requires UnitStream(rng) && p.Valid()
  {
    && NthAttempt(t, p, rng, g.pacing, from, pos, m).Some?
    && Rejected(t, p, g.grid, NthAttempt(t, p, rng, g.pacing, from, pos, m).value)
  }

  // Every attempt made is rejected.
  ghost predicate NoneAccepted(t: Trig, p: TrackParams, rng: Stream, g: Gen, from: Pose, pos: nat, attempts: nat)
    requires UnitStream(rng) && p.Valid()
  {
    forall n: nat | n < attempts && NthAttempt(t, p, rng, g.pacing, from, pos, n).Some? ::
      Rejected(t, p, g.grid, NthAttempt(t, p, rng, g.pacing, from, pos, n).value)
  }

  lemma AttemptLong(t: Trig, p: TrackParams, rng: Stream, g: Gen, from: Pose, pos: nat)
    requires UnitStream(rng) && p.Valid() && AttemptAt(t, p, rng, g.pacing, from, pos).Some?
    ensures AllLong(AttemptAt(t, p, rng, g.pacing, from, pos).value.sections)
  {
    hide BuildFeature, Weights, PickWeighted;
    var (k, q) := PickWeighted(Weights(p, g.pacing, Phi(p, from.yaw)), rng, pos);
    FeatureLong(t, p, g.pacing, KindOf(k), from, rng, q);
  }

  // Choosing, one attempt at a time.
  lemma ChooseStep(t: Trig, p: TrackParams, rng: Stream, g: Gen, from: Pose, pos: nat, attempts: nat)
    requires UnitStream(rng) && p.Valid() && attempts > 0
    ensures var a := AttemptAt(t, p, rng, g.pacing, from, pos);
            && (a == None ==> Choose(t, p, rng, g, from, pos, attempts).0.NoChoice?)
            && (a.Some? && Rejected(t, p, g.grid, a.value) ==>
                  Choose(t, p, rng, g, from, pos, attempts) == Choose(t, p, rng, g, from, a.value.next, attempts - 1))
            && (a.Some? && !Rejected(t, p, g.grid, a.value) ==>
                  Choose(t, p, rng, g, from, pos, attempts) == (Chosen(a.value.kind, a.value.sections), a.value.next))
  {
    hide BuildFeature, Weights, PickWeighted, Rejected, FitsIn, AllLong, Phi;
    if AttemptAt(t, p, rng, g.pacing, from, pos).Some? {
      AttemptLong(t, p, rng, g, from, pos);
      RejectedIs(t, p, g.grid, AttemptAt(t, p, rng, g.pacing, from, pos).value);
    }
  }

  lemma LaterAttempts(t: Trig, p: TrackParams, rng: Stream, g: Gen, from: Pose, pos: nat, n: nat)
    requires UnitStream(rng) && p.Valid() && AttemptAt(t, p, rng, g.pacing, from, pos).Some?
    ensures var a := AttemptAt(t, p, rng, g.pacing, from, pos).value;
            && NthAttempt(t, p, rng, g.pacing, from, pos, 0) == Some(a)
            && NthAttempt(t, p, rng, g.pacing, from, pos, n + 1) == NthAttempt(t, p, rng, g.pacing, from, a.next, n)
  {
    hide AttemptAt;
  }

  // What is chosen is the first attempt not rejected; nothing is chosen exactly when every
  // attempt made is.
  lemma {:induction false} ChooseSays(t: Trig, p: TrackParams, rng: Stream, g: Gen, from: Pose, pos: nat, attempts: nat)
    requires UnitStream(rng) && p.Valid()
    ensures var (choice, q) := Choose(t, p, rng, g, from, pos, attempts);
            && (choice.NoChoice? <==> NoneAccepted(t, p, rng, g, from, pos, attempts))
            && (choice.Chosen? ==> exists n: nat :: n < attempts && ChosenAs(t, p, rng, g, from, pos, n, choice, q))
    decreases attempts
  {
    hide AttemptAt, Rejected, NthAttempt, Choose;
    if attempts == 0 {
      NoAttempts(t, p, rng, g, from, pos);
    } else {
      ChooseStep(t, p, rng, g, from, pos, attempts);
      var first := AttemptAt(t, p, rng, g.pacing, from, pos);
      if first == None {
        NothingAfter(t, p, rng, g, from, pos);
      } else {
        var a := first.value;
        LaterAttempts(t, p, rng, g, from, pos, 0);
        if Rejected(t, p, g.grid, a) {
          ChooseSays(t, p, rng, g, from, a.next, attempts - 1);
          ShiftNone(t, p, rng, g, from, pos, a, attempts);
          var (choice, q) := Choose(t, p, rng, g, from, a.next, attempts - 1);
          if choice.Chosen? {
            var n: nat :| n < attempts - 1 && ChosenAs(t, p, rng, g, from, a.next, n, choice, q);
            ShiftAccepted(t, p, rng, g, from, pos, a, n, choice, q);
          }
        } else {
          assert ChosenAs(t, p, rng, g, from, pos, 0, Chosen(a.kind, a.sections), a.next);
        }
      }
    }
  }

  ghost predicate ChosenAs(t: Trig, p: TrackParams, rng: Stream, g: Gen, from: Pose, pos: nat, n: nat, choice: Choice, q: nat)
    requires UnitStream(rng) && p.Valid()
  {
    && Accepted(t, p, rng, g, from, pos, n)
    && var a := NthAttempt(t, p, rng, g.pacing, from, pos, n).value; choice == Chosen(a.kind, a.sections) && q == a.next
  }

  lemma NoAttempts(t: Trig, p: TrackParams, rng: Stream, g: Gen, from: Pose, pos: nat)
    requires UnitStream(rng) && p.Valid()
    ensures Choose(t, p, rng, g, from, pos, 0) == (NoChoice, pos)
  {
  }

  lemma NothingAfter(t: Trig, p: TrackParams, rng: Stream, g: Gen, from: Pose, pos: nat)
    requires UnitStream(rng) && p.Valid() && AttemptAt(t, p, rng, g.pacing, from, pos) == None
    ensures forall n: nat :: NthAttempt(t, p, rng, g.pacing, from, pos, n) == None
  {
    hide AttemptAt;
  }

  lemma ShiftNone(t: Trig, p: TrackParams, rng: Stream, g: Gen, from: Pose, pos: nat, a: Attempt, attempts: nat)
    requires UnitStream(rng) && p.Valid() && attempts > 0
    requires AttemptAt(t, p, rng, g.pacing, from, pos) == Some(a) && Rejected(t, p, g.grid, a)
    ensures NoneAccepted(t, p, rng, g, from, pos, attempts) <==> NoneAccepted(t, p, rng, g, from, a.next, attempts - 1)
  {
    hide AttemptAt, Rejected, NthAttempt;
    LaterAttempts(t, p, rng, g, from, pos, 0);
    forall n: nat
      ensures NthAttempt(t, p, rng, g.pacing, from, pos, n + 1) == NthAttempt(t, p, rng, g.pacing, from, a.next, n)
    {
      LaterAttempts(t, p, rng, g, from, pos, n);
    }
    if NoneAccepted(t, p, rng, g, from, a.next, attempts - 1) {
      forall n: nat | n < attempts && NthAttempt(t, p, rng, g.pacing, from, pos, n).Some?
        ensures Rejected(t, p, g.grid, NthAttempt(t, p, rng, g.pacing, from, pos, n).value)
      {
        if n > 0 {
          assert NthAttempt(t, p, rng, g.pacing, from, pos, (n - 1) + 1) == NthAttempt(t, p, rng, g.pacing, from, a.next, n - 1);
        }
      }
    }
    if NoneAccepted(t, p, rng, g, from, pos, attempts) {
      forall n: nat | n < attempts - 1 && NthAttempt(t, p, rng, g.pacing, from, a.next, n).Some?
        ensures Rejected(t, p, g.grid, NthAttempt(t, p, rng, g.pacing, from, a.next, n).value)
      {
        assert NthAttempt(t, p, rng, g.pacing, from, pos, n + 1).Some?;
      }
    }
  }

  lemma ShiftAccepted(t: Trig, p: TrackParams, rng: Stream, g: Gen, from: Pose, pos: nat, a: Attempt, n: nat, choice: Choice, q: nat)
    requires UnitStream(rng) && p.Valid() && ChosenAs(t, p, rng, g, from, a.next, n, choice, q)
    requires AttemptAt(t, p, rng, g.pacing, from, pos) == Some(a) && Rejected(t, p, g.grid, a)
    ensures ChosenAs(t, p, rng, g, from, pos, n + 1, choice, q)
  {
    hide AttemptAt, Rejected, NthAttempt;
    LaterAttempts(t, p, rng, g, from, pos, n);
    forall m: nat | m < n + 1
      ensures RejectedAt(t, p, rng, g, from, pos, m)
    {
      if m == 0 {
        LaterAttempts(t, p, rng, g, from, pos, 0);
      } else {
        LaterAttempts(t, p, rng, g, from, pos, m - 1);
        assert RejectedAt(t, p, rng, g, from, a.next, m - 1);
      }
    }
  }

  // ---- what committing records ----------------------------------------------------------------

  // The sections of the candidate follow the older ones, one road, numbered on, of one
  // feature and one style, each part in its place; a runoff lies on the outside of a bend
  // and on both sides of a straight.
  ghost predicate Records(p: TrackParams, before: seq<Section>, cand: seq<Section>, after: seq<Section>, kind: FeatureKind, style: RoadsideStyle) {
    && |after| == |before| + |cand| && before <= after
    && forall i | 0 <= i < |cand| :: RecordsAs(p, cand[i], after[|before| + i], |before| + i, kind, i, style)
  }

  ghost predicate RecordsAs(p: TrackParams, s: Section, d: Section, index: nat, kind: FeatureKind, part: nat, style: RoadsideStyle) {
    && SameRoad(d, s) && d.index == index && d.feature == kind && d.featurePart == part && d.style == style
    && d.kind == s.kind && d.radius == s.radius
    && d.runoff.left == (if style == Runoff && s.turnAngle < 0.0 then p.runoffWidth
                         else if style == Runoff && s.turnAngle == 0.0 then p.runoffWidth * 0.7 else s.runoff.left)
    && d.runoff.right == (if style == Runoff && s.turnAngle > 0.0 then p.runoffWidth
                          else if style == Runoff && s.turnAngle == 0.0 then p.runoffWidth * 0.7 else s.runoff.right)
  }

  lemma {:induction false} CommitRecords(t: Trig, p: TrackParams, g: Gen, cand: seq<Section>, kind: FeatureKind, style: RoadsideStyle, n: nat)
    requires n <= |cand| && AllLong(cand)
    ensures Records(p, g.sections, cand[..n], CommitFirst(t, p, g, cand, kind, style, n).sections, kind, style)
    ensures CommitFirst(t, p, g, cand, kind, style, n).log == g.log && CommitFirst(t, p, g, cand, kind, style, n).pos == g.pos
    ensures CommitFirst(t, p, g, cand, kind, style, n).pacing == g.pacing.(lastTurnSign := CommitFirst(t, p, g, cand, kind, style, n).pacing.lastTurnSign)
    ensures LastTurn(cand[..n], g.pacing.lastTurnSign, CommitFirst(t, p, g, cand, kind, style, n).pacing.lastTurnSign)
  {
    hide AllLong, CommitOne, Records, LastTurn;
    if n == 0 {
      assert cand[..0] == [];
      NothingRecords(p, g, kind, style);
    } else {
      CommitRecords(t, p, g, cand, kind, style, n - 1);
      LongAt(cand, n - 1);
      var c := CommitFirst(t, p, g, cand, kind, style, n - 1);
      OneRecords(t, p, c, cand[n - 1], kind, n - 1, style);
      RecordsGrow(p, g.sections, cand, n, c.sections, CommitOne(t, p, c, cand[n - 1], kind, n - 1, style).sections, kind, style);
      TurnGrows(cand, n, g.pacing.lastTurnSign, c.pacing.lastTurnSign);
    }
  }

  lemma NothingRecords(p: TrackParams, g: Gen, kind: FeatureKind, style: RoadsideStyle)
    ensures Records(p, g.sections, [], g.sections, kind, style) && LastTurn([], g.pacing.lastTurnSign, g.pacing.lastTurnSign)
  {
  }

  lemma OneRecords(t: Trig, p: TrackParams, g: Gen, s: Section, kind: FeatureKind, part: nat, style: RoadsideStyle)
    requires s.length > 0.0
    ensures var c := CommitOne(t, p, g, s, kind, part, style);
            && c.log == g.log && c.pos == g.pos
            && |c.sections| == |g.sections| + 1 && g.sections <= c.sections
            && RecordsAs(p, s, c.sections[|g.sections|], |g.sections|, kind, part, style)
            && c.pacing == g.pacing.(lastTurnSign := if s.turnAngle == 0.0 then g.pacing.lastTurnSign else if s.turnAngle > 0.0 then 1 else -1)
  {
    hide Footprint, AddAll, Dressed;
    DressedSays(p, g.sections, s, kind, part, style);
  }

  lemma RecordsGrow(p: TrackParams, before: seq<Section>, cand: seq<Section>, n: nat, was: seq<Section>, after: seq<Section>, kind: FeatureKind, style: RoadsideStyle)
    requires 1 <= n <= |cand| && Records(p, before, cand[..n - 1], was, kind, style)
    requires |after| == |was| + 1 && was <= after && RecordsAs(p, cand[n - 1], after[|was|], |was|, kind, n - 1, style)
    ensures Records(p, before, cand[..n], after, kind, style)
  {
    hide RecordsAs;
    forall i | 0 <= i < n
      ensures RecordsAs(p, cand[..n][i], after[|before| + i], |before| + i, kind, i, style)
    {
      if i < n - 1 {
        assert RecordsAs(p, cand[..n - 1][i], was[|before| + i], |before| + i, kind, i, style);
      }
    }
  }

  lemma DressedSays(p: TrackParams, before: seq<Section>, s: Section, kind: FeatureKind, part: nat, style: RoadsideStyle)
    ensures RecordsAs(p, s, Dressed(p, before, s, kind, part, style), |before|, kind, part, style)
  {
  }

  // The sign remembered is that of the last bend, or the one before when there is none.
  ghost predicate LastTurn(cand: seq<Section>, was: int, sign: int) {
    && (forall i | 0 <= i < |cand| && cand[i].turnAngle != 0.0 && (forall j | i < j < |cand| :: cand[j].turnAngle == 0.0) ::
          sign == if cand[i].turnAngle > 0.0 then 1 else -1)
    && ((forall i | 0 <= i < |cand| :: cand[i].turnAngle == 0.0) ==> sign == was)
  }

  lemma TurnGrows(cand: seq<Section>, n: nat, was: int, sign: int)
    requires 1 <= n <= |cand| && LastTurn(cand[..n - 1], was, sign)
    ensures LastTurn(cand[..n], was, if cand[n - 1].turnAngle == 0.0 then sign else if cand[n - 1].turnAngle > 0.0 then 1 else -1)
  {
    var front, all := cand[..n - 1], cand[..n];
    assert forall i | 0 <= i < n - 1 :: front[i] == all[i];
    forall i | 0 <= i < n && all[i].turnAngle != 0.0 && (forall j | i < j < n :: all[j].turnAngle == 0.0)
      ensures (if cand[n - 1].turnAngle == 0.0 then sign else if cand[n - 1].turnAngle > 0.0 then 1 else -1)
                == if all[i].turnAngle > 0.0 then 1 else -1
    {
      if i < n - 1 {
        assert all[n - 1].turnAngle == 0.0;
        assert forall j | i < j < n - 1 :: front[j].turnAngle == 0.0;
      }
    }
  }

  // The whole of a commit: the sections recorded, one style for all of them, which is that
  // of the draw and none for the start; the pacing; and the log.
  ghost predicate CommitSays(p: TrackParams, rng: Stream, g: Gen, cand: seq<Section>, kind: FeatureKind, checked: bool, c: Gen)
    requires cand != []
  {
    && (exists style :: Records(p, g.sections, cand, c.sections, kind, style) && StyleSays(p, rng, g.pos, kind, style))
    && c.pacing.lastKind == kind && LastTurn(cand, g.pacing.lastTurnSign, c.pacing.lastTurnSign)
    && c.pacing.lastStraightLength == (if kind == Straight || kind == Start then g.pacing.lastStraightLength + cand[|cand| - 1].length else 0.0)
    && c.log == g.log + [Feature(|g.sections|, |cand|, checked)]
  }

  // The style drawn by weight; the start is forest.
  ghost predicate StyleSays(p: TrackParams, rng: Stream, pos: nat, kind: FeatureKind, style: RoadsideStyle) {
    && (kind == Start ==> style == Forest)
    && (kind != Start ==>
          var k := PickWeighted(p.styleWeight, rng, pos).0;
          style == if k == 1 then Cliff else if k == 2 then RockWall else if k >= 3 then Runoff else Forest)
  }

  lemma CommittedSays(t: Trig, p: TrackParams, rng: Stream, g: Gen, cand: seq<Section>, kind: FeatureKind, checked: bool)
    requires cand != [] && AllLong(cand)
    ensures CommitSays(p, rng, g, cand, kind, checked, Committed(t, p, rng, g, cand, kind, checked))
  {
    hide CommitFirst, Records, LastTurn, PickWeighted, AllLong;
    var style := DrawStyle(p, kind, rng, g.pos).0;
    CommitRecords(t, p, g, cand, kind, style, |cand|);
    assert cand[..|cand|] == cand;
    assert StyleSays(p, rng, g.pos, kind, style);
  }

  // ---- the next feature ----------------------------------------------------------------------

  // The gentle way out: back towards the fall line when more than five degrees off it, by at
  // most forty; else straight on.
  ghost predicate FallbackSays(t: Trig, p: TrackParams, from: Pose, kind: FeatureKind, s: Section) {
    var phi := Phi(p, from.yaw);
    var forty := 40.0 * PI / 180.0;
    if Abs(phi) > 5.0 * PI / 180.0 then
      && kind == Sweeper && s.radius == 60.0 && s.turnAngle == (if phi > forty then -forty else if phi < -forty then forty else -phi)
      && WellMade(t, s) && s.start == from.pos && s.startYaw == from.yaw && s.length == 60.0 * Abs(s.turnAngle) && s.drop == s.length * 0.04
    else
      && kind == Straight && s.turnAngle == 0.0 && s.length == 20.0 && s.drop == 0.8 && s.bump == 0.0
      && WellMade(t, s) && s.start == from.pos && s.startYaw == from.yaw
  }

  lemma FallbackIs(t: Trig, p: TrackParams, from: Pose)
    ensures FallbackSays(t, p, from, Fallback(t, p, from).0, Fallback(t, p, from).1)
  {
    hide WellMade, Phi, TurnedAbout;
    var phi := Phi(p, from.yaw);
    if Abs(phi) > Radians(5.0) {
      var angle := FallbackAngle(phi);
      var turn := if phi > 0.0 then -angle else angle;
      MadeArc(t, from, 60.0, turn, 60.0 * angle * 0.04);
    } else {
      MadeLine(t, from, 20.0, 0.8, 0.0);
    }
  }

  // The next feature, told from the draws: the first attempt that is not rejected, with its
  // kind and its sections, or the fallback exactly when every attempt made is rejected.
  ghost predicate NextSays(t: Trig, p: TrackParams, rng: Stream, g: Gen, next: Gen)
    requires UnitStream(rng) && p.Valid() && g.sections != []
  {
    var from := EndPose(g.sections[|g.sections| - 1]);
    if NoneAccepted(t, p, rng, g, from, g.pos, p.maxAttempts) then
      exists kind, s, q :: FallbackSays(t, p, from, kind, s) && CommitSays(p, rng, g.(pos := q), [s], kind, false, next)
    else
      exists n: nat :: n < p.maxAttempts && Accepted(t, p, rng, g, from, g.pos, n) && TakenNth(t, p, rng, g, from, n, next)
  }

  ghost predicate TakenNth(t: Trig, p: TrackParams, rng: Stream, g: Gen, from: Pose, n: nat, next: Gen)
    requires UnitStream(rng) && p.Valid() && Accepted(t, p, rng, g, from, g.pos, n)
  {
    var a := NthAttempt(t, p, rng, g.pacing, from, g.pos, n).value;
    a.sections != [] && CommitSays(p, rng, g.(pos := a.next), a.sections, a.kind, true, next)
  }

  lemma AppendedSays(t: Trig, p: TrackParams, rng: Stream, g: Gen)
    requires UnitStream(rng) && p.Valid() && g.sections != []
    ensures NextSays(t, p, rng, g, Appended(t, p, rng, g))
  {
    hide Choose, Committed, CommitSays, Fallback, FallbackSays, NoneAccepted, Accepted, NthAttempt, EndPose, AllLong, Chained, FitsIn;
    var from := EndPose(g.sections[|g.sections| - 1]);
    var (choice, q) := Choose(t, p, rng, g, from, g.pos, p.maxAttempts);
    ChooseSays(t, p, rng, g, from, g.pos, p.maxAttempts);
    ChosenOk(t, p, rng, g, from, g.pos, p.maxAttempts);
    var next := Appended(t, p, rng, g);
    if choice.Chosen? {
      var n: nat :| n < p.maxAttempts && ChosenAs(t, p, rng, g, from, g.pos, n, choice, q);
      CommittedSays(t, p, rng, g.(pos := q), choice.sections, choice.kind, true);
      assert TakenNth(t, p, rng, g, from, n, next);
    } else {
      var (kind, s) := Fallback(t, p, from);
      FallbackIs(t, p, from);
      OneLong(s);
      CommittedSays(t, p, rng, g.(pos := q), [s], kind, false);
      assert FallbackSays(t, p, from, kind, s) && CommitSays(p, rng, g.(pos := q), [s], kind, false, next);
    }
  }

  // ---- every run --------------------------------------------------------------------------------

  // The generator after k features beyond the start.
  function AfterFeatures(t: Trig, p: TrackParams, rng: Stream, k: nat): (g: Gen)
    requires UnitStream(rng) && p.Valid()
    ensures g.sections != []
  {
    if k == 0 then Started(t, p, rng)
    else
      AppendGrows(t, p, rng, AfterFeatures(t, p, rng, k - 1));
      Appended(t, p, rng, AfterFeatures(t, p, rng, k - 1))
  }

  lemma {:induction false} EnsuredCounts(t: Trig, p: TrackParams, rng: Stream, k: nat, index: nat) returns (m: nat)
    requires UnitStream(rng) && p.Valid()
    ensures m >= k && Ensured(t, p, rng, AfterFeatures(t, p, rng, k), index) == AfterFeatures(t, p, rng, m)
    ensures |AfterFeatures(t, p, rng, m).sections| > index && (m > k ==> |AfterFeatures(t, p, rng, m - 1).sections| <= index)
    decreases index + 1 - |AfterFeatures(t, p, rng, k).sections|
  {
    hide Appended, Started;
    var g := AfterFeatures(t, p, rng, k);
    if |g.sections| > index {
      m := k;
    } else {
      AppendGrows(t, p, rng, g);
      assert AfterFeatures(t, p, rng, k + 1) == Appended(t, p, rng, g);
      m := EnsuredCounts(t, p, rng, k + 1, index);
    }
  }

  lemma {:induction false} LogCounts(t: Trig, p: TrackParams, rng: Stream, k: nat)
    requires UnitStream(rng) && p.Valid()
    ensures |AfterFeatures(t, p, rng, k).log| == k + 1
  {
    hide Appended, Started;
    if k == 0 {
      OneLogged(t, p, rng);
    } else {
      LogCounts(t, p, rng, k - 1);
      AppendedLogs(t, p, rng, AfterFeatures(t, p, rng, k - 1));
    }
  }

  lemma OneLogged(t: Trig, p: TrackParams, rng: Stream)
    requires UnitStream(rng) && p.Valid()
    ensures |Started(t, p, rng).log| == 1
  {
    hide Footprint, DrawStyle, CommitFirst;
  }

  lemma AppendedLogs(t: Trig, p: TrackParams, rng: Stream, g: Gen)
    requires UnitStream(rng) && p.Valid() && g.sections != []
    ensures var next := Appended(t, p, rng, g); |next.log| == |g.log| + 1 && g.log <= next.log && g.sections <= next.sections
  {
    hide Choose, Fallback, CommitFirst, DrawStyle, StraightSoFar, EndPose, AllLong, Chained, FitsIn;
    AppendGrows(t, p, rng, g);
    ChosenOk(t, p, rng, g, EndPose(g.sections[|g.sections| - 1]), g.pos, p.maxAttempts);
  }

  lemma {:induction false} FeaturesExtend(t: Trig, p: TrackParams, rng: Stream, k: nat, m: nat)
    requires UnitStream(rng) && p.Valid() && k <= m
    ensures AfterFeatures(t, p, rng, k).log <= AfterFeatures(t, p, rng, m).log
    ensures AfterFeatures(t, p, rng, k).sections <= AfterFeatures(t, p, rng, m).sections
    decreases m
  {
    hide Appended, Started;
    if k < m {
      FeaturesExtend(t, p, rng, k, m - 1);
      AppendedLogs(t, p, rng, AfterFeatures(t, p, rng, m - 1));
    }
  }

  // Any calls leave the generator after some number of features.
  lemma {:induction false} RunCounts(t: Trig, p: TrackParams, rng: Stream, calls: seq<Call>) returns (m: nat)
    requires UnitStream(rng) && p.Valid()
    ensures Run(t, p, rng, calls) == AfterFeatures(t, p, rng, m)
  {
    hide Ensured, Appended, Started;
    if calls == [] {
      m := EnsuredCounts(t, p, rng, 0, p.forwardBufferSections);
    } else {
      var k := RunCounts(t, p, rng, calls[..|calls| - 1]);
      m := EnsuredCounts(t, p, rng, k, Requested(p, calls[|calls| - 1]));
    }
  }

  // A run generates the section asked for furthest ahead, and no feature beyond the one it
  // belongs to.
  lemma JustEnough(t: Trig, p: TrackParams, rng: Stream, calls: seq<Call>) returns (m: nat)
    requires UnitStream(rng) && p.Valid()
    ensures Run(t, p, rng, calls) == AfterFeatures(t, p, rng, m) && |Run(t, p, rng, calls).sections| > Furthest(p, calls)
    ensures m > 0 ==> |AfterFeatures(t, p, rng, m - 1).sections| <= Furthest(p, calls)
  {
    hide Ensured, Appended, Started, Run, Furthest;
    RunDependsOnFurthest(t, p, rng, calls);
    m := EnsuredCounts(t, p, rng, 0, Furthest(p, calls));
  }

  // Every feature of every run but the first: there is the generator it was chosen from,
  // with the road and the log before it, and it is the next feature as the draws have it.
  lemma EveryFeature(t: Trig, p: TrackParams, rng: Stream, calls: seq<Call>, k: nat)
    requires UnitStream(rng) && p.Valid() && 1 <= k < |Run(t, p, rng, calls).log|
    ensures var g, before, next := Run(t, p, rng, calls), AfterFeatures(t, p, rng, k - 1), AfterFeatures(t, p, rng, k);
            && before.log == g.log[..k] && next.log == g.log[..k + 1] && before.sections <= next.sections <= g.sections
            && GenOk(t, p, before) && NextSays(t, p, rng, before, next)
  {
    hide Appended, Started, NextSays, GenOk, Run;
    var m := RunCounts(t, p, rng, calls);
    LogCounts(t, p, rng, m);
    LogCounts(t, p, rng, k);
    LogCounts(t, p, rng, k - 1);
    FeaturesExtend(t, p, rng, k - 1, k);
    FeaturesExtend(t, p, rng, k - 1, m);
    FeaturesExtend(t, p, rng, k, m);
    FeaturesOk(t, p, rng, k - 1);
    assert AfterFeatures(t, p, rng, k) == Appended(t, p, rng, AfterFeatures(t, p, rng, k - 1));
    AppendedSays(t, p, rng, AfterFeatures(t, p, rng, k - 1));
  }

  lemma {:induction false} FeaturesOk(t: Trig, p: TrackParams, rng: Stream, k: nat)
    requires UnitStream(rng) && p.Valid()
    ensures GenOk(t, p, AfterFeatures(t, p, rng, k))
  {
    hide Appended, GenOk, Fresh;
    if k == 0 {
      FreshOk(t, p, rng);
    } else {
      FeaturesOk(t, p, rng, k - 1);
      AppendedKeeps(t, p, rng, AfterFeatures(t, p, rng, k - 1));
    }
  }

  // ---- pacing ---------------------------------------------------------------------------------------

  // Every kind but the start weighs what it is given, except that off a long straight nothing
  // tight weighs, and a hairpin only, but two and a half times as much, on a steep traverse.
  lemma WeightsSay(p: TrackParams, g: Pacing, phi0: real, k: nat)
    requires p.Valid() && k < 9
    ensures var w, long, steep := Weights(p, g, phi0), g.lastStraightLength > p.longStraight, Abs(phi0) >= 60.0 * PI / 180.0;
            && |w| == 9
            && (KindOf(k) == Start ==> w[k] == 0.0)
            && (KindOf(k) == Hairpin ==> w[k] == if !long && steep then p.weight[k] * 2.5 else 0.0)
            && (KindOf(k) in {Chicane, Tightening} ==> w[k] == if long then 0.0 else p.weight[k])
            && (KindOf(k) in {Straight, Sweeper, Corner, Esses, Opening} ==> w[k] == p.weight[k])
            && (forall j: nat | j < 9 && KindOf(j) == KindOf(k) :: j == k)
  {
  }

  // Nothing tight off a long straight, and hairpins only off a traverse of sixty degrees or
  // more: an attempt is never of a kind that does not weigh.
  lemma AttemptPaced(t: Trig, p: TrackParams, rng: Stream, g: Pacing, from: Pose, pos: nat)
    requires UnitStream(rng) && p.Valid() && AttemptAt(t, p, rng, g, from, pos).Some?
    ensures var kind := AttemptAt(t, p, rng, g, from, pos).value.kind;
            && kind != Start
            && (kind in {Hairpin, Chicane, Tightening} ==> g.lastStraightLength <= p.longStraight)
            && (kind == Hairpin ==> Abs(Phi(p, from.yaw)) >= 60.0 * PI / 180.0)
  {
    hide BuildFeature, Phi, PickWeighted;
    PickedWeighs(Weights(p, g, Phi(p, from.yaw)), rng, pos);
  }
}
