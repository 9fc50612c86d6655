/** The written layout: one index list, ordered so that the renderer can draw a prefix of it. */
module MeshFiles {
  import opened Meshes
  import opened UnionFind

  // Outlined opaque parts first, then the rest of the opaque ones, then the see-through ones.
  function DrawRank(m: Material): nat {
    if m.flags.alphaTest || m.color.a < 0.999 then 2
    else if m.flags.noOutline || m.flags.doubleSided then 1
    else 0
  }

  function OfRank(groups: seq<Group>, rank: nat): seq<Group> {
    if groups == [] then []
    else (if DrawRank(groups[0].mat) == rank && groups[0].tris != [] then [groups[0]] else []) + OfRank(groups[1..], rank)
  }

  // Groups with triangles, sorted by rank; groups of one rank keep their order.
  function DrawOrder(groups: seq<Group>): seq<Group> {
    OfRank(groups, 0) + OfRank(groups, 1) + OfRank(groups, 2)
  }

  function Flat(tris: seq<Tri<nat>>): seq<nat> {
    if tris == [] then [] else [tris[0].a, tris[0].b, tris[0].c] + Flat(tris[1..])
  }

  function Unflat(indices: seq<nat>): seq<Tri<nat>> {
    if |indices| < 3 then [] else [Tri(indices[0], indices[1], indices[2])] + Unflat(indices[3..])
  }

  // A submesh: its place in the index list, and its material.
  datatype Sub = Sub(first: nat, count: nat, mat: Material)

  function FlatAll(groups: seq<Group>): seq<nat> {
    if groups == [] then [] else FlatAll(groups[..|groups| - 1]) + Flat(groups[|groups| - 1].tris)
  }

  function Subs(groups: seq<Group>): seq<Sub> {
    if groups == [] then []
    else
      var front, last := groups[..|groups| - 1], groups[|groups| - 1];
      Subs(front) + [Sub(|FlatAll(front)|, |Flat(last.tris)|, last.mat)]
  }

  class Model {
    var verts: seq<Vertex>
    var groups: seq<Group>

    function Contents(): Mesh
      reads this
    {
      Mesh(verts, groups)
    }

    constructor ()
      ensures Contents() == Mesh([], [])
    {
      verts, groups := [], [];
    }

    method Compact()
      requires MeshOk(Contents())
      modifies this
      ensures Contents() == Compacted(old(Contents()))
    {
      hide IndicesOf, Rank, TrisOk;
      var used := {};
      ghost var m := Contents();
      for i := 0 to |groups|
        invariant used + UsedBy(groups[i..]) == UsedBy(groups)
      {
        used := used + IndicesOf(groups[i].tris);
        assert groups[i..][1..] == groups[i + 1..];
      }
      assert used == UsedBy(groups);
      verts := Pick(verts, used);
      for i := 0 to |groups|
        invariant |groups| == |m.groups| && verts == Pick(m.verts, used)
        invariant forall k | 0 <= k < i :: groups[k] == RemapGroups(used, m.groups)[k]
        invariant forall k | i <= k < |groups| :: groups[k] == m.groups[k]
      {
        groups := groups[i := groups[i].(tris := RemapTris(used, 0, groups[i].tris))];
      }
    }

    // The index list and submeshes, after compaction.
    method Write() returns (indices: seq<nat>, subs: seq<Sub>)
      requires MeshOk(Contents())
      modifies this
      ensures Contents() == Compacted(old(Contents()))
      ensures indices == FlatAll(DrawOrder(groups)) && subs == Subs(DrawOrder(groups))
    {
      hide Compacted, Flat, DrawOrder;
      Compact();
      var ordered := DrawOrder(groups);
      indices, subs := [], [];
      for i := 0 to |ordered|
        invariant indices == FlatAll(ordered[..i]) && subs == Subs(ordered[..i])
      {
        assert ordered[..i + 1][..i] == ordered[..i];
        subs := subs + [Sub(|indices|, |Flat(ordered[i].tris)|, ordered[i].mat)];
        indices := indices + Flat(ordered[i].tris);
      }
      assert ordered[..|ordered|] == ordered;
    }
  }

  // ---- what a reader gets back ----------------------------------------------------

  lemma {:induction false} UnflatFlat(tris: seq<Tri<nat>>)
    ensures Unflat(Flat(tris)) == tris && |Flat(tris)| == 3 * |tris|
  {
    if tris != [] {
      UnflatFlat(tris[1..]);
      assert Flat(tris)[3..] == Flat(tris[1..]);
    }
  }

  // The submesh starts where the one before ends and holds the group's indices.
  ghost predicate Tiles(indices: seq<nat>, subs: seq<Sub>, i: nat, g: Group)
    requires i < |subs|
  {
    && subs[i].first == (if i == 0 then 0 else subs[i - 1].first + subs[i - 1].count)
    && subs[i].first + subs[i].count <= |indices|
    && subs[i].mat == g.mat
    && indices[subs[i].first..subs[i].first + subs[i].count] == Flat(g.tris)
  }

  // The submeshes lie end to end over the whole index list, and each holds its group.
  lemma {:induction false} SubsTile(groups: seq<Group>)
    ensures |Subs(groups)| == |groups|
    ensures |FlatAll(groups)| == EndOf(Subs(groups))
    ensures forall i | 0 <= i < |groups| :: Tiles(FlatAll(groups), Subs(groups), i, groups[i])
  {
    hide Flat, Tiles;
    if groups != [] {
      var front, last := groups[..|groups| - 1], groups[|groups| - 1];
      SubsTile(front);
      forall i | 0 <= i < |groups|
        ensures Tiles(FlatAll(groups), Subs(groups), i, groups[i])
      {
        if i < |front| {
          assert groups[i] == front[i];
          TilesStay(FlatAll(front), Subs(front), Flat(last.tris), Subs(groups)[|front|], i, front[i]);
        } else {
          TilesLast(FlatAll(front), Subs(front), last);
        }
      }
    }
  }

  function EndOf(subs: seq<Sub>): nat {
    if subs == [] then 0 else subs[|subs| - 1].first + subs[|subs| - 1].count
  }

  lemma TilesStay(indices: seq<nat>, subs: seq<Sub>, more: seq<nat>, sub: Sub, i: nat, g: Group)
    requires i < |subs| && Tiles(indices, subs, i, g)
    ensures Tiles(indices + more, subs + [sub], i, g)
  {
    hide Flat;
    Prefixed(indices, indices + more, subs[i].first, subs[i].first + subs[i].count);
  }

  lemma TilesLast(indices: seq<nat>, subs: seq<Sub>, g: Group)
    requires |indices| == EndOf(subs)
    ensures Tiles(indices + Flat(g.tris), subs + [Sub(|indices|, |Flat(g.tris)|, g.mat)], |subs|, g)
  {
    hide Flat;
  }

  lemma Prefixed(front: seq<nat>, all: seq<nat>, lo: nat, hi: nat)
    requires lo <= hi <= |front| && front <= all
    ensures all[lo..hi] == front[lo..hi]
  {
  }

  lemma {:induction false} RankKeeps(groups: seq<Group>, rank: nat)
    ensures forall g | g in OfRank(groups, rank) :: g in groups && DrawRank(g.mat) == rank && g.tris != []
  {
    if groups != [] {
      RankKeeps(groups[1..], rank);
      assert groups == [groups[0]] + groups[1..];
    }
  }

  lemma {:induction false} OrderKeeps(groups: seq<Group>)
    ensures multiset(OfRank(groups, 0)) + multiset(OfRank(groups, 1)) + multiset(OfRank(groups, 2)) == multiset(NonEmpty(groups))
  {
    hide OfRank, NonEmpty;
    if groups == [] {
      NoGroups();
    } else {
      OrderKeeps(groups[1..]);
      FirstCounts(groups, 0);
      FirstCounts(groups, 1);
      FirstCounts(groups, 2);
      NonEmptyCounts(groups);
    }
  }

  lemma NoGroups()
    ensures NonEmpty([]) == [] && OfRank([], 0) == [] && OfRank([], 1) == [] && OfRank([], 2) == []
  {
  }

  lemma NonEmptyCounts(groups: seq<Group>)
    requires groups != []
    ensures multiset(NonEmpty(groups)) == (if groups[0].tris != [] then multiset{groups[0]} else multiset{}) + multiset(NonEmpty(groups[1..]))
  {
  }

  lemma FirstCounts(groups: seq<Group>, rank: nat)
    requires groups != []
    ensures multiset(OfRank(groups, rank)) ==
              (if DrawRank(groups[0].mat) == rank && groups[0].tris != [] then multiset{groups[0]} else multiset{})
              + multiset(OfRank(groups[1..], rank))
  {
    hide DrawRank;
  }

  function NonEmpty(groups: seq<Group>): seq<Group> {
    if groups == [] then [] else (if groups[0].tris != [] then [groups[0]] else []) + NonEmpty(groups[1..])
  }

  // In draw order ranks never fall, so each rank, and each rank with all before it, is one
  // run of the index list.
  lemma RanksAscend(groups: seq<Group>, i: nat, j: nat)
    requires i <= j < |DrawOrder(groups)|
    ensures DrawRank(DrawOrder(groups)[i].mat) <= DrawRank(DrawOrder(groups)[j].mat)
  {
    RankKeeps(groups, 0);
    RankKeeps(groups, 1);
    RankKeeps(groups, 2);
    var a, b, c := OfRank(groups, 0), OfRank(groups, 1), OfRank(groups, 2);
    var all := DrawOrder(groups);
    assert all[i] in if i < |a| then a else if i < |a| + |b| then b else c;
    assert all[j] in if j < |a| then a else if j < |a| + |b| then b else c;
  }

  // Reading a written model gives back its groups: every submesh decodes to the triangles of
  // one group that has any, in draw order, and the index list holds nothing else.
  lemma WrittenReadsBack(groups: seq<Group>)
    ensures var indices, subs, drawn := FlatAll(DrawOrder(groups)), Subs(DrawOrder(groups)), DrawOrder(groups);
            && multiset(drawn) == multiset(NonEmpty(groups))
            && |subs| == |drawn| && |indices| == EndOf(subs)
            && (forall i | 0 <= i < |subs| :: SubHolds(indices, subs, i, drawn[i]))
            && (forall i, j | 0 <= i <= j < |subs| :: DrawRank(subs[i].mat) <= DrawRank(subs[j].mat))
  {
    hide FlatAll, Subs, DrawRank, Flat, Unflat, OfRank, NonEmpty;
    var drawn := DrawOrder(groups);
    OrderKeeps(groups);
    assert multiset(drawn) == multiset(OfRank(groups, 0)) + multiset(OfRank(groups, 1)) + multiset(OfRank(groups, 2));
    SubsTile(drawn);
    DrawnHold(groups);
  }

  lemma DrawnHold(groups: seq<Group>)
    requires var drawn := DrawOrder(groups);
             |Subs(drawn)| == |drawn| && forall i | 0 <= i < |drawn| :: Tiles(FlatAll(drawn), Subs(drawn), i, drawn[i])
    ensures var indices, subs, drawn := FlatAll(DrawOrder(groups)), Subs(DrawOrder(groups)), DrawOrder(groups);
            && (forall i | 0 <= i < |subs| :: SubHolds(indices, subs, i, drawn[i]))
            && (forall i, j | 0 <= i <= j < |subs| :: DrawRank(subs[i].mat) <= DrawRank(subs[j].mat))
  {
    hide FlatAll, Subs, DrawRank, Flat, Unflat, DrawOrder;
    var indices, subs, drawn := FlatAll(DrawOrder(groups)), Subs(DrawOrder(groups)), DrawOrder(groups);
    forall i | 0 <= i < |subs|
      ensures SubHolds(indices, subs, i, drawn[i])
    {
      assert Tiles(indices, subs, i, drawn[i]);
      UnflatFlat(drawn[i].tris);
    }
    forall i, j | 0 <= i <= j < |subs|
      ensures DrawRank(subs[i].mat) <= DrawRank(subs[j].mat)
    {
      assert Tiles(indices, subs, i, drawn[i]) && Tiles(indices, subs, j, drawn[j]);
      RanksAscend(groups, i, j);
    }
  }

  // The submesh starts where the one before ends and decodes to the group.
  ghost predicate SubHolds(indices: seq<nat>, subs: seq<Sub>, i: nat, g: Group)
    requires i < |subs|
  {
    && subs[i].first == (if i == 0 then 0 else subs[i - 1].first + subs[i - 1].count)
    && subs[i].first + subs[i].count <= |indices|
    && subs[i].mat == g.mat
    && Unflat(indices[subs[i].first..subs[i].first + subs[i].count]) == g.tris
  }

  // ---- the order drawn in ---------------------------------------------------------------

  // Parts one can see through, and of the others those with an ink outline.
  predicate SeeThrough(m: Material) {
    m.flags.alphaTest || m.color.a < 0.999
  }

  predicate Outlined(m: Material) {
    !SeeThrough(m) && !m.flags.noOutline && !m.flags.doubleSided
  }

  // One is drawn before the other: outlined before plain before see-through, and of two of
  // a sort the one that came first.
  ghost predicate DrawnBefore(groups: seq<Group>, a: nat, b: nat)
    requires a < |groups| && b < |groups|
  {
    var m, n := groups[a].mat, groups[b].mat;
    && (SeeThrough(m) ==> SeeThrough(n)) && (Outlined(n) ==> Outlined(m))
    && (SeeThrough(m) == SeeThrough(n) && Outlined(m) == Outlined(n) ==> a < b)
  }

  // Where the groups drawn came from: every group with triangles, once, in that order.
  ghost predicate DrawnAs(groups: seq<Group>, drawn: seq<Group>, at: seq<nat>) {
    && |at| == |drawn| && (forall i | 0 <= i < |at| :: at[i] < |groups| && drawn[i] == groups[at[i]])
    && (forall k: nat | k < |groups| :: k in at <==> groups[k].tris != [])
    && (forall i, j | 0 <= i < j < |at| :: DrawnBefore(groups, at[i], at[j]))
  }

  // The places of the groups of one rank, in order.
  ghost predicate RankAt(groups: seq<Group>, rank: nat, at: seq<nat>) {
    && TakenFrom(groups, OfRank(groups, rank), at) && Rising(at)
    && forall k: nat | k < |groups| :: k in at <==> DrawRank(groups[k].mat) == rank && groups[k].tris != []
  }

  ghost predicate TakenFrom(groups: seq<Group>, taken: seq<Group>, at: seq<nat>) {
    |at| == |taken| && forall i | 0 <= i < |at| :: at[i] < |groups| && taken[i] == groups[at[i]]
  }

  ghost predicate Rising(at: seq<nat>) {
    forall i, j | 0 <= i < j < |at| :: at[i] < at[j]
  }

  lemma {:induction false} RankFrom(groups: seq<Group>, rank: nat) returns (at: seq<nat>)
    ensures RankAt(groups, rank, at)
  {
    hide TakenFrom, Rising;
    if groups == [] {
      at := [];
      NothingAt(rank);
    } else {
      var rest := RankFrom(groups[1..], rank);
      LaterTaken(groups, OfRank(groups[1..], rank), rest);
      var first := DrawRank(groups[0].mat) == rank && groups[0].tris != [];
      at := if first then [0] + Later(rest) else Later(rest);
      RankSplits(groups, rank);
      forall k: nat | k < |groups|
        ensures k in at <==> DrawRank(groups[k].mat) == rank && groups[k].tris != []
      {
        LaterHas(rest, k);
        assert k > 0 ==> groups[1..][k - 1] == groups[k];
      }
    }
  }

  function Later(at: seq<nat>): seq<nat> {
    seq(|at|, i requires 0 <= i < |at| => at[i] + 1)
  }

  lemma NothingAt(rank: nat)
    ensures RankAt([], rank, [])
  {
  }

  lemma LaterTaken(groups: seq<Group>, taken: seq<Group>, rest: seq<nat>)
    requires groups != [] && TakenFrom(groups[1..], taken, rest) && Rising(rest)
    ensures TakenFrom(groups, taken, Later(rest)) && Rising(Later(rest))
    ensures TakenFrom(groups, [groups[0]] + taken, [0] + Later(rest)) && Rising([0] + Later(rest))
  {
    var later := Later(rest);
    forall i | 0 <= i < |later|
      ensures later[i] < |groups| && taken[i] == groups[later[i]]
    {
      assert taken[i] == groups[1..][rest[i]];
    }
  }

  lemma RankSplits(groups: seq<Group>, rank: nat)
    requires groups != []
    ensures OfRank(groups, rank) ==
              if DrawRank(groups[0].mat) == rank && groups[0].tris != [] then [groups[0]] + OfRank(groups[1..], rank) else OfRank(groups[1..], rank)
  {
    hide DrawRank;
    assert [] + OfRank(groups[1..], rank) == OfRank(groups[1..], rank);
  }

  lemma LaterHas(rest: seq<nat>, k: nat)
    ensures k in Later(rest) <==> k > 0 && k - 1 in rest
    ensures k in [0] + Later(rest) <==> k == 0 || k - 1 in rest
  {
    if k > 0 && k - 1 in rest {
      var i :| 0 <= i < |rest| && rest[i] == k - 1;
      assert Later(rest)[i] == k;
    }
  }

  lemma DrawnInOrder(groups: seq<Group>) returns (at: seq<nat>)
    ensures DrawnAs(groups, DrawOrder(groups), at)
  {
    hide OfRank, DrawRank, TakenFrom, Rising, DrawnBefore;
    var a := RankFrom(groups, 0);
    var b := RankFrom(groups, 1);
    var c := RankFrom(groups, 2);
    at := a + b + c;
    TakenJoins(groups, OfRank(groups, 0), a, OfRank(groups, 1), b);
    TakenJoins(groups, OfRank(groups, 0) + OfRank(groups, 1), a + b, OfRank(groups, 2), c);
    TakenMeans(groups, DrawOrder(groups), at);
    forall k: nat | k < |groups|
      ensures k in at <==> groups[k].tris != []
    {
      RankMeans(groups[k].mat);
      assert k in at <==> k in a || k in b || k in c;
    }
    forall i, j | 0 <= i < j < |at|
      ensures DrawnBefore(groups, at[i], at[j])
    {
      InOrder(groups, a, b, c, i, j);
    }
  }

  lemma TakenJoins(groups: seq<Group>, front: seq<Group>, a: seq<nat>, rest: seq<Group>, b: seq<nat>)
    requires TakenFrom(groups, front, a) && TakenFrom(groups, rest, b)
    ensures TakenFrom(groups, front + rest, a + b)
  {
  }

  lemma TakenMeans(groups: seq<Group>, taken: seq<Group>, at: seq<nat>)
    requires TakenFrom(groups, taken, at)
    ensures |at| == |taken| && forall i | 0 <= i < |at| :: at[i] < |groups| && taken[i] == groups[at[i]]
  {
  }

  lemma InOrder(groups: seq<Group>, a: seq<nat>, b: seq<nat>, c: seq<nat>, i: nat, j: nat)
    requires RankAt(groups, 0, a) && RankAt(groups, 1, b) && RankAt(groups, 2, c) && i < j < |a + b + c|
    ensures var at := a + b + c; at[i] < |groups| && at[j] < |groups| && DrawnBefore(groups, at[i], at[j])
  {
    hide OfRank, DrawRank, SeeThrough, Outlined;
    var at := a + b + c;
    RankOf(groups, a, b, c, i);
    RankOf(groups, a, b, c, j);
    RankMeans(groups[at[i]].mat);
    RankMeans(groups[at[j]].mat);
  }

  lemma RankOf(groups: seq<Group>, a: seq<nat>, b: seq<nat>, c: seq<nat>, i: nat)
    requires RankAt(groups, 0, a) && RankAt(groups, 1, b) && RankAt(groups, 2, c) && i < |a + b + c|
    ensures var at := a + b + c;
            && at[i] < |groups|
            && DrawRank(groups[at[i]].mat) == (if i < |a| then 0 else if i < |a| + |b| then 1 else 2)
            && at[i] == if i < |a| then a[i] else if i < |a| + |b| then b[i - |a|] else c[i - |a| - |b|]
  {
    hide OfRank, DrawRank;
    var at := a + b + c;
    assert at[i] in if i < |a| then a else if i < |a| + |b| then b else c;
  }

  lemma RankMeans(m: Material)
    ensures DrawRank(m) <= 2 && (SeeThrough(m) <==> DrawRank(m) == 2) && (Outlined(m) <==> DrawRank(m) == 0)
  {
  }
}
