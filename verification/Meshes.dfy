/** Meshes grouped by material: compaction, and the layout written to disk. */
module Meshes {
  import opened UnionFind
  import opened Vectors

  datatype Rgba = Rgba(r: real, g: real, b: real, a: real)
  datatype Vertex = Vertex(pos: Vec3, nrm: Vec3, col: Vec3, u: real, v: real)
  datatype Flags = Flags(doubleSided: bool, noOutline: bool, glossy: bool, alphaTest: bool, paint: bool)
  datatype Material = Material(name: string, color: Rgba, emission: Vec3, texture: string, flags: Flags)

  // What tells materials apart: the look to four decimals, the texture and the flags.
  datatype MatKey = MatKey(color: seq<int>, emission: Key, texture: string, flags: Flags)

  datatype Group = Group(mat: Material, tris: seq<Tri<nat>>)
  datatype Mesh = Mesh(verts: seq<Vertex>, groups: seq<Group>)

  // To four decimals, halves to even, in ten-thousandths.
  function Round4(x: real): int {
    var f := (x * 10000.0).Floor;
    var rest := x * 10000.0 - f as real;
    if rest < 0.5 || (rest == 0.5 && f % 2 == 0) then f else f + 1
  }

  // The nearest one, and of two the even one.
  lemma Round4Nearest(x: real, n: int)
    ensures n == Round4(x) <==> -0.5 <= x * 10000.0 - n as real <= 0.5 && (x * 10000.0 - n as real in {-0.5, 0.5} ==> n % 2 == 0)
  {
    var f := (x * 10000.0).Floor;
    assert f as real <= x * 10000.0 < (f + 1) as real;
    assert n != f && n != f + 1 ==> n <= f - 1 || n >= f + 2;
  }

  function Weld(p: Vec3): Key {
    Key(Round4(p.x), Round4(p.y), Round4(p.z))
  }

  function KeyOf(m: Material): MatKey {
    MatKey([Round4(m.color.r), Round4(m.color.g), Round4(m.color.b), Round4(m.color.a)], Weld(m.emission), m.texture, m.flags)
  }

  // ---- what a mesh shows ------------------------------------------------------

  predicate TriOk(t: Tri<nat>, n: nat) {
    t.a < n && t.b < n && t.c < n
  }

  ghost predicate TrisOk(tris: seq<Tri<nat>>, n: nat) {
    forall t | t in tris :: TriOk(t, n)
  }

  ghost predicate GroupsOk(groups: seq<Group>, n: nat) {
    forall g | g in groups :: TrisOk(g.tris, n)
  }

  ghost predicate MeshOk(m: Mesh) {
    GroupsOk(m.groups, |m.verts|)
  }

  // A triangle with its vertices resolved.
  datatype Face = Face(key: MatKey, corners: Tri<Vertex>)

  function Corners(verts: seq<Vertex>, t: Tri<nat>): Tri<Vertex>
    requires TriOk(t, |verts|)
  {
    Tri(verts[t.a], verts[t.b], verts[t.c])
  }

  function TriFaces(verts: seq<Vertex>, key: MatKey, tris: seq<Tri<nat>>): seq<Face>
    requires TrisOk(tris, |verts|)
  {
    seq(|tris|, i requires 0 <= i < |tris| => assert tris[i] in tris; Face(key, Corners(verts, tris[i])))
  }

  function GroupFaces(verts: seq<Vertex>, groups: seq<Group>): seq<Face>
    requires GroupsOk(groups, |verts|)
  {
    if groups == [] then []
    else
      assert groups[0] in groups;
      TriFaces(verts, KeyOf(groups[0].mat), groups[0].tris) + GroupFaces(verts, groups[1..])
  }

  function Faces(m: Mesh): seq<Face>
    requires MeshOk(m)
  {
    GroupFaces(m.verts, m.groups)
  }

  // ---- compaction -------------------------------------------------------------

  function IndicesOf(tris: seq<Tri<nat>>): set<nat> {
    if tris == [] then {} else {tris[0].a, tris[0].b, tris[0].c} + IndicesOf(tris[1..])
  }

  function UsedBy(groups: seq<Group>): set<nat> {
    if groups == [] then {} else IndicesOf(groups[0].tris) + UsedBy(groups[1..])
  }

  // The members below n in ascending order.
  function Ascending(s: set<nat>, n: nat): seq<nat> {
    if n == 0 then [] else Ascending(s, n - 1) + (if n - 1 in s then [n - 1] else [])
  }

  // How many members come before.
  function Rank(s: set<nat>, i: nat): nat {
    |Ascending(s, i)|
  }

  function RemapTri(s: set<nat>, base: nat, t: Tri<nat>): Tri<nat> {
    Tri(base + Rank(s, t.a), base + Rank(s, t.b), base + Rank(s, t.c))
  }

  function RemapTris(s: set<nat>, base: nat, tris: seq<Tri<nat>>): seq<Tri<nat>> {
    seq(|tris|, i requires 0 <= i < |tris| => RemapTri(s, base, tris[i]))
  }

  function RemapGroups(s: set<nat>, groups: seq<Group>): seq<Group> {
    seq(|groups|, i requires 0 <= i < |groups| => groups[i].(tris := RemapTris(s, 0, groups[i].tris)))
  }

  function Pick(verts: seq<Vertex>, s: set<nat>): seq<Vertex> {
    var used := Ascending(s, |verts|);
    AscendingBelow(s, |verts|);
    seq(|used|, i requires 0 <= i < |used| => verts[used[i]])
  }

  // Drop the vertices no triangle uses and renumber the rest.
  function Compacted(m: Mesh): Mesh {
    var s := UsedBy(m.groups);
    Mesh(Pick(m.verts, s), RemapGroups(s, m.groups))
  }

  lemma {:induction false} AscendingBelow(s: set<nat>, n: nat)
    ensures forall i | 0 <= i < |Ascending(s, n)| :: Ascending(s, n)[i] < n && Ascending(s, n)[i] in s
  {
    if n != 0 {
      AscendingBelow(s, n - 1);
    }
  }

  // A member's place in the list is its rank.
  lemma {:induction false} RankPlaces(s: set<nat>, n: nat, i: nat)
    requires i in s && i < n
    ensures Rank(s, i) < |Ascending(s, n)| && Ascending(s, n)[Rank(s, i)] == i
  {
    if i < n - 1 {
      RankPlaces(s, n - 1, i);
    }
  }

  // And each place's member has that rank.
  lemma {:induction false} PlaceRanks(s: set<nat>, n: nat, k: nat)
    requires k < |Ascending(s, n)|
    ensures Rank(s, Ascending(s, n)[k]) == k
  {
    if k < |Ascending(s, n - 1)| {
      PlaceRanks(s, n - 1, k);
    }
  }

  lemma {:induction false} IndicesHold(tris: seq<Tri<nat>>, i: nat)
    requires i < |tris|
    ensures tris[i].a in IndicesOf(tris) && tris[i].b in IndicesOf(tris) && tris[i].c in IndicesOf(tris)
  {
    if i > 0 {
      IndicesHold(tris[1..], i - 1);
    }
  }

  lemma {:induction false} UsedHold(groups: seq<Group>, i: nat)
    requires i < |groups|
    ensures IndicesOf(groups[i].tris) <= UsedBy(groups)
  {
    if i > 0 {
      UsedHold(groups[1..], i - 1);
    }
  }

  // A triangle renumbered onto picked vertices appended to others shows the same.
  lemma RemapShows(verts: seq<Vertex>, s: set<nat>, before: seq<Vertex>, t: Tri<nat>)
    requires TriOk(t, |verts|) && t.a in s && t.b in s && t.c in s
    ensures var r := RemapTri(s, |before|, t);
            TriOk(r, |before| + |Pick(verts, s)|) && Corners(before + Pick(verts, s), r) == Corners(verts, t)
  {
    RankPlaces(s, |verts|, t.a);
    RankPlaces(s, |verts|, t.b);
    RankPlaces(s, |verts|, t.c);
  }

  lemma RemapTrisShow(verts: seq<Vertex>, s: set<nat>, before: seq<Vertex>, key: MatKey, tris: seq<Tri<nat>>)
    requires TrisOk(tris, |verts|) && IndicesOf(tris) <= s
    ensures var all, r := before + Pick(verts, s), RemapTris(s, |before|, tris);
            TrisOk(r, |all|) && TriFaces(all, key, r) == TriFaces(verts, key, tris)
  {
    hide Pick, RemapTri, IndicesOf, TriOk;
    var all, r := before + Pick(verts, s), RemapTris(s, |before|, tris);
    forall i | 0 <= i < |tris|
      ensures TriOk(tris[i], |verts|) && TriOk(r[i], |all|) && Corners(all, r[i]) == Corners(verts, tris[i])
    {
      assert tris[i] in tris;
      IndicesHold(tris, i);
      RemapShows(verts, s, before, tris[i]);
    }
  }

  lemma {:induction false} RemapGroupsShow(verts: seq<Vertex>, s: set<nat>, groups: seq<Group>)
    requires GroupsOk(groups, |verts|) && UsedBy(groups) <= s
    ensures GroupsOk(RemapGroups(s, groups), |Pick(verts, s)|)
    ensures GroupFaces(Pick(verts, s), RemapGroups(s, groups)) == GroupFaces(verts, groups)
  {
    hide Pick, RemapTris, TriFaces, IndicesOf, KeyOf, TrisOk;
    if groups != [] {
      assert groups[0] in groups;
      RemapGroupsShow(verts, s, groups[1..]);
      RemapTrisShow(verts, s, [], KeyOf(groups[0].mat), groups[0].tris);
      assert [] + Pick(verts, s) == Pick(verts, s);
      var more := RemapGroups(s, groups);
      assert more == [more[0]] + RemapGroups(s, groups[1..]);
      assert more[1..] == RemapGroups(s, groups[1..]);
    }
  }

  // Compaction changes nothing that is shown: the same faces in the same order.
  lemma CompactShowsTheSame(m: Mesh)
    requires MeshOk(m)
    ensures MeshOk(Compacted(m)) && Faces(Compacted(m)) == Faces(m)
  {
    hide Pick, RemapGroups, UsedBy, GroupFaces;
    RemapGroupsShow(m.verts, UsedBy(m.groups), m.groups);
  }

  // ---- nothing is left over -----------------------------------------------------

  lemma {:induction false} RemappedIndices(s: set<nat>, tris: seq<Tri<nat>>)
    ensures IndicesOf(RemapTris(s, 0, tris)) == set i | i in IndicesOf(tris) :: Rank(s, i)
  {
    hide Rank;
    if tris != [] {
      RemappedIndices(s, tris[1..]);
      var r := RemapTris(s, 0, tris);
      assert r[1..] == RemapTris(s, 0, tris[1..]);
    }
  }

  lemma {:induction false} RemappedUsed(s: set<nat>, groups: seq<Group>)
    ensures UsedBy(RemapGroups(s, groups)) == set i | i in UsedBy(groups) :: Rank(s, i)
  {
    hide Rank, IndicesOf, RemapTris;
    if groups != [] {
      RemappedUsed(s, groups[1..]);
      RemappedIndices(s, groups[0].tris);
      var r := RemapGroups(s, groups);
      assert r[1..] == RemapGroups(s, groups[1..]);
    }
  }

  ghost predicate AllUsed(m: Mesh) {
    forall i: nat :: i in UsedBy(m.groups) <==> i < |m.verts|
  }

  lemma {:induction false} IndicesInRange(tris: seq<Tri<nat>>, n: nat)
    requires TrisOk(tris, n)
    ensures forall i | i in IndicesOf(tris) :: i < n
  {
    if tris != [] {
      assert tris[0] in tris;
      IndicesInRange(tris[1..], n);
    }
  }

  lemma {:induction false} UsedInRange(groups: seq<Group>, n: nat)
    requires GroupsOk(groups, n)
    ensures forall i | i in UsedBy(groups) :: i < n
  {
    hide IndicesOf, TrisOk;
    if groups != [] {
      assert groups[0] in groups;
      IndicesInRange(groups[0].tris, n);
      UsedInRange(groups[1..], n);
    }
  }

  // Every vertex left is used.
  lemma CompactLeavesNoneOver(m: Mesh)
    requires MeshOk(m)
    ensures AllUsed(Compacted(m))
  {
    hide UsedBy, RemapGroups;
    var s := UsedBy(m.groups);
    UsedInRange(m.groups, |m.verts|);
    RemappedUsed(s, m.groups);
    var used := Ascending(s, |m.verts|);
    forall i: nat
      ensures i in UsedBy(Compacted(m).groups) <==> i < |used|
    {
      if i < |used| {
        AscendingBelow(s, |m.verts|);
        PlaceRanks(s, |m.verts|, i);
      }
      if i in UsedBy(Compacted(m).groups) {
        var o :| o in s && Rank(s, o) == i;
        RankPlaces(s, |m.verts|, o);
      }
    }
  }

  lemma {:induction false} AscendingAll(s: set<nat>, n: nat)
    requires forall i: nat | i < n :: i in s
    ensures Ascending(s, n) == seq(n, i => i)
  {
    if n != 0 {
      AscendingAll(s, n - 1);
    }
  }

  // So compacting again does nothing.
  lemma CompactTwice(m: Mesh)
    requires MeshOk(m)
    ensures Compacted(Compacted(m)) == Compacted(m)
  {
    CompactShowsTheSame(m);
    CompactLeavesNoneOver(m);
    FullIsCompact(Compacted(m));
  }

  lemma FullIsCompact(m: Mesh)
    requires MeshOk(m) && AllUsed(m)
    ensures Compacted(m) == m
  {
    hide UsedBy, Ascending, GroupsOk;
    var s, n := UsedBy(m.groups), |m.verts|;
    AscendingAll(s, n);
    assert Pick(m.verts, s) == m.verts;
    forall i | 0 <= i < |m.groups|
      ensures RemapTris(s, 0, m.groups[i].tris) == m.groups[i].tris
    {
      GroupAt(m.groups, n, i);
      FullRemapsNothing(s, n, m.groups[i].tris);
    }
  }

  lemma GroupAt(groups: seq<Group>, n: nat, i: nat)
    requires GroupsOk(groups, n) && i < |groups|
    ensures TrisOk(groups[i].tris, n)
  {
  }

  lemma FullRemapsNothing(s: set<nat>, n: nat, tris: seq<Tri<nat>>)
    requires TrisOk(tris, n) && forall i: nat | i < n :: i in s
    ensures RemapTris(s, 0, tris) == tris
  {
    hide Ascending;
    forall i | 0 <= i < |tris|
      ensures RemapTri(s, 0, tris[i]) == tris[i]
    {
      assert tris[i] in tris;
      AscendingAll(s, tris[i].a);
      AscendingAll(s, tris[i].b);
      AscendingAll(s, tris[i].c);
    }
  }
}
