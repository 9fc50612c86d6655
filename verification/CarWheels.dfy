/** Splitting a car: the procedure, and that it moves whole parts and loses nothing. */
module CarWheels {
  import opened MeshFiles
  import opened MeshParts
  import opened Meshes
  import opened UnionFind
  import opened Vectors
  import opened WheelSplit

  // ---- pieces hold every triangle once ----------------------------------------------

  lemma {:induction false} PieceTrisMean(tris: seq<Tri<nat>>, numbers: seq<nat>, t: Tri<nat>)
    ensures t in PieceTris(tris, numbers) <==> exists m | m in numbers :: m < |tris| && tris[m] == t
  {
    if numbers != [] {
      var front, last := numbers[..|numbers| - 1], numbers[|numbers| - 1];
      PieceTrisMean(tris, front, t);
      assert numbers == front + [last];
    }
  }

  lemma PiecesFromOk(verts: seq<Vertex>, mat: Material, tris: seq<Tri<nat>>, parts: seq<Part>)
    requires TrisOk(tris, |verts|)
    ensures PiecesOk(PiecesFrom(mat, tris, parts), |verts|)
  {
    hide TrisOk;
    forall i | 0 <= i < |parts|
      ensures TrisOk(PieceTris(tris, parts[i].tris), |verts|)
    {
      PieceTrisOk(tris, parts[i].tris, |verts|);
    }
  }

  function PartsBag(verts: seq<Vertex>, mat: Material, tris: seq<Tri<nat>>, parts: seq<Part>): multiset<Face>
    requires TrisOk(tris, |verts|)
  {
    PiecesFromOk(verts, mat, tris, parts);
    PiecesBag(verts, PiecesFrom(mat, tris, parts))
  }

  function TrisBag(verts: seq<Vertex>, mat: Material, tris: seq<Tri<nat>>): multiset<Face>
    requires TrisOk(tris, |verts|)
  {
    Bag(TriFaces(verts, KeyOf(mat), tris))
  }

  lemma PartsBagHead(verts: seq<Vertex>, mat: Material, tris: seq<Tri<nat>>, parts: seq<Part>)
    requires TrisOk(tris, |verts|) && parts != []
    ensures TrisOk(PieceTris(tris, parts[0].tris), |verts|)
    ensures PartsBag(verts, mat, tris, parts) == TrisBag(verts, mat, PieceTris(tris, parts[0].tris)) + PartsBag(verts, mat, tris, parts[1..])
  {
    hide TrisOk, Bag, TriFaces, PieceTris, KeyOf;
    PieceTrisOk(tris, parts[0].tris, |verts|);
    PiecesFromOk(verts, mat, tris, parts);
    assert PiecesFrom(mat, tris, parts)[1..] == PiecesFrom(mat, tris, parts[1..]);
  }

  lemma PieceGrows(verts: seq<Vertex>, mat: Material, tris: seq<Tri<nat>>, numbers: seq<nat>, n: nat)
    requires TrisOk(tris, |verts|) && n < |tris|
    ensures TrisOk(PieceTris(tris, numbers), |verts|) && TrisOk(PieceTris(tris, numbers + [n]), |verts|) && TrisOk([tris[n]], |verts|)
    ensures TrisBag(verts, mat, PieceTris(tris, numbers + [n])) == TrisBag(verts, mat, PieceTris(tris, numbers)) + TrisBag(verts, mat, [tris[n]])
  {
    hide Bag, TriFaces, KeyOf;
    PieceTrisOk(tris, numbers, |verts|);
    PieceTrisOk(tris, numbers + [n], |verts|);
    assert tris[n] in tris;
    assert (numbers + [n])[..|numbers|] == numbers;
    TriFacesJoin(verts, KeyOf(mat), PieceTris(tris, numbers), [tris[n]]);
    BagJoins(TriFaces(verts, KeyOf(mat), PieceTris(tris, numbers)), TriFaces(verts, KeyOf(mat), [tris[n]]));
  }

  lemma OneTriOk(tris: seq<Tri<nat>>, n: nat, count: nat)
    requires TrisOk(tris, count) && n < |tris|
    ensures TrisOk([tris[n]], count) && TrisOk(tris[..n], count) && TrisOk(tris[..n + 1], count)
  {
  }

  lemma {:induction false} ExtendedBag(verts: seq<Vertex>, mat: Material, tris: seq<Tri<nat>>, parts: seq<Part>, root: Key, n: nat)
    requires TrisOk(tris, |verts|) && n < |tris|
    ensures TrisOk([tris[n]], |verts|)
    ensures PartsBag(verts, mat, tris, Extended(parts, root, n)) == PartsBag(verts, mat, tris, parts) + TrisBag(verts, mat, [tris[n]])
  {
    hide TrisOk, PieceTris, PartsBag, TrisBag;
    OneTriOk(tris, n, |verts|);
    var more := Extended(parts, root, n);
    PartsBagHead(verts, mat, tris, more);
    if parts == [] {
      NoParts(verts, mat, tris);
      PieceGrows(verts, mat, tris, [], n);
      assert [] + [n] == [n] && more[1..] == [];
    } else {
      PartsBagHead(verts, mat, tris, parts);
      if parts[0].root == root {
        PieceGrows(verts, mat, tris, parts[0].tris, n);
        assert more[1..] == parts[1..];
        Swap(TrisBag(verts, mat, PieceTris(tris, parts[0].tris)), TrisBag(verts, mat, [tris[n]]), PartsBag(verts, mat, tris, parts[1..]));
      } else {
        ExtendedBag(verts, mat, tris, parts[1..], root, n);
        assert more[1..] == Extended(parts[1..], root, n);
        Beside(TrisBag(verts, mat, PieceTris(tris, parts[0].tris)), PartsBag(verts, mat, tris, more[1..]), multiset{},
               PartsBag(verts, mat, tris, parts[1..]), TrisBag(verts, mat, [tris[n]]));
      }
    }
  }

  lemma Swap(a: multiset<Face>, b: multiset<Face>, c: multiset<Face>)
    ensures a + b + c == a + c + b
  {
  }

  lemma NoParts(verts: seq<Vertex>, mat: Material, tris: seq<Tri<nat>>)
    requires TrisOk(tris, |verts|)
    ensures PartsBag(verts, mat, tris, []) == multiset{}
    ensures TrisOk(PieceTris(tris, []), |verts|) && TrisBag(verts, mat, PieceTris(tris, [])) == multiset{}
    ensures TrisOk(tris[..0], |verts|) && TrisBag(verts, mat, tris[..0]) == multiset{}
  {
    hide KeyOf;
    assert TriFaces(verts, KeyOf(mat), []) == [] && tris[..0] == [];
  }

  lemma {:induction false} GroupedBag(verts: seq<Vertex>, mat: Material, tris: seq<Tri<nat>>, labels: seq<Key>)
    requires TrisOk(tris, |verts|) && |labels| <= |tris|
    ensures TrisOk(tris[..|labels|], |verts|)
    ensures PartsBag(verts, mat, tris, Grouped(labels)) == TrisBag(verts, mat, tris[..|labels|])
  {
    hide TrisOk, PartsBag, TrisBag, Extended;
    if labels == [] {
      NoParts(verts, mat, tris);
    } else {
      var n := |labels| - 1;
      GroupedBag(verts, mat, tris, labels[..n]);
      ExtendedBag(verts, mat, tris, Grouped(labels[..n]), labels[n], n);
      OneTriOk(tris, n, |verts|);
      TrisBagJoins(verts, mat, tris[..n], [tris[n]]);
      assert tris[..n] + [tris[n]] == tris[..n + 1];
    }
  }

  lemma TrisBagJoins(verts: seq<Vertex>, mat: Material, a: seq<Tri<nat>>, b: seq<Tri<nat>>)
    requires TrisOk(a, |verts|) && TrisOk(b, |verts|)
    ensures TrisOk(a + b, |verts|) && TrisBag(verts, mat, a + b) == TrisBag(verts, mat, a) + TrisBag(verts, mat, b)
  {
    hide TrisOk, TriFaces, Bag, KeyOf;
    TriFacesJoin(verts, KeyOf(mat), a, b);
    BagJoins(TriFaces(verts, KeyOf(mat), a), TriFaces(verts, KeyOf(mat), b));
  }

  lemma GroupPiecesBag(verts: seq<Vertex>, g: Group)
    requires TrisOk(g.tris, |verts|)
    ensures PiecesOk(GroupPieces(verts, g), |verts|)
    ensures PiecesBag(verts, GroupPieces(verts, g)) == TrisBag(verts, g.mat, g.tris)
  {
    hide TrisOk, TrisBag, PiecesBag, Grouped, Roots, PiecesFrom;
    var weld := Welded(verts, g.tris);
    RootsKnown(weld);
    PiecesFromOk(verts, g.mat, g.tris, Parts(weld));
    GroupedBag(verts, g.mat, g.tris, Labels(weld, Roots(weld)));
    assert g.tris[..|g.tris|] == g.tris;
  }

  lemma {:induction false} AllPiecesBag(verts: seq<Vertex>, groups: seq<Group>)
    requires GroupsOk(groups, |verts|)
    ensures PiecesOk(AllPieces(verts, groups), |verts|)
    ensures PiecesBag(verts, AllPieces(verts, groups)) == Bag(GroupFaces(verts, groups))
  {
    hide PiecesBag, Bag, GroupPieces, PiecesOk, GroupFaces, TrisOk, GroupsOk, TriFaces, KeyOf;
    if groups == [] {
      NoFaces(verts);
      NothingPlaced(verts, 0);
      NoPieces(verts);
    } else {
      var front, last := groups[..|groups| - 1], groups[|groups| - 1];
      LastOk(groups, |verts|);
      AllPiecesBag(verts, front);
      GroupPiecesBag(verts, last);
      PiecesBagJoins(verts, AllPieces(verts, front), GroupPieces(verts, last));
      FacesLast(verts, front, last);
      BagJoins(GroupFaces(verts, front), TriFaces(verts, KeyOf(last.mat), last.tris));
      assert groups == front + [last];
    }
  }

  lemma NoPieces(verts: seq<Vertex>)
    ensures PiecesOk([], |verts|) && AllPieces(verts, []) == []
  {
  }

  lemma {:induction false} FacesLast(verts: seq<Vertex>, front: seq<Group>, last: Group)
    requires GroupsOk(front, |verts|) && TrisOk(last.tris, |verts|)
    ensures GroupsOk(front + [last], |verts|)
    ensures GroupFaces(verts, front + [last]) == GroupFaces(verts, front) + TriFaces(verts, KeyOf(last.mat), last.tris)
  {
    hide TrisOk, GroupsOk, TriFaces, KeyOf, GroupFaces;
    NoFaces(verts);
    if front == [] {
      assert [] + [last] == [last] == [last] + [];
      GroupsFrom(last, [], |verts|);
      FacesFrom(verts, last, []);
    } else {
      GroupHead(front, |verts|);
      assert front + [last] == [front[0]] + (front[1..] + [last]) && front == [front[0]] + front[1..];
      FacesLast(verts, front[1..], last);
      GroupsFrom(front[0], front[1..] + [last], |verts|);
      FacesFrom(verts, front[0], front[1..] + [last]);
      FacesFrom(verts, front[0], front[1..]);
    }
  }

  // The body and the wheels together show each face of the car exactly once, the same
  // vertices and material, paint flags aside; also after each is compacted.
  lemma SplitConserves(m: Mesh, cylinders: seq<Cylinder>)
    requires MeshOk(m)
    ensures var c := Split(m, cylinders);
            && |c.wheels| == |cylinders| && MeshOk(Mesh(m.verts, c.body)) && WheelsOk(c.wheels)
            && Bag(Faces(Mesh(m.verts, c.body))) + WheelBags(c.wheels) == Bag(Faces(m))
  {
    hide GroupsOk, GroupFaces, Bag, WheelBags, WheelsOk, AllPieces, PlacedAll, PiecesBag, PiecesOk;
    AllPiecesBag(m.verts, m.groups);
    PlacedAllKeeps(m.verts, cylinders, AllPieces(m.verts, m.groups));
  }

  function CompactedAll(wheels: seq<Mesh>): seq<Mesh> {
    seq(|wheels|, i requires 0 <= i < |wheels| => Compacted(wheels[i]))
  }

  lemma {:induction false} CompactWheels(wheels: seq<Mesh>)
    requires WheelsOk(wheels)
    ensures WheelsOk(CompactedAll(wheels)) && WheelBags(CompactedAll(wheels)) == WheelBags(wheels)
  {
    hide MeshOk, Faces, Bag, Compacted;
    if wheels != [] {
      assert wheels[0] in wheels;
      CompactWheels(wheels[1..]);
      CompactShowsTheSame(wheels[0]);
      var all := CompactedAll(wheels);
      assert all[1..] == CompactedAll(wheels[1..]);
      assert all == [all[0]] + all[1..];
    }
  }

  lemma CompactedSplitConserves(m: Mesh, cylinders: seq<Cylinder>)
    requires MeshOk(m)
    ensures var c := Split(m, cylinders);
            && MeshOk(Mesh(m.verts, c.body)) && MeshOk(Compacted(Mesh(m.verts, c.body))) && WheelsOk(CompactedAll(c.wheels))
            && Bag(Faces(Compacted(Mesh(m.verts, c.body)))) + WheelBags(CompactedAll(c.wheels)) == Bag(Faces(m))
  {
    hide MeshOk, Faces, Bag, Compacted, Split, WheelsOk, WheelBags;
    SplitConserves(m, cylinders);
    var c := Split(m, cylinders);
    CompactShowsTheSame(Mesh(m.verts, c.body));
    CompactWheels(c.wheels);
  }

  // ---- parts move whole -----------------------------------------------------------

  lemma {:induction false} OwnerMeans(verts: seq<Vertex>, cylinders: seq<Cylinder>, tris: seq<Tri<nat>>, i: nat)
    requires TrisOk(tris, |verts|) && i <= |cylinders|
    ensures var w := Owner(verts, cylinders, tris, i);
            && (w < |cylinders| ==> AllInside(verts, tris, cylinders[w]))
            && forall j | i <= j < w :: !AllInside(verts, tris, cylinders[j])
    decreases |cylinders| - i
  {
    hide AllInside;
    if i < |cylinders| && !AllInside(verts, tris, cylinders[i]) {
      OwnerMeans(verts, cylinders, tris, i + 1);
    }
  }

  // Every triangle that a chain connects to triangle n lies inside the cylinder.
  ghost predicate WholeInside(verts: seq<Vertex>, tris: seq<Tri<nat>>, n: nat, w: Cylinder)
    requires TrisOk(tris, |verts|)
  {
    forall m: nat | m < |tris| && Chained(Welded(verts, tris), n, m) :: NumberInside(verts, tris, m, w)
  }

  ghost predicate NumberInside(verts: seq<Vertex>, tris: seq<Tri<nat>>, m: nat, w: Cylinder)
    requires TrisOk(tris, |verts|) && m < |tris|
  {
    assert tris[m] in tris;
    TriInside(verts, tris[m], w)
  }

  lemma PieceInside(verts: seq<Vertex>, tris: seq<Tri<nat>>, part: Part, n: nat, w: Cylinder)
    requires TrisOk(tris, |verts|) && WholeComponent(Welded(verts, tris), part) && n in part.tris
    ensures TrisOk(PieceTris(tris, part.tris), |verts|)
    ensures AllInside(verts, PieceTris(tris, part.tris), w) <==> WholeInside(verts, tris, n, w)
  {
    hide Chained, TriInside, Welded;
    var piece, weld := PieceTris(tris, part.tris), Welded(verts, tris);
    PieceTrisOk(tris, part.tris, |verts|);
    WeldedSize(verts, tris);
    forall m: nat | m < |tris| && Chained(weld, n, m) && AllInside(verts, piece, w)
      ensures NumberInside(verts, tris, m, w)
    {
      PieceTrisMean(tris, part.tris, tris[m]);
    }
    forall t | t in piece && WholeInside(verts, tris, n, w)
      ensures TriInside(verts, t, w)
    {
      PieceTrisMean(tris, part.tris, t);
      var m :| m in part.tris && m < |tris| && tris[m] == t;
      assert NumberInside(verts, tris, m, w);
    }
  }

  lemma WeldedSize(verts: seq<Vertex>, tris: seq<Tri<nat>>)
    requires TrisOk(tris, |verts|)
    ensures |Welded(verts, tris)| == |tris|
  {
  }

  // ---- paint --------------------------------------------------------------------------

  ghost predicate NonePainted(groups: seq<Group>) {
    forall g | g in groups :: !g.mat.flags.paint
  }

  // Every body triangle has the key and the vertices of a piece.
  ghost predicate FromPieces(body: seq<Group>, pieces: seq<Piece>) {
    forall g, t | g in body && t in g.tris :: HasTri(pieces, KeyOf(g.mat), t)
  }

  ghost predicate HasTri(pieces: seq<Piece>, key: MatKey, t: Tri<nat>) {
    exists p | p in pieces :: KeyOf(p.mat) == key && t in p.tris
  }

  lemma {:induction false} PutGroupUnpainted(groups: seq<Group>, mat: Material, tris: seq<Tri<nat>>)
    requires NonePainted(groups) && !mat.flags.paint
    ensures NonePainted(PutGroup(groups, mat, tris))
  {
    if groups != [] {
      PutGroupUnpainted(groups[1..], mat, tris);
    }
  }

  lemma {:induction false} PutGroupFrom(groups: seq<Group>, mat: Material, tris: seq<Tri<nat>>, g: Group, t: Tri<nat>)
    requires g in PutGroup(groups, mat, tris) && t in g.tris
    ensures (KeyOf(g.mat) == KeyOf(mat) && t in tris) || exists h | h in groups :: KeyOf(h.mat) == KeyOf(g.mat) && t in h.tris
  {
    hide KeyOf;
    if groups != [] {
      assert groups[0] in groups;
      if KeyOf(groups[0].mat) != KeyOf(mat) && g in PutGroup(groups[1..], mat, tris) {
        PutGroupFrom(groups[1..], mat, tris, g, t);
      }
    }
  }

  // Wheels are never paint; the body keeps the materials of its parts, paint included.
  lemma {:induction false} PaintStaysOnTheBody(verts: seq<Vertex>, cylinders: seq<Cylinder>, pieces: seq<Piece>)
    requires PiecesOk(pieces, |verts|)
    ensures var c := PlacedAll(verts, cylinders, pieces);
            FromPieces(c.body, pieces) && forall i | 0 <= i < |c.wheels| :: NonePainted(c.wheels[i].groups)
  {
    hide KeyOf, NonePainted, TrisOk, Owner, PutGroup, Pick;
    if pieces != [] {
      var front, last := pieces[..|pieces| - 1], pieces[|pieces| - 1];
      assert last in pieces && pieces == front + [last];
      PaintStaysOnTheBody(verts, cylinders, front);
      var b, c := PlacedAll(verts, cylinders, front), PlacedAll(verts, cylinders, pieces);
      forall g, t | g in c.body && t in g.tris
        ensures HasTri(pieces, KeyOf(g.mat), t)
      {
        if c.body == b.body {
          assert HasTri(front, KeyOf(g.mat), t);
        } else {
          PutGroupFrom(b.body, last.mat, last.tris, g, t);
          if !(KeyOf(g.mat) == KeyOf(last.mat) && t in last.tris) {
            var h :| h in b.body && KeyOf(h.mat) == KeyOf(g.mat) && t in h.tris;
            assert HasTri(front, KeyOf(h.mat), t);
          }
        }
      }
      forall i | 0 <= i < |c.wheels|
        ensures NonePainted(c.wheels[i].groups)
      {
        PutGroupUnpaintedHere(b.wheels[i].groups, last.mat, RemapTris(IndicesOf(last.tris), |b.wheels[i].verts|, last.tris));
      }
    } else {
      NothingPainted();
    }
  }

  lemma NothingPainted()
    ensures NonePainted([])
  {
  }

  lemma PutGroupUnpaintedHere(groups: seq<Group>, mat: Material, tris: seq<Tri<nat>>)
    requires NonePainted(groups)
    ensures NonePainted(PutGroup(groups, Unpainted(mat), tris))
  {
    PutGroupUnpainted(groups, Unpainted(mat), tris);
  }

  // ---- one group a material -----------------------------------------------------------

  ghost predicate OneGroupEach(groups: seq<Group>) {
    forall i, j | 0 <= i < j < |groups| :: KeyOf(groups[i].mat) != KeyOf(groups[j].mat)
  }

  ghost predicate Keyed(groups: seq<Group>, key: MatKey) {
    exists i :: 0 <= i < |groups| && KeyOf(groups[i].mat) == key
  }

  lemma {:induction false} PutGroupOneEach(groups: seq<Group>, mat: Material, tris: seq<Tri<nat>>)
    requires OneGroupEach(groups)
    ensures OneGroupEach(PutGroup(groups, mat, tris))
  {
    hide KeyOf, PutGroup;
    PutGroupIs(groups, mat, tris);
    var more := PutGroup(groups, mat, tris);
    forall i, j | 0 <= i < j < |more|
      ensures KeyOf(more[i].mat) != KeyOf(more[j].mat)
    {
      if j < |groups| {
        assert KeyOf(groups[i].mat) != KeyOf(groups[j].mat);
      } else {
        assert !Keyed(groups, KeyOf(mat)) && more[i] == groups[i];
      }
    }
  }

  lemma {:induction false} PutGroupIs(groups: seq<Group>, mat: Material, tris: seq<Tri<nat>>)
    requires OneGroupEach(groups)
    ensures var more := PutGroup(groups, mat, tris);
            if Keyed(groups, KeyOf(mat)) then |more| == |groups| && forall i | 0 <= i < |groups| :: more[i].mat == groups[i].mat
            else more == groups + [Group(mat, tris)]
  {
    hide KeyOf;
    if groups != [] && KeyOf(groups[0].mat) != KeyOf(mat) {
      PutGroupIs(groups[1..], mat, tris);
      TailKeyed(groups, KeyOf(mat));
    }
  }

  lemma TailKeyed(groups: seq<Group>, key: MatKey)
    requires groups != [] && KeyOf(groups[0].mat) != key
    ensures Keyed(groups[1..], key) <==> Keyed(groups, key)
  {
    hide KeyOf;
    if Keyed(groups, key) {
      var i :| 0 <= i < |groups| && KeyOf(groups[i].mat) == key;
      assert groups[1..][i - 1] == groups[i];
    }
  }

  // The split gathers materials: the body and each wheel have one group a material.
  lemma {:induction false} SplitGathers(verts: seq<Vertex>, cylinders: seq<Cylinder>, pieces: seq<Piece>)
    requires PiecesOk(pieces, |verts|)
    ensures var c := PlacedAll(verts, cylinders, pieces);
            OneGroupEach(c.body) && forall i | 0 <= i < |c.wheels| :: OneGroupEach(c.wheels[i].groups)
  {
    hide KeyOf, OneGroupEach, TrisOk, Owner, PutGroup, Pick;
    if pieces == [] {
      NoGroups();
    } else {
      var front, last := pieces[..|pieces| - 1], pieces[|pieces| - 1];
      assert last in pieces && pieces == front + [last];
      SplitGathers(verts, cylinders, front);
      var b := PlacedAll(verts, cylinders, front);
      PutGroupOneEach(b.body, last.mat, last.tris);
      forall i | 0 <= i < |b.wheels|
        ensures OneGroupEach(PlacedAll(verts, cylinders, pieces).wheels[i].groups)
      {
        PutGroupOneEach(b.wheels[i].groups, Unpainted(last.mat), RemapTris(IndicesOf(last.tris), |b.wheels[i].verts|, last.tris));
      }
    }
  }

  lemma NoGroups()
    ensures OneGroupEach([])
  {
  }

  // ---- the procedure ------------------------------------------------------------------

  method Put(groups: seq<Group>, mat: Material, tris: seq<Tri<nat>>) returns (r: seq<Group>)
    ensures r == PutGroup(groups, mat, tris)
  {
    hide KeyOf, PutGroup;
    assert groups[..0] + PutGroup(groups[0..], mat, tris) == PutGroup(groups, mat, tris) by {
      assert groups[0..] == groups;
    }
    for i := 0 to |groups|
      invariant PutGroup(groups, mat, tris) == groups[..i] + PutGroup(groups[i..], mat, tris)
    {
      PutNext(groups, i, mat, tris);
      if KeyOf(groups[i].mat) == KeyOf(mat) {
        return groups[i := groups[i].(tris := groups[i].tris + tris)];
      }
    }
    PutLast(groups[|groups|..], mat, tris);
    return groups + [Group(mat, tris)];
  }

  lemma PutNext(groups: seq<Group>, i: nat, mat: Material, tris: seq<Tri<nat>>)
    requires i < |groups|
    ensures groups[..i] + PutGroup(groups[i..], mat, tris) ==
              if KeyOf(groups[i].mat) == KeyOf(mat) then groups[i := groups[i].(tris := groups[i].tris + tris)]
              else groups[..i + 1] + PutGroup(groups[i + 1..], mat, tris)
  {
    hide KeyOf;
    assert groups[i..][1..] == groups[i + 1..];
  }

  lemma PutLast(groups: seq<Group>, mat: Material, tris: seq<Tri<nat>>)
    requires groups == []
    ensures PutGroup(groups, mat, tris) == [Group(mat, tris)]
  {
  }

  method FindOwner(verts: seq<Vertex>, cylinders: seq<Cylinder>, tris: seq<Tri<nat>>) returns (w: nat)
    requires TrisOk(tris, |verts|)
    ensures w == Owner(verts, cylinders, tris, 0)
  {
    hide AllInside;
    w := 0;
    while w < |cylinders|
      invariant w <= |cylinders| && Owner(verts, cylinders, tris, w) == Owner(verts, cylinders, tris, 0)
    {
      var inside := Inside(verts, tris, cylinders[w]);
      if inside {
        return;
      }
      w := w + 1;
    }
  }

  method Inside(verts: seq<Vertex>, tris: seq<Tri<nat>>, w: Cylinder) returns (inside: bool)
    requires TrisOk(tris, |verts|)
    ensures inside == AllInside(verts, tris, w)
  {
    hide TriInside;
    for i := 0 to |tris|
      invariant forall k | 0 <= k < i :: tris[k] in tris && TriInside(verts, tris[k], w)
    {
      assert tris[i] in tris;
      if !TriInside(verts, tris[i], w) {
        return false;
      }
    }
    return true;
  }

  // The connected parts of every material group, in order.
  method FindPieces(model: Model) returns (pieces: seq<Piece>)
    requires MeshOk(model.Contents())
    ensures pieces == AllPieces(model.verts, model.groups)
  {
    hide Parts, Welded, PiecesFrom, TrisOk;
    pieces := [];
    var groups := model.groups;
    for i := 0 to |groups|
      invariant GroupsOk(groups[..i], |model.verts|) && pieces == AllPieces(model.verts, groups[..i])
    {
      GroupAt(groups, |model.verts|, i);
      var parts := Components(Welded(model.verts, groups[i].tris));
      pieces := pieces + PiecesFrom(groups[i].mat, groups[i].tris, parts);
      assert groups[..i + 1][..i] == groups[..i];
    }
    assert groups[..|groups|] == groups;
  }

  method AddPiece(wheel: Model, verts: seq<Vertex>, mat: Material, tris: seq<Tri<nat>>)
    requires TrisOk(tris, |verts|)
    modifies wheel
    ensures wheel.Contents() == AddToWheel(old(wheel.Contents()), verts, mat, tris)
  {
    var used, base := IndicesOf(tris), |wheel.verts|;
    wheel.verts := wheel.verts + Pick(verts, used);
    wheel.groups := Put(wheel.groups, mat, RemapTris(used, base, tris));
  }

  method SplitBakedWheels(model: Model, cylinders: seq<Cylinder>) returns (body: Model, wheels: seq<Model>)
    requires MeshOk(model.Contents())
    ensures fresh(body) && |wheels| == |cylinders| && forall i | 0 <= i < |wheels| :: fresh(wheels[i])
    ensures body.Contents() == Mesh(model.verts, Split(model.Contents(), cylinders).body)
    ensures forall i | 0 <= i < |wheels| :: wheels[i].Contents() == Split(model.Contents(), cylinders).wheels[i]
  {
    hide AllPieces, Placed, TrisOk, PutGroup, AddToWheel;
    AllPiecesOk(model.verts, model.groups);
    var pieces := FindPieces(model);
    var verts := model.verts;
    body := new Model();
    body.verts := verts;
    wheels := [];
    for i := 0 to |cylinders|
      invariant fresh(body) && body.Contents() == Mesh(verts, []) && |wheels| == i
      invariant forall j | 0 <= j < i :: fresh(wheels[j]) && wheels[j] != body && wheels[j].Contents() == Mesh([], [])
      invariant forall j, k | 0 <= j < k < i :: wheels[j] != wheels[k]
    {
      var wheel := new Model();
      wheels := wheels + [wheel];
    }
    for i := 0 to |pieces|
      invariant PiecesOk(pieces[..i], |verts|)
      invariant fresh(body) && body.Contents() == Mesh(verts, PlacedAll(verts, cylinders, pieces[..i]).body)
      invariant forall j | 0 <= j < |wheels| :: fresh(wheels[j]) && wheels[j] != body
      invariant forall j | 0 <= j < |wheels| :: wheels[j].Contents() == PlacedAll(verts, cylinders, pieces[..i]).wheels[j]
    {
      assert pieces[i] in pieces && pieces[..i + 1][..i] == pieces[..i];
      Place(verts, cylinders, pieces[i], body, wheels, PlacedAll(verts, cylinders, pieces[..i]));
    }
    assert pieces[..|pieces|] == pieces;
  }

  method Place(verts: seq<Vertex>, cylinders: seq<Cylinder>, piece: Piece, body: Model, wheels: seq<Model>, ghost c: Cut)
    requires TrisOk(piece.tris, |verts|) && |wheels| == |cylinders| == |c.wheels| && body.Contents() == Mesh(verts, c.body)
    requires forall j | 0 <= j < |wheels| :: wheels[j] != body && wheels[j].Contents() == c.wheels[j]
    requires forall j, k | 0 <= j < k < |wheels| :: wheels[j] != wheels[k]
    modifies body, wheels
    ensures body.Contents() == Mesh(verts, Placed(verts, cylinders, c, piece).body)
    ensures forall j | 0 <= j < |wheels| :: wheels[j].Contents() == Placed(verts, cylinders, c, piece).wheels[j]
  {
    hide TrisOk, PutGroup, AddToWheel, Owner;
    var w := FindOwner(verts, cylinders, piece.tris);
    if w == |cylinders| {
      body.groups := Put(body.groups, piece.mat, piece.tris);
    } else {
      AddPiece(wheels[w], verts, Unpainted(piece.mat), piece.tris);
    }
  }
}
