/** Where every triangle of a car ends up: parts move whole, to the first wheel that holds them. */
module PartsHome {
  import opened CarWheels
  import opened MeshParts
  import opened Meshes
  import opened UnionFind
  import opened WheelSplit

  // The first wheel from i on whose cylinder holds everything a chain connects to triangle
  // n; their number, meaning the body, if none does.
  ghost function Home(verts: seq<Vertex>, cylinders: seq<Cylinder>, tris: seq<Tri<nat>>, n: nat, i: nat): (w: nat)
    requires TrisOk(tris, |verts|) && i <= |cylinders|
    ensures i <= w <= |cylinders|
    decreases |cylinders| - i
  {
    if i == |cylinders| || WholeInside(verts, tris, n, cylinders[i]) then i else Home(verts, cylinders, tris, n, i + 1)
  }

  // The faces of the first count triangles of a group whose home is w.
  ghost function FacesAt(verts: seq<Vertex>, cylinders: seq<Cylinder>, g: Group, w: nat, count: nat): multiset<Face>
    requires TrisOk(g.tris, |verts|) && count <= |g.tris|
  {
    if count == 0 then multiset{}
    else
      OneTriOk(g.tris, count - 1, |verts|);
      FacesAt(verts, cylinders, g, w, count - 1) +
        (if Home(verts, cylinders, g.tris, count - 1, 0) == w then TrisBag(verts, g.mat, [g.tris[count - 1]]) else multiset{})
  }

  ghost function AllFacesAt(verts: seq<Vertex>, cylinders: seq<Cylinder>, groups: seq<Group>, w: nat): multiset<Face>
    requires GroupsOk(groups, |verts|)
  {
    if groups == [] then multiset{}
    else
      var front, last := groups[..|groups| - 1], groups[|groups| - 1];
      LastOk(groups, |verts|);
      AllFacesAt(verts, cylinders, front, w) + FacesAt(verts, cylinders, last, w, |last.tris|)
  }

  // ---- a piece's owner is its triangles' home ---------------------------------------

  lemma {:induction false} OwnerIsHome(verts: seq<Vertex>, cylinders: seq<Cylinder>, tris: seq<Tri<nat>>, part: Part, n: nat, i: nat)
    requires TrisOk(tris, |verts|) && WholeComponent(Welded(verts, tris), part) && n in part.tris && i <= |cylinders|
    ensures TrisOk(PieceTris(tris, part.tris), |verts|)
    ensures Owner(verts, cylinders, PieceTris(tris, part.tris), i) == Home(verts, cylinders, tris, n, i)
    decreases |cylinders| - i
  {
    hide TrisOk, AllInside, WholeInside, WholeComponent, Welded;
    PieceTrisOk(tris, part.tris, |verts|);
    if i < |cylinders| {
      PieceInside(verts, tris, part, n, cylinders[i]);
      OwnerIsHome(verts, cylinders, tris, part, n, i + 1);
    }
  }

  // ---- the faces of some of the parts -------------------------------------------------

  // The faces of the parts whose roots are in good.
  ghost function PartsIn(verts: seq<Vertex>, mat: Material, tris: seq<Tri<nat>>, parts: seq<Part>, good: set<Key>): multiset<Face>
    requires TrisOk(tris, |verts|)
  {
    if parts == [] then multiset{}
    else
      PieceTrisOk(tris, parts[0].tris, |verts|);
      (if parts[0].root in good then TrisBag(verts, mat, PieceTris(tris, parts[0].tris)) else multiset{})
        + PartsIn(verts, mat, tris, parts[1..], good)
  }

  // The faces of the triangles whose labels are.
  ghost function LabelledIn(verts: seq<Vertex>, mat: Material, tris: seq<Tri<nat>>, labels: seq<Key>, good: set<Key>): multiset<Face>
    requires TrisOk(tris, |verts|) && |labels| <= |tris|
  {
    if labels == [] then multiset{}
    else
      var n := |labels| - 1;
      OneTriOk(tris, n, |verts|);
      LabelledIn(verts, mat, tris, labels[..n], good) + (if labels[n] in good then TrisBag(verts, mat, [tris[n]]) else multiset{})
  }

  lemma {:induction false} ExtendedIn(verts: seq<Vertex>, mat: Material, tris: seq<Tri<nat>>, parts: seq<Part>, root: Key, n: nat, good: set<Key>)
    requires TrisOk(tris, |verts|) && n < |tris|
    ensures TrisOk([tris[n]], |verts|)
    ensures PartsIn(verts, mat, tris, Extended(parts, root, n), good)
              == PartsIn(verts, mat, tris, parts, good) + (if root in good then TrisBag(verts, mat, [tris[n]]) else multiset{})
  {
    hide TrisOk, PieceTris, TrisBag;
    OneTriOk(tris, n, |verts|);
    var more := Extended(parts, root, n);
    if parts == [] {
      PieceGrows(verts, mat, tris, [], n);
      NoParts(verts, mat, tris);
      assert [] + [n] == [n] && more[1..] == [];
    } else if parts[0].root == root {
      PieceGrows(verts, mat, tris, parts[0].tris, n);
      assert more[1..] == parts[1..];
    } else {
      ExtendedIn(verts, mat, tris, parts[1..], root, n, good);
      assert more[1..] == Extended(parts[1..], root, n);
    }
  }

  lemma {:induction false} GroupedIn(verts: seq<Vertex>, mat: Material, tris: seq<Tri<nat>>, labels: seq<Key>, good: set<Key>)
    requires TrisOk(tris, |verts|) && |labels| <= |tris|
    ensures PartsIn(verts, mat, tris, Grouped(labels), good) == LabelledIn(verts, mat, tris, labels, good)
  {
    hide TrisOk, TrisBag, Extended;
    if labels != [] {
      var n := |labels| - 1;
      GroupedIn(verts, mat, tris, labels[..n], good);
      ExtendedIn(verts, mat, tris, Grouped(labels[..n]), labels[n], n, good);
    }
  }

  // The faces of the pieces that go to w.
  ghost function PiecesAt(verts: seq<Vertex>, cylinders: seq<Cylinder>, pieces: seq<Piece>, w: nat): multiset<Face>
    requires PiecesOk(pieces, |verts|)
  {
    if pieces == [] then multiset{}
    else
      assert pieces[0] in pieces;
      (if Owner(verts, cylinders, pieces[0].tris, 0) == w then TrisBag(verts, pieces[0].mat, pieces[0].tris) else multiset{})
        + PiecesAt(verts, cylinders, pieces[1..], w)
  }

  lemma {:induction false} PiecesAtJoins(verts: seq<Vertex>, cylinders: seq<Cylinder>, a: seq<Piece>, b: seq<Piece>, w: nat)
    requires PiecesOk(a, |verts|) && PiecesOk(b, |verts|)
    ensures PiecesOk(a + b, |verts|)
    ensures PiecesAt(verts, cylinders, a + b, w) == PiecesAt(verts, cylinders, a, w) + PiecesAt(verts, cylinders, b, w)
  {
    hide TrisOk, TrisBag, Owner, PiecesOk;
    if a == [] {
      assert a + b == b;
      NoneAt(verts, cylinders, w);
    } else {
      RestOk(a, |verts|);
      PiecesAtJoins(verts, cylinders, a[1..], b, w);
      BothOk(a, b, |verts|);
      assert (a + b)[0] == a[0] && (a + b)[1..] == a[1..] + b;
    }
  }

  lemma RestOk(a: seq<Piece>, n: nat)
    requires PiecesOk(a, n) && a != []
    ensures TrisOk(a[0].tris, n) && PiecesOk(a[1..], n)
  {
    hide TrisOk;
    assert a[0] in a;
  }

  lemma BothOk(a: seq<Piece>, b: seq<Piece>, n: nat)
    requires PiecesOk(a, n) && PiecesOk(b, n)
    ensures PiecesOk(a + b, n)
  {
    hide TrisOk;
  }

  // Which roots belong to w.
  ghost function RootsAt(verts: seq<Vertex>, cylinders: seq<Cylinder>, tris: seq<Tri<nat>>, parts: seq<Part>, w: nat): set<Key>
    requires TrisOk(tris, |verts|)
  {
    set i | 0 <= i < |parts| && OwnedBy(verts, cylinders, tris, parts[i], w) :: parts[i].root
  }

  ghost predicate OwnedBy(verts: seq<Vertex>, cylinders: seq<Cylinder>, tris: seq<Tri<nat>>, part: Part, w: nat)
    requires TrisOk(tris, |verts|)
  {
    PieceTrisOk(tris, part.tris, |verts|);
    Owner(verts, cylinders, PieceTris(tris, part.tris), 0) == w
  }

  lemma {:induction false} PartsPlaced(verts: seq<Vertex>, cylinders: seq<Cylinder>, mat: Material, tris: seq<Tri<nat>>, parts: seq<Part>, w: nat, good: set<Key>)
    requires TrisOk(tris, |verts|)
    requires forall i | 0 <= i < |parts| :: parts[i].root in good <==> OwnedBy(verts, cylinders, tris, parts[i], w)
    ensures PiecesOk(PiecesFrom(mat, tris, parts), |verts|)
    ensures PiecesAt(verts, cylinders, PiecesFrom(mat, tris, parts), w) == PartsIn(verts, mat, tris, parts, good)
  {
    hide TrisOk, TrisBag, Owner, PieceTris;
    PiecesFromOk(verts, mat, tris, parts);
    if parts != [] {
      PieceTrisOk(tris, parts[0].tris, |verts|);
      PartsPlaced(verts, cylinders, mat, tris, parts[1..], w, good);
      assert PiecesFrom(mat, tris, parts)[1..] == PiecesFrom(mat, tris, parts[1..]);
      assert OwnedBy(verts, cylinders, tris, parts[0], w) <==> Owner(verts, cylinders, PiecesFrom(mat, tris, parts)[0].tris, 0) == w;
    }
  }

  lemma {:induction false} LabelsAtHome(verts: seq<Vertex>, cylinders: seq<Cylinder>, g: Group, labels: seq<Key>, w: nat, good: set<Key>)
    requires TrisOk(g.tris, |verts|) && |labels| <= |g.tris|
    requires forall n | 0 <= n < |labels| :: labels[n] in good <==> Home(verts, cylinders, g.tris, n, 0) == w
    ensures LabelledIn(verts, g.mat, g.tris, labels, good) == FacesAt(verts, cylinders, g, w, |labels|)
  {
    hide TrisOk, TrisBag, Home;
    if labels != [] {
      LabelsAtHome(verts, cylinders, g, labels[..|labels| - 1], w, good);
    }
  }

  // A triangle's label says where its part goes.
  lemma LabelOwned(verts: seq<Vertex>, cylinders: seq<Cylinder>, tris: seq<Tri<nat>>, labels: seq<Key>, parts: seq<Part>, n: nat, w: nat)
    requires TrisOk(tris, |verts|) && GroupsLabels(labels, parts) && n < |labels|
    requires forall i | 0 <= i < |parts| :: WholeComponent(Welded(verts, tris), parts[i])
    ensures labels[n] in RootsAt(verts, cylinders, tris, parts, w) <==> Home(verts, cylinders, tris, n, 0) == w
  {
    hide TrisOk, WholeComponent, Welded, Owner, Home;
    assert Has(parts, labels[n]);
    var i :| 0 <= i < |parts| && parts[i].root == labels[n];
    assert HoldsLabel(labels, parts[i]) && n in parts[i].tris;
    OwnerIsHome(verts, cylinders, tris, parts[i], n, 0);
    RootAt(verts, cylinders, tris, parts, i, w);
  }

  lemma RootAt(verts: seq<Vertex>, cylinders: seq<Cylinder>, tris: seq<Tri<nat>>, parts: seq<Part>, i: nat, w: nat)
    requires TrisOk(tris, |verts|) && i < |parts|
    requires forall j, k | 0 <= j < k < |parts| :: parts[j].root != parts[k].root
    ensures parts[i].root in RootsAt(verts, cylinders, tris, parts, w) <==> OwnedBy(verts, cylinders, tris, parts[i], w)
  {
    hide TrisOk, OwnedBy;
  }

  lemma GroupAtHome(verts: seq<Vertex>, cylinders: seq<Cylinder>, g: Group, w: nat)
    requires TrisOk(g.tris, |verts|)
    ensures PiecesOk(GroupPieces(verts, g), |verts|)
    ensures PiecesAt(verts, cylinders, GroupPieces(verts, g), w) == FacesAt(verts, cylinders, g, w, |g.tris|)
  {
    hide TrisOk, TrisBag, Home, OwnedBy, PiecesAt, PartsIn, LabelledIn, FacesAt, Grouped, Roots, Welded, RootsAt, WholeComponent, PiecesFrom, HoldsLabel;
    var weld := Welded(verts, g.tris);
    WeldedSize(verts, g.tris);
    RootsKnown(weld);
    PartsAreComponents(weld);
    var labels, parts := Labels(weld, Roots(weld)), Parts(weld);
    GroupedOk(labels);
    var good := RootsAt(verts, cylinders, g.tris, parts, w);
    forall i | 0 <= i < |parts|
      ensures parts[i].root in good <==> OwnedBy(verts, cylinders, g.tris, parts[i], w)
    {
      RootAt(verts, cylinders, g.tris, parts, i, w);
    }
    forall n | 0 <= n < |labels|
      ensures labels[n] in good <==> Home(verts, cylinders, g.tris, n, 0) == w
    {
      LabelOwned(verts, cylinders, g.tris, labels, parts, n, w);
    }
    PartsPlaced(verts, cylinders, g.mat, g.tris, parts, w, good);
    GroupedIn(verts, g.mat, g.tris, labels, good);
    LabelsAtHome(verts, cylinders, g, labels, w, good);
  }

  lemma {:induction false} AllAtHome(verts: seq<Vertex>, cylinders: seq<Cylinder>, groups: seq<Group>, w: nat)
    requires GroupsOk(groups, |verts|)
    ensures PiecesOk(AllPieces(verts, groups), |verts|)
    ensures PiecesAt(verts, cylinders, AllPieces(verts, groups), w) == AllFacesAt(verts, cylinders, groups, w)
  {
    hide TrisOk, GroupsOk, PiecesAt, FacesAt, GroupPieces, PiecesOk;
    if groups == [] {
      NoPieces(verts);
      NoneAt(verts, cylinders, w);
    } else {
      var front, last := groups[..|groups| - 1], groups[|groups| - 1];
      LastOk(groups, |verts|);
      AllAtHome(verts, cylinders, front, w);
      GroupAtHome(verts, cylinders, last, w);
      PiecesAtJoins(verts, cylinders, AllPieces(verts, front), GroupPieces(verts, last), w);
    }
  }

  lemma NoneAt(verts: seq<Vertex>, cylinders: seq<Cylinder>, w: nat)
    ensures PiecesOk([], |verts|) && PiecesAt(verts, cylinders, [], w) == multiset{}
  {
  }

  // ---- placing ----------------------------------------------------------------------

  // The faces of wheel w, or of the body.
  ghost function MeshBag(verts: seq<Vertex>, c: Cut, w: nat): multiset<Face>
    requires CutOk(verts, c) && w <= |c.wheels|
  {
    if w == |c.wheels| then Bag(GroupFaces(verts, c.body))
    else
      WheelAt(c.wheels, w);
      Bag(Faces(c.wheels[w]))
  }

  lemma PlacedAt(verts: seq<Vertex>, cylinders: seq<Cylinder>, c: Cut, p: Piece, w: nat)
    requires TrisOk(p.tris, |verts|) && |c.wheels| == |cylinders| && CutOk(verts, c) && w <= |cylinders|
    ensures var d := Placed(verts, cylinders, c, p);
            CutOk(verts, d) && MeshBag(verts, d, w) == MeshBag(verts, c, w)
              + (if Owner(verts, cylinders, p.tris, 0) == w then TrisBag(verts, p.mat, p.tris) else multiset{})
  {
    hide TrisOk, GroupsOk, TriFaces, KeyOf, Bag, GroupFaces, AddToWheel, PutGroup, Owner, Unpainted, WheelsOk, MeshOk, Faces;
    PlacedKeeps(verts, cylinders, c, p);
    var v := Owner(verts, cylinders, p.tris, 0);
    if v == |cylinders| {
      PutGroupBag(verts, c.body, p.mat, p.tris);
    } else {
      WheelAt(c.wheels, v);
      AddToWheelBag(c.wheels[v], verts, Unpainted(p.mat), p.tris);
      BagPlain(verts, p.mat, p.tris);
    }
  }

  lemma {:induction false} PlacedAllAt(verts: seq<Vertex>, cylinders: seq<Cylinder>, pieces: seq<Piece>, w: nat)
    requires PiecesOk(pieces, |verts|) && w <= |cylinders|
    ensures var c := PlacedAll(verts, cylinders, pieces);
            CutOk(verts, c) && MeshBag(verts, c, w) == PiecesAt(verts, cylinders, pieces, w)
  {
    hide TrisOk, TrisBag, Owner, Placed, CutOk, MeshBag, PiecesOk;
    if pieces == [] {
      NothingPlacedAt(verts, cylinders, w);
    } else {
      var front, last := pieces[..|pieces| - 1], pieces[|pieces| - 1];
      LastPiece(verts, pieces);
      PlacedAllAt(verts, cylinders, front, w);
      PlacedAt(verts, cylinders, PlacedAll(verts, cylinders, front), last, w);
      PiecesAtJoins(verts, cylinders, front, [last], w);
      OnePieceAt(verts, cylinders, last, w);
      assert pieces == front + [last];
    }
  }

  lemma NothingPlacedAt(verts: seq<Vertex>, cylinders: seq<Cylinder>, w: nat)
    requires w <= |cylinders|
    ensures var c := PlacedAll(verts, cylinders, []);
            CutOk(verts, c) && MeshBag(verts, c, w) == multiset{} == PiecesAt(verts, cylinders, [], w)
  {
  }

  lemma LastPiece(verts: seq<Vertex>, pieces: seq<Piece>)
    requires PiecesOk(pieces, |verts|) && pieces != []
    ensures PiecesOk(pieces[..|pieces| - 1], |verts|) && PiecesOk([pieces[|pieces| - 1]], |verts|) && TrisOk(pieces[|pieces| - 1].tris, |verts|)
  {
    hide TrisOk;
    assert pieces[|pieces| - 1] in pieces;
  }

  lemma OnePieceAt(verts: seq<Vertex>, cylinders: seq<Cylinder>, p: Piece, w: nat)
    requires PiecesOk([p], |verts|) && TrisOk(p.tris, |verts|)
    ensures PiecesAt(verts, cylinders, [p], w)
              == if Owner(verts, cylinders, p.tris, 0) == w then TrisBag(verts, p.mat, p.tris) else multiset{}
  {
    hide TrisOk, TrisBag, Owner;
    assert [p][1..] == [];
  }

  // Every part moves whole: a wheel of the split shows exactly the faces of the triangles
  // whose whole connected part its cylinder is the first to hold, and the body shows exactly
  // those that no cylinder holds.
  lemma PartsMoveWhole(m: Mesh, cylinders: seq<Cylinder>, w: nat)
    requires MeshOk(m) && w <= |cylinders|
    ensures var c := Split(m, cylinders);
            && |c.wheels| == |cylinders| && CutOk(m.verts, c)
            && MeshBag(m.verts, c, w) == AllFacesAt(m.verts, cylinders, m.groups, w)
  {
    hide GroupsOk, CutOk, MeshBag, AllPieces, AllFacesAt, PiecesAt, PlacedAll, PiecesOk;
    AllAtHome(m.verts, cylinders, m.groups, w);
    PlacedAllAt(m.verts, cylinders, AllPieces(m.verts, m.groups), w);
  }
}
