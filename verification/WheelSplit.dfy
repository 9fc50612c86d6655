/** Cutting the wheels out of a car: connected parts inside a wheel's cylinder move to it. */
module WheelSplit {
  import opened MeshFiles
  import opened MeshParts
  import opened Meshes
  import opened UnionFind
  import opened Vectors

  // Where a wheel is: its centre, axle, radius and half width.
  datatype Cylinder = Cylinder(centre: Vec3, axle: Vec3, radius: real, halfWidth: real)

  function Dot(a: Vec3, b: Vec3): real {
    a.x * b.x + a.y * b.y + a.z * b.z
  }

  predicate InCylinder(w: Cylinder, p: Vec3) {
    var d := Minus(p, w.centre);
    var along := Dot(d, w.axle);
    && -(w.halfWidth + 0.02) <= along <= w.halfWidth + 0.02
    && Dot(d, d) - along * along <= (w.radius + 0.02) * (w.radius + 0.02)
  }

  // About an axle of length one: along it within the width, and across it within the
  // radius, each with two centimetres to spare.
  lemma CylinderMeans(w: Cylinder, p: Vec3, along: real, across: Vec3)
    requires Dot(w.axle, w.axle) == 1.0 && w.radius >= 0.0 && w.halfWidth >= 0.0
    requires Minus(p, w.centre) == Plus(Times(w.axle, along), across) && Dot(across, w.axle) == 0.0
    ensures InCylinder(w, p) <==> -(w.halfWidth + 0.02) <= along <= w.halfWidth + 0.02 && Dot(across, across) <= (w.radius + 0.02) * (w.radius + 0.02)
  {
    DotsAdd(w.axle, along, across);
  }

  lemma DotsAdd(a: Vec3, k: real, b: Vec3)
    requires Dot(a, a) == 1.0 && Dot(b, a) == 0.0
    ensures var d := Plus(Times(a, k), b); Dot(d, a) == k && Dot(d, d) == k * k + Dot(b, b)
  {
    var d := Plus(Times(a, k), b);
    assert Dot(d, a) == k * Dot(a, a) + Dot(b, a);
    assert Dot(d, d) == k * k * Dot(a, a) + 2.0 * k * Dot(b, a) + Dot(b, b);
  }

  predicate TriInside(verts: seq<Vertex>, t: Tri<nat>, w: Cylinder)
    requires TriOk(t, |verts|)
  {
    InCylinder(w, verts[t.a].pos) && InCylinder(w, verts[t.b].pos) && InCylinder(w, verts[t.c].pos)
  }

  predicate AllInside(verts: seq<Vertex>, tris: seq<Tri<nat>>, w: Cylinder)
    requires TrisOk(tris, |verts|)
  {
    forall t | t in tris :: TriInside(verts, t, w)
  }

  // The first of the wheels from i on that holds all of the triangles; their number if none does.
  function Owner(verts: seq<Vertex>, cylinders: seq<Cylinder>, tris: seq<Tri<nat>>, i: nat): (w: nat)
    requires TrisOk(tris, |verts|) && i <= |cylinders|
    ensures i <= w <= |cylinders|
    decreases |cylinders| - i
  {
    if i == |cylinders| || AllInside(verts, tris, cylinders[i]) then i else Owner(verts, cylinders, tris, i + 1)
  }

  // ---- parts ------------------------------------------------------------------

  // A connected part of one material group.
  datatype Piece = Piece(mat: Material, tris: seq<Tri<nat>>)

  ghost predicate PiecesOk(pieces: seq<Piece>, n: nat) {
    forall p | p in pieces :: TrisOk(p.tris, n)
  }

  // Triangles by the rounded positions of their vertices.
  function Welded(verts: seq<Vertex>, tris: seq<Tri<nat>>): seq<Tri<Key>>
    requires TrisOk(tris, |verts|)
  {
    seq(|tris|, i requires 0 <= i < |tris| => assert tris[i] in tris; WeldTri(verts, tris[i]))
  }

  function WeldTri(verts: seq<Vertex>, t: Tri<nat>): Tri<Key>
    requires TriOk(t, |verts|)
  {
    Tri(Weld(verts[t.a].pos), Weld(verts[t.b].pos), Weld(verts[t.c].pos))
  }

  // The numbered triangles, numbers out of range aside.
  function PieceTris(tris: seq<Tri<nat>>, numbers: seq<nat>): seq<Tri<nat>> {
    if numbers == [] then []
    else
      var n := numbers[|numbers| - 1];
      PieceTris(tris, numbers[..|numbers| - 1]) + (if n < |tris| then [tris[n]] else [])
  }

  function PiecesFrom(mat: Material, tris: seq<Tri<nat>>, parts: seq<Part>): seq<Piece> {
    seq(|parts|, i requires 0 <= i < |parts| => Piece(mat, PieceTris(tris, parts[i].tris)))
  }

  function GroupPieces(verts: seq<Vertex>, g: Group): seq<Piece>
    requires TrisOk(g.tris, |verts|)
  {
    PiecesFrom(g.mat, g.tris, Parts(Welded(verts, g.tris)))
  }

  function AllPieces(verts: seq<Vertex>, groups: seq<Group>): seq<Piece>
    requires GroupsOk(groups, |verts|)
  {
    if groups == [] then []
    else
      var front, last := groups[..|groups| - 1], groups[|groups| - 1];
      LastOk(groups, |verts|);
      AllPieces(verts, front) + GroupPieces(verts, last)
  }

  lemma LastOk(groups: seq<Group>, n: nat)
    requires GroupsOk(groups, n) && groups != []
    ensures GroupsOk(groups[..|groups| - 1], n) && TrisOk(groups[|groups| - 1].tris, n)
  {
    assert groups[|groups| - 1] in groups;
  }

  // ---- placing ------------------------------------------------------------------

  // Add triangles to the group of a material's key, a new one if there is none.
  function PutGroup(groups: seq<Group>, mat: Material, tris: seq<Tri<nat>>): seq<Group> {
    if groups == [] then [Group(mat, tris)]
    else if KeyOf(groups[0].mat) == KeyOf(mat) then [groups[0].(tris := groups[0].tris + tris)] + groups[1..]
    else [groups[0]] + PutGroup(groups[1..], mat, tris)
  }

  function Unpainted(m: Material): Material {
    m.(flags := m.flags.(paint := false))
  }

  function AddToWheel(wheel: Mesh, verts: seq<Vertex>, mat: Material, tris: seq<Tri<nat>>): Mesh {
    var used := IndicesOf(tris);
    Mesh(wheel.verts + Pick(verts, used), PutGroup(wheel.groups, mat, RemapTris(used, |wheel.verts|, tris)))
  }

  // The body's groups, over the car's own vertices, and the wheels.
  datatype Cut = Cut(body: seq<Group>, wheels: seq<Mesh>)

  function Placed(verts: seq<Vertex>, cylinders: seq<Cylinder>, c: Cut, p: Piece): Cut
    requires TrisOk(p.tris, |verts|) && |c.wheels| == |cylinders|
  {
    var w := Owner(verts, cylinders, p.tris, 0);
    if w == |cylinders| then c.(body := PutGroup(c.body, p.mat, p.tris))
    else c.(wheels := c.wheels[w := AddToWheel(c.wheels[w], verts, Unpainted(p.mat), p.tris)])
  }

  function PlacedAll(verts: seq<Vertex>, cylinders: seq<Cylinder>, pieces: seq<Piece>): (c: Cut)
    requires PiecesOk(pieces, |verts|)
    ensures |c.wheels| == |cylinders|
  {
    if pieces == [] then Cut([], seq(|cylinders|, _ => Mesh([], [])))
    else
      var front, last := pieces[..|pieces| - 1], pieces[|pieces| - 1];
      assert last in pieces;
      Placed(verts, cylinders, PlacedAll(verts, cylinders, front), last)
  }

  function Split(m: Mesh, cylinders: seq<Cylinder>): Cut
    requires MeshOk(m)
  {
    AllPiecesOk(m.verts, m.groups);
    PlacedAll(m.verts, cylinders, AllPieces(m.verts, m.groups))
  }

  lemma {:induction false} PieceTrisOk(tris: seq<Tri<nat>>, numbers: seq<nat>, n: nat)
    requires TrisOk(tris, n)
    ensures TrisOk(PieceTris(tris, numbers), n)
  {
    hide TriOk;
    if numbers != [] {
      PieceTrisOk(tris, numbers[..|numbers| - 1], n);
    }
  }

  lemma {:induction false} AllPiecesOk(verts: seq<Vertex>, groups: seq<Group>)
    requires GroupsOk(groups, |verts|)
    ensures PiecesOk(AllPieces(verts, groups), |verts|)
  {
    hide PieceTris, TrisOk, Parts, Welded;
    if groups != [] {
      var last := groups[|groups| - 1];
      LastOk(groups, |verts|);
      AllPiecesOk(verts, groups[..|groups| - 1]);
      forall p | p in GroupPieces(verts, last)
        ensures TrisOk(p.tris, |verts|)
      {
        var i :| 0 <= i < |GroupPieces(verts, last)| && GroupPieces(verts, last)[i] == p;
        PieceTrisOk(last.tris, Parts(Welded(verts, last.tris))[i].tris, |verts|);
      }
    }
  }

  // ---- the same triangles, wherever they go ---------------------------------------

  function Plain(f: Face): Face {
    f.(key := f.key.(flags := f.key.flags.(paint := false)))
  }

  function Plains(faces: seq<Face>): seq<Face> {
    seq(|faces|, i requires 0 <= i < |faces| => Plain(faces[i]))
  }

  // The faces as a bag, paint flags aside.
  function Bag(faces: seq<Face>): multiset<Face> {
    multiset(Plains(faces))
  }

  ghost predicate WheelsOk(wheels: seq<Mesh>) {
    forall w | w in wheels :: MeshOk(w)
  }

  function WheelBags(wheels: seq<Mesh>): multiset<Face>
    requires WheelsOk(wheels)
  {
    if wheels == [] then multiset{}
    else
      assert wheels[0] in wheels;
      Bag(Faces(wheels[0])) + WheelBags(wheels[1..])
  }

  lemma BagJoins(a: seq<Face>, b: seq<Face>)
    ensures Bag(a + b) == Bag(a) + Bag(b)
  {
    hide Plain;
    assert Plains(a + b) == Plains(a) + Plains(b);
  }

  lemma BagPlain(verts: seq<Vertex>, mat: Material, tris: seq<Tri<nat>>)
    requires TrisOk(tris, |verts|)
    ensures Bag(TriFaces(verts, KeyOf(Unpainted(mat)), tris)) == Bag(TriFaces(verts, KeyOf(mat), tris))
  {
    hide Corners, TriOk, Round4, Weld;
    assert Plains(TriFaces(verts, KeyOf(Unpainted(mat)), tris)) == Plains(TriFaces(verts, KeyOf(mat), tris));
  }

  lemma TriFacesJoin(verts: seq<Vertex>, key: MatKey, a: seq<Tri<nat>>, b: seq<Tri<nat>>)
    requires TrisOk(a, |verts|) && TrisOk(b, |verts|)
    ensures TrisOk(a + b, |verts|) && TriFaces(verts, key, a + b) == TriFaces(verts, key, a) + TriFaces(verts, key, b)
  {
    hide TriOk;
  }

  lemma GroupHead(groups: seq<Group>, n: nat)
    requires GroupsOk(groups, n) && groups != []
    ensures TrisOk(groups[0].tris, n) && GroupsOk(groups[1..], n)
  {
    assert groups[0] in groups;
  }

  lemma GroupsFrom(g: Group, rest: seq<Group>, n: nat)
    requires TrisOk(g.tris, n) && GroupsOk(rest, n)
    ensures GroupsOk([g] + rest, n)
  {
  }

  lemma FacesFrom(verts: seq<Vertex>, g: Group, rest: seq<Group>)
    requires TrisOk(g.tris, |verts|) && GroupsOk(rest, |verts|) && GroupsOk([g] + rest, |verts|)
    ensures GroupFaces(verts, [g] + rest) == TriFaces(verts, KeyOf(g.mat), g.tris) + GroupFaces(verts, rest)
  {
    hide TriFaces, TrisOk, KeyOf;
    assert ([g] + rest)[1..] == rest;
  }

  lemma {:induction false} PutGroupBag(verts: seq<Vertex>, groups: seq<Group>, mat: Material, tris: seq<Tri<nat>>)
    requires GroupsOk(groups, |verts|) && TrisOk(tris, |verts|)
    ensures var more := PutGroup(groups, mat, tris);
            && GroupsOk(more, |verts|)
            && Bag(GroupFaces(verts, more)) == Bag(GroupFaces(verts, groups)) + Bag(TriFaces(verts, KeyOf(mat), tris))
  {
    hide TrisOk, GroupsOk, TriFaces, KeyOf, Bag, GroupFaces;
    if groups == [] {
      NoFaces(verts);
      GroupsFrom(Group(mat, tris), [], |verts|);
      assert [Group(mat, tris)] + [] == [Group(mat, tris)];
      FacesFrom(verts, Group(mat, tris), []);
      BagJoins(TriFaces(verts, KeyOf(mat), tris), []);
    } else {
      var g, rest := groups[0], groups[1..];
      GroupHead(groups, |verts|);
      assert groups == [g] + rest;
      FacesFrom(verts, g, rest);
      BagJoins(TriFaces(verts, KeyOf(g.mat), g.tris), GroupFaces(verts, rest));
      if KeyOf(g.mat) == KeyOf(mat) {
        var grown := g.(tris := g.tris + tris);
        TriFacesJoin(verts, KeyOf(mat), g.tris, tris);
        BagJoins(TriFaces(verts, KeyOf(mat), g.tris), TriFaces(verts, KeyOf(mat), tris));
        GroupsFrom(grown, rest, |verts|);
        FacesFrom(verts, grown, rest);
        BagJoins(TriFaces(verts, KeyOf(mat), grown.tris), GroupFaces(verts, rest));
      } else {
        PutGroupBag(verts, rest, mat, tris);
        GroupsFrom(g, PutGroup(rest, mat, tris), |verts|);
        FacesFrom(verts, g, PutGroup(rest, mat, tris));
        BagJoins(TriFaces(verts, KeyOf(g.mat), g.tris), GroupFaces(verts, PutGroup(rest, mat, tris)));
      }
    }
  }

  lemma NoFaces(verts: seq<Vertex>)
    ensures GroupsOk([], |verts|) && GroupFaces(verts, []) == [] && Bag([]) == multiset{}
  {
  }

  lemma {:induction false} MoreVerts(verts: seq<Vertex>, more: seq<Vertex>, groups: seq<Group>)
    requires GroupsOk(groups, |verts|)
    ensures GroupsOk(groups, |verts + more|) && GroupFaces(verts + more, groups) == GroupFaces(verts, groups)
  {
    hide KeyOf, TriFaces, TrisOk, GroupsOk;
    if groups == [] {
      NoFaces(verts + more);
    } else {
      GroupHead(groups, |verts|);
      MoreVerts(verts, more, groups[1..]);
      MoreVertsTris(verts, more, KeyOf(groups[0].mat), groups[0].tris);
      assert groups == [groups[0]] + groups[1..];
      GroupsFrom(groups[0], groups[1..], |verts + more|);
    }
  }

  lemma MoreVertsTris(verts: seq<Vertex>, more: seq<Vertex>, key: MatKey, tris: seq<Tri<nat>>)
    requires TrisOk(tris, |verts|)
    ensures TrisOk(tris, |verts + more|) && TriFaces(verts + more, key, tris) == TriFaces(verts, key, tris)
  {
    forall i | 0 <= i < |tris|
      ensures TriOk(tris[i], |verts|)
    {
      assert tris[i] in tris;
    }
  }

  lemma AddToWheelBag(wheel: Mesh, verts: seq<Vertex>, mat: Material, tris: seq<Tri<nat>>)
    requires MeshOk(wheel) && TrisOk(tris, |verts|)
    ensures var more := AddToWheel(wheel, verts, mat, tris);
            MeshOk(more) && Bag(Faces(more)) == Bag(Faces(wheel)) + Bag(TriFaces(verts, KeyOf(mat), tris))
  {
    hide TrisOk, GroupsOk, TriFaces, KeyOf, Bag, GroupFaces, Pick, IndicesOf, RemapTris, PutGroup;
    var used := IndicesOf(tris);
    MoreVerts(wheel.verts, Pick(verts, used), wheel.groups);
    RemapTrisShow(verts, used, wheel.verts, KeyOf(mat), tris);
    PutGroupBag(wheel.verts + Pick(verts, used), wheel.groups, mat, RemapTris(used, |wheel.verts|, tris));
  }

  lemma {:induction false} WheelBagsUpdate(wheels: seq<Mesh>, i: nat, wheel: Mesh)
    requires WheelsOk(wheels) && i < |wheels| && MeshOk(wheel)
    ensures MeshOk(wheels[i]) && WheelsOk(wheels[i := wheel])
    ensures WheelBags(wheels[i := wheel]) + Bag(Faces(wheels[i])) == WheelBags(wheels) + Bag(Faces(wheel))
  {
    hide MeshOk, Bag, Faces;
    assert wheels[i] in wheels;
    WheelsHave(wheels, i, wheel);
    var more := wheels[i := wheel];
    if i == 0 {
      assert more[1..] == wheels[1..];
    } else {
      WheelBagsUpdate(wheels[1..], i - 1, wheel);
      assert more[1..] == wheels[1..][i - 1 := wheel];
      Beside(Bag(Faces(wheels[0])), WheelBags(more[1..]), Bag(Faces(wheels[i])), WheelBags(wheels[1..]), Bag(Faces(wheel)));
    }
  }

  lemma Beside(first: multiset<Face>, a: multiset<Face>, x: multiset<Face>, b: multiset<Face>, y: multiset<Face>)
    requires a + x == b + y
    ensures first + a + x == first + b + y
  {
    assert first + a + x == first + (a + x);
    assert first + b + y == first + (b + y);
  }

  lemma WheelsHave(wheels: seq<Mesh>, i: nat, wheel: Mesh)
    requires WheelsOk(wheels) && i < |wheels| && MeshOk(wheel)
    ensures WheelsOk(wheels[i := wheel]) && WheelsOk(wheels[1..])
  {
    hide MeshOk;
  }

  ghost predicate CutOk(verts: seq<Vertex>, c: Cut) {
    GroupsOk(c.body, |verts|) && WheelsOk(c.wheels)
  }

  // All the faces of a cut: the body's and every wheel's.
  function CutBag(verts: seq<Vertex>, c: Cut): multiset<Face>
    requires CutOk(verts, c)
  {
    Bag(GroupFaces(verts, c.body)) + WheelBags(c.wheels)
  }

  lemma PlacedKeeps(verts: seq<Vertex>, cylinders: seq<Cylinder>, c: Cut, p: Piece)
    requires TrisOk(p.tris, |verts|) && |c.wheels| == |cylinders| && CutOk(verts, c)
    ensures var d := Placed(verts, cylinders, c, p);
            CutOk(verts, d) && CutBag(verts, d) == CutBag(verts, c) + Bag(TriFaces(verts, KeyOf(p.mat), p.tris))
  {
    hide TrisOk, GroupsOk, TriFaces, KeyOf, Bag, GroupFaces, AddToWheel, PutGroup, Owner, Unpainted, WheelsOk, WheelBags, MeshOk, Faces;
    var w := Owner(verts, cylinders, p.tris, 0);
    if w == |cylinders| {
      PutGroupBag(verts, c.body, p.mat, p.tris);
    } else {
      WheelAt(c.wheels, w);
      AddToWheelBag(c.wheels[w], verts, Unpainted(p.mat), p.tris);
      BagPlain(verts, p.mat, p.tris);
      WheelBagsUpdate(c.wheels, w, AddToWheel(c.wheels[w], verts, Unpainted(p.mat), p.tris));
      Balance(Bag(Faces(c.wheels[w])), Bag(TriFaces(verts, KeyOf(p.mat), p.tris)), WheelBags(c.wheels),
              WheelBags(c.wheels[w := AddToWheel(c.wheels[w], verts, Unpainted(p.mat), p.tris)]), Bag(GroupFaces(verts, c.body)));
    }
  }

  lemma WheelAt(wheels: seq<Mesh>, w: nat)
    requires WheelsOk(wheels) && w < |wheels|
    ensures MeshOk(wheels[w])
  {
  }

  lemma Balance(old0: multiset<Face>, added: multiset<Face>, before: multiset<Face>, after: multiset<Face>, body: multiset<Face>)
    requires after + old0 == before + (old0 + added)
    ensures body + after == body + before + added
  {
    assert after == (after + old0) - old0;
    assert before + added == (before + (old0 + added)) - old0;
  }

  function PiecesBag(verts: seq<Vertex>, pieces: seq<Piece>): multiset<Face>
    requires PiecesOk(pieces, |verts|)
  {
    if pieces == [] then multiset{}
    else
      assert pieces[0] in pieces;
      Bag(TriFaces(verts, KeyOf(pieces[0].mat), pieces[0].tris)) + PiecesBag(verts, pieces[1..])
  }

  lemma {:induction false} PiecesBagJoins(verts: seq<Vertex>, a: seq<Piece>, b: seq<Piece>)
    requires PiecesOk(a, |verts|) && PiecesOk(b, |verts|)
    ensures PiecesOk(a + b, |verts|) && PiecesBag(verts, a + b) == PiecesBag(verts, a) + PiecesBag(verts, b)
  {
    hide TrisOk, TriFaces, KeyOf, Bag;
    if a == [] {
      assert a + b == b;
    } else {
      PiecesBagJoins(verts, a[1..], b);
      assert (a + b)[1..] == a[1..] + b;
    }
  }

  lemma OnePiece(verts: seq<Vertex>, p: Piece)
    requires TrisOk(p.tris, |verts|)
    ensures PiecesOk([p], |verts|) && PiecesBag(verts, [p]) == Bag(TriFaces(verts, KeyOf(p.mat), p.tris))
  {
    hide TrisOk, TriFaces, KeyOf, Bag;
    assert [p][1..] == [];
  }

  lemma {:induction false} PlacedAllKeeps(verts: seq<Vertex>, cylinders: seq<Cylinder>, pieces: seq<Piece>)
    requires PiecesOk(pieces, |verts|)
    ensures var c := PlacedAll(verts, cylinders, pieces);
            CutOk(verts, c) && CutBag(verts, c) == PiecesBag(verts, pieces)
  {
    hide TrisOk, TriFaces, KeyOf, Bag, Placed, CutOk, CutBag, PiecesBag;
    if pieces == [] {
      NothingPlaced(verts, |cylinders|);
    } else {
      var front, last := pieces[..|pieces| - 1], pieces[|pieces| - 1];
      assert last in pieces && pieces == front + [last];
      PlacedAllKeeps(verts, cylinders, front);
      PlacedKeeps(verts, cylinders, PlacedAll(verts, cylinders, front), last);
      OnePiece(verts, last);
      PiecesBagJoins(verts, front, [last]);
    }
  }

  lemma NothingPlaced(verts: seq<Vertex>, n: nat)
    ensures var c := Cut([], seq(n, _ => Mesh([], [])));
            CutOk(verts, c) && CutBag(verts, c) == multiset{} && PiecesBag(verts, []) == multiset{}
  {
    EmptyWheels(n);
  }

  lemma {:induction false} EmptyWheels(n: nat)
    ensures var wheels := seq(n, _ => Mesh([], []));
            WheelsOk(wheels) && WheelBags(wheels) == multiset{}
  {
    var wheels := seq(n, _ => Mesh([], []));
    if n != 0 {
      EmptyWheels(n - 1);
      assert wheels[1..] == seq(n - 1, _ => Mesh([], []));
    }
  }
}
