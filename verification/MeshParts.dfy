/** The connected parts of a triangle list. */
module MeshParts {
  import opened Basics
  import opened UnionFind

  // One part: its root and the numbers of its triangles, in order.
  datatype Part = Part(root: Key, tris: seq<nat>)

  // Put triangle n to the part of a root, a new one if there is none.
  function Extended(parts: seq<Part>, root: Key, n: nat): seq<Part> {
    if parts == [] then [Part(root, [n])]
    else if parts[0].root == root then [parts[0].(tris := parts[0].tris + [n])] + parts[1..]
    else [parts[0]] + Extended(parts[1..], root, n)
  }

  function Labels(tris: seq<Tri<Key>>, root: map<Key, Key>): seq<Key>
    requires forall i | 0 <= i < |tris| :: tris[i].a in root
  {
    seq(|tris|, i requires 0 <= i < |tris| => root[tris[i].a])
  }

  function Grouped(labels: seq<Key>): seq<Part> {
    if labels == [] then [] else Extended(Grouped(labels[..|labels| - 1]), labels[|labels| - 1], |labels| - 1)
  }

  lemma RootsKnown(tris: seq<Tri<Key>>)
    ensures forall i | 0 <= i < |tris| :: OneRoot(Roots(tris), tris[i])
  {
    hide Roots, OneRoot;
    RootsSound(tris);
  }

  function Parts(tris: seq<Tri<Key>>): seq<Part> {
    RootsKnown(tris);
    Grouped(Labels(tris, Roots(tris)))
  }

  // The parts by one pass of joins and one of finds.
  method Components(tris: seq<Tri<Key>>) returns (parts: seq<Part>)
    ensures parts == Parts(tris)
  {
    hide Forest, JoinedRoots, Extended;
    var sets := new DisjointSets();
    for k := 0 to |tris|
      invariant sets.Valid() && fresh(sets) && sets.root == Roots(tris[..k])
    {
      assert tris[..k + 1][..k] == tris[..k];
      sets.Join(tris[k]);
    }
    assert tris[..|tris|] == tris;
    parts := [];
    RootsKnown(tris);
    ghost var labels := Labels(tris, Roots(tris));
    for k := 0 to |tris|
      invariant sets.Valid() && fresh(sets) && sets.root == Roots(tris)
      invariant parts == Grouped(labels[..k])
    {
      assert OneRoot(Roots(tris), tris[k]);
      var r := sets.Find(tris[k].a);
      assert labels[..k + 1][..k] == labels[..k];
      parts := Put(parts, r, k);
    }
    assert labels[..|tris|] == labels;
  }

  method Put(parts: seq<Part>, root: Key, n: nat) returns (r: seq<Part>)
    ensures r == Extended(parts, root, n)
  {
    for i := 0 to |parts|
      invariant Extended(parts, root, n) == parts[..i] + Extended(parts[i..], root, n)
    {
      if parts[i].root == root {
        r := parts[i := parts[i].(tris := parts[i].tris + [n])];
        assert r == parts[..i] + ([parts[i].(tris := parts[i].tris + [n])] + parts[i..][1..]);
        return r;
      }
      assert parts[i..][1..] == parts[i + 1..];
    }
    assert parts[|parts|..] == [];
    return parts + [Part(root, [n])];
  }

  // ---- what the parts are -----------------------------------------------------

  // Parts with distinct roots, each holding in order the numbers labelled with its root.
  ghost predicate GroupsLabels(labels: seq<Key>, parts: seq<Part>) {
    && (forall i, j | 0 <= i < j < |parts| :: parts[i].root != parts[j].root)
    && (forall i | 0 <= i < |parts| :: HoldsLabel(labels, parts[i]))
    && (forall n | 0 <= n < |labels| :: Has(parts, labels[n]))
  }

  ghost predicate HoldsLabel(labels: seq<Key>, part: Part) {
    && part.tris != [] && Increasing(part.tris)
    && (forall n: nat :: n in part.tris <==> n < |labels| && labels[n] == part.root)
  }

  ghost predicate Has(parts: seq<Part>, root: Key) {
    exists i | 0 <= i < |parts| :: parts[i].root == root
  }

  // The part of the root has one number more; a new part, if there was none, is last.
  ghost predicate GainsNumber(parts: seq<Part>, more: seq<Part>, root: Key, n: nat) {
    && |more| == (if Has(parts, root) then |parts| else |parts| + 1)
    && (forall i | 0 <= i < |parts| :: more[i] == if parts[i].root == root then parts[i].(tris := parts[i].tris + [n]) else parts[i])
    && (!Has(parts, root) ==> more[|parts|] == Part(root, [n]))
  }

  lemma {:induction false} ExtendedRoots(parts: seq<Part>, root: Key, n: nat)
    requires forall i, j | 0 <= i < j < |parts| :: parts[i].root != parts[j].root
    ensures GainsNumber(parts, Extended(parts, root, n), root, n)
  {
    hide GainsNumber;
    if parts == [] {
      NewPart(root, n);
    } else if parts[0].root == root {
      FirstGains(parts, n);
    } else {
      ExtendedRoots(parts[1..], root, n);
      LaterGains(parts, Extended(parts[1..], root, n), root, n);
    }
  }

  lemma NewPart(root: Key, n: nat)
    ensures GainsNumber([], [Part(root, [n])], root, n)
  {
  }

  lemma FirstGains(parts: seq<Part>, n: nat)
    requires parts != [] && forall i, j | 0 <= i < j < |parts| :: parts[i].root != parts[j].root
    ensures GainsNumber(parts, [parts[0].(tris := parts[0].tris + [n])] + parts[1..], parts[0].root, n)
  {
  }

  lemma LaterGains(parts: seq<Part>, tail: seq<Part>, root: Key, n: nat)
    requires parts != [] && parts[0].root != root && GainsNumber(parts[1..], tail, root, n)
    ensures GainsNumber(parts, [parts[0]] + tail, root, n)
  {
    HasRest(parts, root);
    hide Has;
    assert forall i | 0 < i < |parts| :: parts[i] == parts[1..][i - 1] && ([parts[0]] + tail)[i] == tail[i - 1];
  }

  lemma HasRest(parts: seq<Part>, root: Key)
    requires parts != []
    ensures Has(parts, root) <==> parts[0].root == root || Has(parts[1..], root)
  {
    if Has(parts, root) && parts[0].root != root {
      var i :| 0 <= i < |parts| && parts[i].root == root;
      assert parts[1..][i - 1].root == root;
    }
    if Has(parts[1..], root) {
      var i :| 0 <= i < |parts[1..]| && parts[1..][i].root == root;
      assert parts[i + 1].root == root;
    }
  }

  lemma {:induction false} GroupedOk(labels: seq<Key>)
    ensures GroupsLabels(labels, Grouped(labels))
  {
    hide Extended, HoldsLabel, Has;
    if labels != [] {
      var n := |labels| - 1;
      var front, last := labels[..n], labels[n];
      GroupedOk(front);
      assert labels == front + [last];
      var parts, more := Grouped(front), Grouped(labels);
      ExtendedRoots(parts, last, n);
      RootsApart(parts, more, last);
      forall i | 0 <= i < |more|
        ensures HoldsLabel(labels, more[i])
      {
        if i < |parts| {
          LabelGrows(front, last, parts[i]);
        } else {
          NewLabel(front, last, parts);
        }
      }
      AllLabelled(labels, parts, more);
    }
  }

  lemma AllLabelled(labels: seq<Key>, parts: seq<Part>, more: seq<Part>)
    requires labels != []
    requires var n := |labels| - 1; forall k | 0 <= k < n :: Has(parts, labels[..n][k])
    requires |more| == if Has(parts, labels[|labels| - 1]) then |parts| else |parts| + 1
    requires forall i | 0 <= i < |parts| :: more[i].root == parts[i].root
    requires !Has(parts, labels[|labels| - 1]) ==> more[|parts|].root == labels[|labels| - 1]
    ensures forall k | 0 <= k < |labels| :: Has(more, labels[k])
  {
    var n := |labels| - 1;
    forall k | 0 <= k < |labels|
      ensures Has(more, labels[k])
    {
      if k < n {
        assert Has(parts, labels[..n][k]);
      }
      if Has(parts, labels[k]) {
        var i :| 0 <= i < |parts| && parts[i].root == labels[k];
        assert more[i].root == labels[k];
      } else {
        assert more[|parts|].root == labels[k];
      }
    }
  }

  lemma RootsApart(parts: seq<Part>, more: seq<Part>, last: Key)
    requires forall i, j | 0 <= i < j < |parts| :: parts[i].root != parts[j].root
    requires |more| == if Has(parts, last) then |parts| else |parts| + 1
    requires forall i | 0 <= i < |parts| :: more[i].root == parts[i].root
    requires !Has(parts, last) ==> more[|parts|].root == last
    ensures forall i, j | 0 <= i < j < |more| :: more[i].root != more[j].root
  {
  }

  lemma LabelGrows(front: seq<Key>, last: Key, part: Part)
    requires HoldsLabel(front, part)
    ensures HoldsLabel(front + [last], if part.root == last then part.(tris := part.tris + [|front|]) else part)
  {
    var labels := front + [last];
    var more := part.tris + [|front|];
    if part.root == last {
      forall n: nat
        ensures n in more <==> n < |labels| && labels[n] == last
      {
        assert n in more <==> n in part.tris || n == |front|;
      }
      forall i | 0 <= i < |part.tris|
        ensures part.tris[i] < |front|
      {
        assert part.tris[i] in part.tris;
      }
    } else {
      forall n: nat
        ensures n in part.tris <==> n < |labels| && labels[n] == part.root
      {
      }
    }
  }

  lemma NewLabel(front: seq<Key>, last: Key, parts: seq<Part>)
    requires GroupsLabels(front, parts) && !Has(parts, last)
    ensures HoldsLabel(front + [last], Part(last, [|front|]))
  {
    var labels := front + [last];
    forall n | 0 <= n < |front|
      ensures front[n] != last
    {
      assert Has(parts, front[n]);
    }
  }

  // ---- connected means chained --------------------------------------------------

  // Triangles share a root exactly when a chain of touching triangles connects them.
  lemma SameRootIffChained(tris: seq<Tri<Key>>, n: nat, m: nat)
    requires n < |tris| && m < |tris|
    ensures tris[n].a in Roots(tris) && tris[m].a in Roots(tris)
    ensures Roots(tris)[tris[n].a] == Roots(tris)[tris[m].a] <==> Chained(tris, n, m)
  {
    hide Roots;
    RootsSound(tris);
    var root := Roots(tris);
    assert OneRoot(root, tris[n]) && OneRoot(root, tris[m]);
    if root[tris[n].a] == root[tris[m].a] {
      JoinedChains(tris, n, m);
    }
    if Chained(tris, n, m) {
      var path :| Chain(tris, path) && path[0] == n && path[|path| - 1] == m;
      ChainSharesRoot(tris, root, path);
    }
  }

  lemma JoinedChains(tris: seq<Tri<Key>>, n: nat, m: nat)
    requires n < |tris| && m < |tris| && Joined(tris, tris[n].a, tris[m].a)
    ensures Chained(tris, n, m)
  {
    if tris[n].a == tris[m].a {
      assert Chain(tris, [n, m]);
    } else {
      var path :| Leads(tris, path, tris[n].a, tris[m].a);
      var long := [n] + path + [m];
      forall i | 0 < i < |long|
        ensures Touch(tris[long[i - 1]], tris[long[i]])
      {
        if 1 < i < |long| - 1 {
          assert Touch(tris[path[i - 2]], tris[path[i - 1]]);
        }
      }
      assert Chain(tris, long);
    }
  }

  lemma {:induction false} ChainSharesRoot(tris: seq<Tri<Key>>, root: map<Key, Key>, path: seq<nat>)
    requires Chain(tris, path) && forall i | 0 <= i < |tris| :: OneRoot(root, tris[i])
    ensures tris[path[0]].a in root && tris[path[|path| - 1]].a in root && root[tris[path[0]].a] == root[tris[path[|path| - 1]].a]
  {
    if |path| > 1 {
      var front := path[..|path| - 1];
      assert Chain(tris, front);
      ChainSharesRoot(tris, root, front);
      assert Touch(tris[path[|path| - 2]], tris[path[|path| - 1]]);
      assert OneRoot(root, tris[path[|path| - 2]]) && OneRoot(root, tris[path[|path| - 1]]);
    }
  }

  // Two triangles are in the part together exactly when a chain connects them.
  ghost predicate WholeComponent(tris: seq<Tri<Key>>, part: Part) {
    && part.tris != [] && Increasing(part.tris) && (forall n | n in part.tris :: n < |tris|)
    && (forall n: nat, m: nat | n in part.tris && m < |tris| :: m in part.tris <==> Chained(tris, n, m))
  }

  ghost predicate InSomePart(parts: seq<Part>, n: nat) {
    exists i | 0 <= i < |parts| :: n in parts[i].tris
  }

  // The parts divide the triangles: every triangle is in one, no two parts share one, and
  // two are in the same part exactly when triangles sharing corners chain them together.
  lemma PartsAreComponents(tris: seq<Tri<Key>>)
    ensures var parts := Parts(tris);
            && (forall i | 0 <= i < |parts| :: WholeComponent(tris, parts[i]))
            && (forall n: nat | n < |tris| :: InSomePart(parts, n))
            && (forall i, j | 0 <= i < j < |parts| :: NoneShared(parts[i], parts[j]))
  {
    hide Roots, Chained, Grouped;
    RootsKnown(tris);
    var labels := Labels(tris, Roots(tris));
    GroupedOk(labels);
    var parts := Parts(tris);
    forall i | 0 <= i < |parts|
      ensures WholeComponent(tris, parts[i])
    {
      LabelIsComponent(tris, parts[i]);
    }
    forall n: nat | n < |tris|
      ensures InSomePart(parts, n)
    {
      assert Has(parts, labels[n]);
      var i :| 0 <= i < |parts| && parts[i].root == labels[n];
      assert HoldsLabel(labels, parts[i]);
    }
    forall i, j | 0 <= i < j < |parts|
      ensures NoneShared(parts[i], parts[j])
    {
      LabelsApart(labels, parts[i], parts[j]);
    }
  }

  ghost predicate NoneShared(p: Part, q: Part) {
    forall n | n in p.tris :: n !in q.tris
  }

  lemma LabelsApart(labels: seq<Key>, p: Part, q: Part)
    requires HoldsLabel(labels, p) && HoldsLabel(labels, q) && p.root != q.root
    ensures NoneShared(p, q)
  {
  }

  lemma {:induction false} LabelIsComponent(tris: seq<Tri<Key>>, part: Part)
    requires (forall i | 0 <= i < |tris| :: tris[i].a in Roots(tris)) && HoldsLabel(Labels(tris, Roots(tris)), part)
    ensures WholeComponent(tris, part)
  {
    hide Roots, Chained;
    forall n: nat, m: nat | n in part.tris && m < |tris|
      ensures m in part.tris <==> Chained(tris, n, m)
    {
      SameRootIffChained(tris, n, m);
    }
  }
}
