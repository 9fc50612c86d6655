/** Welding triangles into connected parts: union-find with path halving. */
module UnionFind {

  datatype Tri<T> = Tri(a: T, b: T, c: T)

  // A vertex position rounded to ten-thousandths.
  datatype Key = Key(x: int, y: int, z: int)

  predicate Corner(t: Tri<Key>, x: Key) {
    x == t.a || x == t.b || x == t.c
  }

  // ---- what connects triangles ------------------------------------------------

  predicate Touch(t: Tri<Key>, u: Tri<Key>) {
    Corner(u, t.a) || Corner(u, t.b) || Corner(u, t.c)
  }

  // A chain of triangles, each sharing a corner with the next.
  predicate Chain(tris: seq<Tri<Key>>, path: seq<nat>) {
    && |path| > 0 && (forall i | 0 <= i < |path| :: path[i] < |tris|)
    && forall i | 0 < i < |path| :: Touch(tris[path[i - 1]], tris[path[i]])
  }

  ghost predicate Chained(tris: seq<Tri<Key>>, n: nat, m: nat) {
    exists path :: Chain(tris, path) && path[0] == n && path[|path| - 1] == m
  }

  predicate Leads(tris: seq<Tri<Key>>, path: seq<nat>, x: Key, y: Key) {
    Chain(tris, path) && Corner(tris[path[0]], x) && Corner(tris[path[|path| - 1]], y)
  }

  // The same corner, or joined by a chain of triangles.
  ghost predicate Joined(tris: seq<Tri<Key>>, x: Key, y: Key) {
    x == y || exists path :: Leads(tris, path, x, y)
  }

  // ---- the forest -------------------------------------------------------------

  // The root of each element. Ghost data beside the parent links, and a depth that
  // falls along every link, so that following links ends.
  ghost predicate Forest(parent: map<Key, Key>, root: map<Key, Key>, depth: map<Key, nat>) {
    && parent.Keys == root.Keys == depth.Keys
    && forall x {:trigger Node(parent, root, depth, x)} | x in parent :: Node(parent, root, depth, x)
  }

  ghost predicate Node(parent: map<Key, Key>, root: map<Key, Key>, depth: map<Key, nat>, x: Key)
    requires parent.Keys == root.Keys == depth.Keys && x in parent
  {
    && parent[x] in parent && root[x] in parent
    && root[parent[x]] == root[x] && root[root[x]] == root[x]
    && (parent[x] == x <==> root[x] == x)
    && (parent[x] != x ==> depth[parent[x]] < depth[x])
  }

  function With(root: map<Key, Key>, x: Key): map<Key, Key> {
    if x in root then root else root[x := x]
  }

  // Everything under a goes under b.
  function Merged(root: map<Key, Key>, a: Key, b: Key): map<Key, Key> {
    map x | x in root :: if root[x] == a then b else root[x]
  }

  function WithCorners(root: map<Key, Key>, t: Tri<Key>): map<Key, Key> {
    With(With(With(root, t.a), t.b), t.c)
  }

  // The roots once a triangle's corners are joined.
  function JoinedRoots(root: map<Key, Key>, t: Tri<Key>): map<Key, Key> {
    var r := WithCorners(root, t);
    var m := Merged(r, r[t.a], r[t.b]);
    Merged(m, m[t.c], r[t.b])
  }

  function Roots(tris: seq<Tri<Key>>): map<Key, Key> {
    if tris == [] then map[] else JoinedRoots(Roots(tris[..|tris| - 1]), tris[|tris| - 1])
  }

  class DisjointSets {
    var parent: map<Key, Key>
    ghost var root: map<Key, Key>
    ghost var depth: map<Key, nat>

    ghost predicate Valid()
      reads this
    {
      Forest(parent, root, depth)
    }

    constructor ()
      ensures Valid() && root == map[]
    {
      parent, root, depth := map[], map[], map[];
    }

    // The root; links on the way are shortened, roots stay.
    method Find(start: Key) returns (x: Key)
      requires Valid()
      modifies this
      ensures Valid() && root == With(old(root), start) && x == root[start] && x in root && root[x] == x
    {
      x := start;
      if x !in parent {
        NewNode(parent, root, depth, x);
        parent, root, depth := parent[x := x], root[x := x], depth[x := 0];
      }
      while parent[x] != x
        invariant Valid() && root == With(old(root), start)
        invariant x in parent && root[x] == root[start]
        decreases depth[x]
      {
        Halve(parent, root, depth, x);
        parent := parent[x := parent[parent[x]]];
        x := parent[x];
      }
      assert Node(parent, root, depth, x);
    }

    // Put root a under root b.
    method Link(a: Key, b: Key)
      requires Valid() && a in root && b in root && root[a] == a && root[b] == b
      modifies this
      ensures Valid() && root == Merged(old(root), a, b)
    {
      LinkRoots(parent, root, depth, a, b);
      parent := parent[a := b];
      depth := if a == b then depth else Sunk(root, depth, a, b);
      root := Merged(root, a, b);
    }

    method Join(t: Tri<Key>)
      requires Valid()
      modifies this
      ensures Valid() && root == JoinedRoots(old(root), t)
    {
      hide Forest;
      var a := Find(t.a);
      var b := Find(t.b);
      var c := Find(t.c);
      Link(a, b);
      var target := Find(b);
      var from := Find(c);
      Link(from, target);
    }
  }

  lemma NewNode(parent: map<Key, Key>, root: map<Key, Key>, depth: map<Key, nat>, x: Key)
    requires Forest(parent, root, depth) && x !in parent
    ensures Forest(parent[x := x], root[x := x], depth[x := 0])
  {
    var p, r, d := parent[x := x], root[x := x], depth[x := 0];
    forall y | y in p
      ensures Node(p, r, d, y)
    {
      if y != x {
        assert Node(parent, root, depth, y);
      }
    }
  }

  // A link to the grandparent skips the parent but leads to the same root.
  lemma Halve(parent: map<Key, Key>, root: map<Key, Key>, depth: map<Key, nat>, x: Key)
    requires Forest(parent, root, depth) && x in parent && parent[x] != x
    ensures parent[x] in parent && parent[parent[x]] in parent
    ensures Forest(parent[x := parent[parent[x]]], root, depth)
    ensures root[parent[parent[x]]] == root[x] && depth[parent[parent[x]]] < depth[x]
  {
    assert Node(parent, root, depth, x) && Node(parent, root, depth, parent[x]) && Node(parent, root, depth, parent[parent[x]]);
    var halved := parent[x := parent[parent[x]]];
    forall y | y in halved
      ensures Node(halved, root, depth, y)
    {
      assert Node(parent, root, depth, y);
    }
  }

  // Everything under a is pushed below b.
  ghost function Sunk(root: map<Key, Key>, depth: map<Key, nat>, a: Key, b: Key): map<Key, nat>
    requires root.Keys == depth.Keys && b in root
  {
    map x | x in root :: if root[x] == a then depth[x] + depth[b] + 1 else depth[x]
  }

  lemma LinkRoots(parent: map<Key, Key>, root: map<Key, Key>, depth: map<Key, nat>, a: Key, b: Key)
    requires Forest(parent, root, depth) && a in root && b in root && root[a] == a && root[b] == b
    ensures Forest(parent[a := b], Merged(root, a, b), if a == b then depth else Sunk(root, depth, a, b))
  {
    var d := if a == b then depth else Sunk(root, depth, a, b);
    forall y | y in parent
      ensures Node(parent[a := b], Merged(root, a, b), d, y)
    {
      assert Node(parent, root, depth, y) && Node(parent, root, depth, a) && Node(parent, root, depth, b);
    }
  }

  // ---- roots are equal exactly when a chain joins -------------------------------

  lemma JoinSymmetric(tris: seq<Tri<Key>>, x: Key, y: Key)
    requires Joined(tris, x, y)
    ensures Joined(tris, y, x)
  {
    if x != y {
      var path :| Leads(tris, path, x, y);
      var back := seq(|path|, i requires 0 <= i < |path| => path[|path| - 1 - i]);
      forall i | 0 < i < |back|
        ensures Touch(tris[back[i - 1]], tris[back[i]])
      {
        assert Touch(tris[path[|path| - 1 - i]], tris[path[|path| - i]]);
      }
      assert Leads(tris, back, y, x);
    }
  }

  lemma JoinTransitive(tris: seq<Tri<Key>>, x: Key, y: Key, z: Key)
    requires Joined(tris, x, y) && Joined(tris, y, z)
    ensures Joined(tris, x, z)
  {
    if x != y && y != z {
      var p :| Leads(tris, p, x, y);
      var q :| Leads(tris, q, y, z);
      assert Leads(tris, p + q, x, z);
    }
  }

  lemma JoinGrows(tris: seq<Tri<Key>>, t: Tri<Key>, x: Key, y: Key)
    requires Joined(tris, x, y)
    ensures Joined(tris + [t], x, y)
  {
    if x != y {
      var path :| Leads(tris, path, x, y);
      assert Leads(tris + [t], path, x, y);
    }
  }

  lemma CornersJoined(tris: seq<Tri<Key>>, n: nat, x: Key, y: Key)
    requires n < |tris| && Corner(tris[n], x) && Corner(tris[n], y)
    ensures Joined(tris, x, y)
  {
    assert Leads(tris, [n], x, y);
  }

  // Equal roots mean joined, and the corners of each of the first n triangles share a root.
  ghost predicate RootsMean(tris: seq<Tri<Key>>, n: nat, root: map<Key, Key>)
    requires n <= |tris|
  {
    && (forall x | x in root :: root[x] in root && root[root[x]] == root[x])
    && (forall x, y | x in root && y in root && root[x] == root[y] :: Joined(tris, x, y))
    && (forall i | 0 <= i < n :: OneRoot(root, tris[i]))
  }

  ghost predicate OneRoot(root: map<Key, Key>, t: Tri<Key>) {
    t.a in root && t.b in root && t.c in root && root[t.a] == root[t.b] == root[t.c]
  }

  lemma {:induction false} RootsSound(tris: seq<Tri<Key>>)
    ensures RootsMean(tris, |tris|, Roots(tris))
  {
    hide JoinedRoots, RootsMean;
    if tris == [] {
      NoRoots();
    } else {
      var front, t := tris[..|tris| - 1], tris[|tris| - 1];
      RootsSound(front);
      assert tris == front + [t];
      JoinMeans(front, t, Roots(front));
    }
  }

  lemma NoRoots()
    ensures RootsMean([], 0, map[])
  {
  }

  lemma WithMeans(tris: seq<Tri<Key>>, n: nat, root: map<Key, Key>, x: Key)
    requires n <= |tris| && RootsMean(tris, n, root)
    ensures RootsMean(tris, n, With(root, x)) && x in With(root, x)
  {
    hide Joined;
    SelfJoined(tris, x);
  }

  lemma SelfJoined(tris: seq<Tri<Key>>, x: Key)
    ensures Joined(tris, x, x)
  {
  }

  // Merging two classes that have joined members keeps the meaning.
  lemma MergeMeans(tris: seq<Tri<Key>>, n: nat, root: map<Key, Key>, x: Key, y: Key)
    requires n <= |tris| && RootsMean(tris, n, root) && x in root && y in root && Joined(tris, x, y)
    ensures RootsMean(tris, n, Merged(root, root[x], root[y]))
  {
    hide Joined;
    var m := Merged(root, root[x], root[y]);
    forall u, v | u in m && v in m && m[u] == m[v]
      ensures Joined(tris, u, v)
    {
      if root[u] != root[v] {
        if root[u] == root[x] {
          Across(tris, n, root, u, x, y, v);
        } else {
          Across(tris, n, root, v, x, y, u);
          JoinSymmetric(tris, v, u);
        }
      }
    }
  }

  lemma Across(tris: seq<Tri<Key>>, n: nat, root: map<Key, Key>, u: Key, x: Key, y: Key, v: Key)
    requires n <= |tris| && RootsMean(tris, n, root) && u in root && x in root && y in root && v in root
    requires root[u] == root[x] && Joined(tris, x, y) && root[y] == root[v]
    ensures Joined(tris, u, v)
  {
    hide Joined;
    JoinTransitive(tris, u, x, y);
    JoinTransitive(tris, u, y, v);
  }

  lemma MoreTriangles(tris: seq<Tri<Key>>, t: Tri<Key>, root: map<Key, Key>)
    requires RootsMean(tris, |tris|, root)
    ensures RootsMean(tris + [t], |tris|, root)
  {
    hide Joined, OneRoot;
    forall x, y | x in root && y in root && root[x] == root[y]
      ensures Joined(tris + [t], x, y)
    {
      JoinGrows(tris, t, x, y);
    }
  }

  lemma JoinMeans(tris: seq<Tri<Key>>, t: Tri<Key>, root: map<Key, Key>)
    requires RootsMean(tris, |tris|, root)
    ensures RootsMean(tris + [t], |tris| + 1, JoinedRoots(root, t))
  {
    hide Joined, RootsMean, With, Merged;
    var all, n := tris + [t], |tris|;
    MoreTriangles(tris, t, root);
    WithMeans(all, n, root, t.a);
    WithMeans(all, n, With(root, t.a), t.b);
    WithMeans(all, n, With(With(root, t.a), t.b), t.c);
    CornersThere(root, t);
    var r := WithCorners(root, t);
    CornersJoined(all, n, t.a, t.b);
    CornersJoined(all, n, t.c, t.b);
    MergeMeans(all, n, r, t.a, t.b);
    MergedRoots(all, n, r, t.a, t.b);
    var m := Merged(r, r[t.a], r[t.b]);
    MergeMeans(all, n, m, t.c, t.b);
    MergedRoots(all, n, m, t.c, t.b);
    LastJoined(tris, t, r, m, Merged(m, m[t.c], m[t.b]));
  }

  lemma CornersThere(root: map<Key, Key>, t: Tri<Key>)
    ensures var r := WithCorners(root, t); t.a in r && t.b in r && t.c in r
  {
  }

  // The merged members share the second one's root, and equal roots stay equal.
  lemma MergedRoots(tris: seq<Tri<Key>>, n: nat, root: map<Key, Key>, x: Key, y: Key)
    requires n <= |tris| && RootsMean(tris, n, root) && x in root && y in root
    ensures var m := Merged(root, root[x], root[y]);
            && m.Keys == root.Keys && m[x] == m[y] == root[y]
            && forall u, v | u in root && v in root && root[u] == root[v] :: m[u] == m[v]
  {
  }

  lemma LastJoined(tris: seq<Tri<Key>>, t: Tri<Key>, r: map<Key, Key>, m: map<Key, Key>, last: map<Key, Key>)
    requires r.Keys == m.Keys == last.Keys && t.a in r && t.b in r && t.c in r
    requires m[t.a] == m[t.b] && last[t.c] == last[t.b]
    requires forall u, v | u in m && v in m && m[u] == m[v] :: last[u] == last[v]
    requires RootsMean(tris + [t], |tris|, last)
    ensures RootsMean(tris + [t], |tris| + 1, last)
  {
    hide Joined;
    assert OneRoot(last, t);
  }
}
