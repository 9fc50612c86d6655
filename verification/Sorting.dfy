/** Sorting by a comparator, and why the result does not depend on the algorithm. */
module Sorting {

  ghost predicate StrictOrder<T(!new)>(less: (T, T) -> bool, dom: set<T>) {
    && (forall x | x in dom :: !less(x, x))
    && (forall x, y | x in dom && y in dom :: x == y || less(x, y) || less(y, x))
    && (forall x, y, z | x in dom && y in dom && z in dom :: less(x, y) && less(y, z) ==> less(x, z))
  }

  ghost predicate Sorted<T>(s: seq<T>, less: (T, T) -> bool) {
    forall i, j | 0 <= i < j < |s| :: less(s[i], s[j])
  }

  ghost predicate Distinct<T>(s: seq<T>) {
    forall i, j | 0 <= i < j < |s| :: s[i] != s[j]
  }

  ghost function Elements<T>(s: seq<T>): (e: set<T>) {
    set x | x in s
  }

  function Insert<T>(x: T, s: seq<T>, less: (T, T) -> bool): (r: seq<T>)
    ensures multiset(r) == multiset{x} + multiset(s)
  {
    if s == [] then [x]
    else if less(x, s[0]) then [x] + s
    else
      assert s == [s[0]] + s[1..];
      [s[0]] + Insert(x, s[1..], less)
  }

  // Stands for std::sort.
  function SortBy<T>(s: seq<T>, less: (T, T) -> bool): (r: seq<T>)
    ensures multiset(r) == multiset(s)
  {
    if s == [] then []
    else
      assert s == [s[0]] + s[1..];
      Insert(s[0], SortBy(s[1..], less), less)
  }

  lemma {:induction false} InsertSorts<T(!new)>(x: T, s: seq<T>, less: (T, T) -> bool, dom: set<T>)
    requires StrictOrder(less, dom) && x in dom && Elements(s) <= dom && x !in s && Sorted(s, less)
    ensures Sorted(Insert(x, s, less), less)
  {
    if s == [] {
    } else if less(x, s[0]) {
      assert forall j | 0 <= j < |s| :: s[j] in Elements(s);
    } else {
      assert s[0] in Elements(s);
      assert Elements(s[1..]) <= Elements(s);
      InsertSorts(x, s[1..], less, dom);
      var r := Insert(x, s[1..], less);
      forall j | 0 <= j < |r|
        ensures less(s[0], r[j])
      {
        assert r[j] in multiset(r);
        assert r[j] == x || r[j] in s[1..];
      }
    }
  }

  lemma {:induction false} SortBySorts<T(!new)>(s: seq<T>, less: (T, T) -> bool)
    requires StrictOrder(less, Elements(s)) && Distinct(s)
    ensures Sorted(SortBy(s, less), less)
  {
    if s == [] {
    } else {
      assert Elements(s[1..]) <= Elements(s);
      SortBySorts(s[1..], less);
      var r := SortBy(s[1..], less);
      SameMembers(r, s[1..]);
      InsertSorts(s[0], r, less, Elements(s));
    }
  }

  lemma SameMembers<T>(s: seq<T>, t: seq<T>)
    requires multiset(s) == multiset(t)
    ensures Elements(s) == Elements(t) && |s| == |t| && forall x :: x in s <==> x in t
  {
    assert forall x :: x in s <==> x in multiset(s);
    assert forall x :: x in t <==> x in multiset(t);
    assert |s| == |multiset(s)| && |t| == |multiset(t)|;
  }

  // Two sorted arrangements of the same elements are the same sequence.
  lemma {:induction false} SortingUnique<T(!new)>(s: seq<T>, t: seq<T>, less: (T, T) -> bool)
    requires StrictOrder(less, Elements(s)) && multiset(s) == multiset(t)
    requires Sorted(s, less) && Sorted(t, less)
    ensures s == t
  {
    hide *;
    SameMembers(s, t);
    if s == [] {
    } else {
      SameHead(s, t, less);
      Tail(s, less);
      Tail(t, less);
      SortingUnique(s[1..], t[1..], less);
      Rejoin(s, t);
    }
  }

  lemma Rejoin<T>(s: seq<T>, t: seq<T>)
    requires s != [] && t != [] && s[0] == t[0] && s[1..] == t[1..]
    ensures s == t
  {
    assert s == [s[0]] + s[1..] && t == [t[0]] + t[1..];
  }

  lemma SameHead<T(!new)>(s: seq<T>, t: seq<T>, less: (T, T) -> bool)
    requires StrictOrder(less, Elements(s)) && Sorted(s, less) && Sorted(t, less)
    requires s != [] && t != [] && forall x :: x in s <==> x in t
    ensures s[0] == t[0]
  {
    LeastFirst(s, t[0], less);
    LeastFirst(t, s[0], less);
    assert s[0] in Elements(s) && t[0] in Elements(s);
  }

  lemma Tail<T(!new)>(s: seq<T>, less: (T, T) -> bool)
    requires s != [] && Sorted(s, less)
    ensures Sorted(s[1..], less) && multiset(s[1..]) == multiset(s) - multiset{s[0]}
    ensures StrictOrder(less, Elements(s)) ==> StrictOrder(less, Elements(s[1..]))
  {
    assert s == [s[0]] + s[1..];
    assert Elements(s[1..]) <= Elements(s);
  }

  lemma LeastFirst<T>(s: seq<T>, x: T, less: (T, T) -> bool)
    requires Sorted(s, less) && x in s
    ensures x == s[0] || less(s[0], x)
  {
  }

  lemma SortedDistinct<T(!new)>(s: seq<T>, less: (T, T) -> bool)
    requires StrictOrder(less, Elements(s)) && Sorted(s, less)
    ensures Distinct(s)
  {
    forall i, j | 0 <= i < j < |s|
      ensures s[i] != s[j]
    {
      assert s[i] in Elements(s);
    }
  }
}
