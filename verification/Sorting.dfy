/** Stable sorting by a comparator, as the standard library's `sort_by` promises it, and when the result is forced. */
module Sorting {

  /** Put x behind every element it does not precede. */
  function Insert<T>(s: seq<T>, x: T, before: (T, T) -> bool): (r: seq<T>)
    ensures multiset(r) == multiset(s) + multiset{x}
  {
    if s == [] || !before(x, s[|s| - 1]) then
      s + [x]
    else
      assert s == s[..|s| - 1] + [s[|s| - 1]];
      Insert(s[..|s| - 1], x, before) + [s[|s| - 1]]
  }

  function Sort<T>(s: seq<T>, before: (T, T) -> bool): (r: seq<T>)
    ensures multiset(r) == multiset(s)
    ensures |r| == |s|
  {
    if s == [] then
      []
    else
      assert s == s[..|s| - 1] + [s[|s| - 1]];
      var r := Insert(Sort(s[..|s| - 1], before), s[|s| - 1], before);
      assert |multiset(r)| == |r|;
      r
  }

  predicate Ordered<T>(s: seq<T>, before: (T, T) -> bool) {
    forall i, j :: 0 <= i < j < |s| ==> before(s[i], s[j])
  }

  /** A strict total order, apart from equal elements. */
  ghost predicate Transitive<T(!new)>(before: (T, T) -> bool) {
    forall a, b, c :: before(a, b) && before(b, c) ==> before(a, c)
  }

  ghost predicate Asymmetric<T(!new)>(before: (T, T) -> bool) {
    forall a, b :: before(a, b) ==> !before(b, a)
  }

  /** No element occurs twice, and any two are ordered one way or the other. */
  predicate Comparable<T(==)>(m: multiset<T>, before: (T, T) -> bool) {
    && (forall x :: x in m ==> m[x] == 1)
    && (forall x, y :: x in m && y in m && x != y ==> before(x, y) || before(y, x))
  }

  lemma {:induction false} InsertOrders<T(!new)>(s: seq<T>, x: T, before: (T, T) -> bool)
    requires Transitive(before) && Ordered(s, before)
    requires forall y :: y in s ==> before(x, y) || before(y, x)
    ensures Ordered(Insert(s, x, before), before)
    decreases |s|
  {
    if s != [] && before(x, s[|s| - 1]) {
      var front, last := s[..|s| - 1], s[|s| - 1];
      InsertOrders(front, x, before);
      var r := Insert(front, x, before);
      forall i | 0 <= i < |r| ensures before(r[i], last) {
        assert r[i] in multiset(r);
        assert r[i] in multiset(front) + multiset{x};
      }
    } else if s != [] {
      forall i | 0 <= i < |s| ensures before(s[i], x) {
        assert before(s[|s| - 1], x);
      }
    }
  }

  /** Elements that can all be told apart come out strictly ordered. */
  lemma {:induction false} SortOrders<T(!new)>(s: seq<T>, before: (T, T) -> bool)
    requires Transitive(before) && Comparable(multiset(s), before)
    ensures Ordered(Sort(s, before), before)
    decreases |s|
  {
    if s != [] {
      var front, x := s[..|s| - 1], s[|s| - 1];
      assert s == front + [x];
      assert multiset(s) == multiset(front) + multiset{x};
      ComparablePart(multiset(front), x, before);
      SortOrders(front, before);
      var sorted := Sort(front, before);
      forall y | y in sorted ensures before(x, y) || before(y, x) {
        assert y in multiset(sorted);
      }
      InsertOrders(sorted, x, before);
    }
  }

  lemma ComparablePart<T(!new)>(m: multiset<T>, x: T, before: (T, T) -> bool)
    requires Comparable(m + multiset{x}, before)
    ensures Comparable(m, before) && x !in m
    ensures forall y :: y in m ==> before(x, y) || before(y, x)
  {
    var all := m + multiset{x};
    assert all[x] == m[x] + 1;
    forall y | y in m ensures y in all && all[y] == m[y] + (if y == x then 1 else 0) {
    }
  }

  /** Pairwise order of the positions of a sequence makes its elements comparable. */
  lemma {:induction false} PairwiseComparable<T(!new)>(s: seq<T>, before: (T, T) -> bool)
    requires Asymmetric(before)
    requires forall i, j :: 0 <= i < j < |s| ==> before(s[i], s[j]) || before(s[j], s[i])
    ensures Comparable(multiset(s), before)
    decreases |s|
  {
    if s != [] {
      var front, x := s[..|s| - 1], s[|s| - 1];
      PairwiseComparable(front, before);
      assert s == front + [x];
      assert multiset(s) == multiset(front) + multiset{x};
      forall y | y in multiset(front) ensures before(x, y) || before(y, x) {
        var i :| 0 <= i < |front| && front[i] == y;
        assert s[i] == y;
      }
      assert x !in multiset(front);
    }
  }

  lemma SameFirst<T(!new)>(a: seq<T>, b: seq<T>, before: (T, T) -> bool)
    requires Asymmetric(before) && Ordered(a, before) && Ordered(b, before) && multiset(a) == multiset(b) &&
             a != [] && b != []
    ensures a[0] == b[0]
  {
    assert a[0] in multiset(b) && b[0] in multiset(a);
    var i :| 0 <= i < |b| && b[i] == a[0];
    var j :| 0 <= j < |a| && a[j] == b[0];
    assert i == 0 || j == 0;
  }

  lemma SameRest<T>(a: seq<T>, b: seq<T>)
    requires multiset(a) == multiset(b) && a != [] && b != [] && a[0] == b[0]
    ensures multiset(a[1..]) == multiset(b[1..])
  {
    assert a == [a[0]] + a[1..] && b == [b[0]] + b[1..];
    assert multiset(a[1..]) == multiset(a) - multiset{a[0]};
    assert multiset(b[1..]) == multiset(b) - multiset{b[0]};
  }

  /** There is one strictly ordered arrangement of given elements. */
  lemma {:induction false} OrderedUnique<T(!new)>(a: seq<T>, b: seq<T>, before: (T, T) -> bool)
    requires Asymmetric(before) && Ordered(a, before) && Ordered(b, before) && multiset(a) == multiset(b)
    ensures a == b
    decreases |a|
  {
    assert |a| == |multiset(a)| == |multiset(b)| == |b|;
    if a != [] {
      SameFirst(a, b, before);
      SameRest(a, b);
      OrderedUnique(a[1..], b[1..], before);
      assert a == [a[0]] + a[1..] && b == [b[0]] + b[1..];
    }
  }

  /** Sorting distinguishable elements forgets the order they came in. */
  lemma SortIsCanonical<T(!new)>(a: seq<T>, b: seq<T>, before: (T, T) -> bool)
    requires Transitive(before) && Asymmetric(before) && Comparable(multiset(a), before) && multiset(a) == multiset(b)
    ensures Sort(a, before) == Sort(b, before)
  {
    SortOrders(a, before);
    SortOrders(b, before);
    OrderedUnique(Sort(a, before), Sort(b, before), before);
  }

  function Map<T, U>(f: T -> U, s: seq<T>): (r: seq<U>)
    ensures |r| == |s| && forall i :: 0 <= i < |s| ==> r[i] == f(s[i])
  {
    seq(|s|, i requires 0 <= i < |s| => f(s[i]))
  }

  lemma MapAppend<T, U>(f: T -> U, s: seq<T>, x: T)
    ensures Map(f, s + [x]) == Map(f, s) + [f(x)]
  {
  }

  /** Two elements are in the one order as what f shows of them is in the other. */
  ghost predicate ShownAlike<T(!new), U>(f: T -> U, before: (T, T) -> bool, after: (U, U) -> bool) {
    forall a, b :: before(a, b) <==> after(f(a), f(b))
  }

  lemma {:induction false} MapInsert<T(!new), U>(f: T -> U, s: seq<T>, x: T, before: (T, T) -> bool,
      after: (U, U) -> bool)
    requires ShownAlike(f, before, after)
    ensures Map(f, Insert(s, x, before)) == Insert(Map(f, s), f(x), after)
    decreases |s|
  {
    if s == [] || !before(x, s[|s| - 1]) {
      MapAppend(f, s, x);
    } else {
      var front, last := s[..|s| - 1], s[|s| - 1];
      assert Map(f, s)[..|s| - 1] == Map(f, front);
      MapInsert(f, front, x, before, after);
      MapAppend(f, Insert(front, x, before), last);
    }
  }

  /** Sorting by what f shows of the elements commutes with showing it. */
  lemma {:induction false} MapSort<T(!new), U>(f: T -> U, s: seq<T>, before: (T, T) -> bool, after: (U, U) -> bool)
    requires ShownAlike(f, before, after)
    ensures Map(f, Sort(s, before)) == Sort(Map(f, s), after)
    decreases |s|
  {
    if s != [] {
      var front, x := s[..|s| - 1], s[|s| - 1];
      MapSort(f, front, before, after);
      assert Map(f, s)[..|s| - 1] == Map(f, front);
      MapInsert(f, Sort(front, before), x, before, after);
    }
  }

  lemma SortOne<T>(x: T, before: (T, T) -> bool)
    ensures Sort([x], before) == [x]
  {
    assert [x][..0] == [];
    assert Sort([], before) == [] && Insert([], x, before) == [] + [x];
  }

  lemma SortPair<T>(x: T, y: T, before: (T, T) -> bool)
    ensures Sort([x, y], before) == if before(y, x) then [y, x] else [x, y]
  {
    assert [x, y][..1] == [x];
    SortOne(x, before);
    assert Insert([], y, before) == [y];
  }

  lemma MapPair<T, U>(f: T -> U, x: T, y: T)
    ensures Map(f, [x, y]) == [f(x), f(y)]
  {
  }

  lemma MapPrefix<T, U>(f: T -> U, s: seq<T>, n: nat)
    requires n <= |s|
    ensures Map(f, s[..n]) == Map(f, s)[..n]
  {
  }
}
