/** Python's stable `sorted` over any strict weak order, and distinctness of
    sequence elements. */
module Sorting {

  predicate Distinct<T(==)>(xs: seq<T>) {
    forall i, j :: 0 <= i < j < |xs| ==> xs[i] != xs[j]
  }

  lemma {:induction false} DistinctCount<T>(xs: seq<T>, x: T)
    requires Distinct(xs)
    ensures multiset(xs)[x] <= 1
  {
    if xs != [] {
      assert xs == [xs[0]] + xs[1..];
      DistinctCount(xs[1..], x);
      assert xs[0] !in xs[1..];
    }
  }

  lemma DuplicateCount<T>(ys: seq<T>, i: nat, j: nat)
    requires i < j < |ys| && ys[i] == ys[j]
    ensures multiset(ys)[ys[i]] >= 2
  {
    assert ys == ys[..j] + ys[j..];
    assert ys[i] in ys[..j];
    assert ys[j..][0] == ys[j];
    assert ys[j..] == [ys[j]] + ys[j + 1..];
  }

  /** Two duplicate-free sequences with the same elements are rearrangements
      of each other. */
  lemma DistinctSameElements<T>(xs: seq<T>, ys: seq<T>)
    requires Distinct(xs) && Distinct(ys)
    requires forall x :: x in xs <==> x in ys
    ensures multiset(xs) == multiset(ys)
  {
    forall x ensures multiset(xs)[x] == multiset(ys)[x] {
      DistinctCount(xs, x);
      DistinctCount(ys, x);
      assert x in xs <==> x in multiset(xs);
      assert x in ys <==> x in multiset(ys);
    }
  }

  /** A rearrangement of distinct elements has distinct elements. */
  lemma PermutationDistinct<T>(xs: seq<T>, ys: seq<T>)
    requires Distinct(xs) && multiset(xs) == multiset(ys)
    ensures Distinct(ys)
  {
    forall i, j | 0 <= i < j < |ys| ensures ys[i] != ys[j] {
      if ys[i] == ys[j] {
        DuplicateCount(ys, i, j);
        DistinctCount(xs, ys[i]);
      }
    }
  }

  /** Irreflexive, transitive, and "neither before the other" is transitive. */
  ghost predicate StrictWeakOrder<T(!new)>(less: (T, T) -> bool) {
    && (forall a :: !less(a, a))
    && (forall a, b, c :: less(a, b) && less(b, c) ==> less(a, c))
    && (forall a, b, c :: !less(b, a) && !less(c, b) ==> !less(c, a))
  }

  predicate Sorted<T>(less: (T, T) -> bool, xs: seq<T>) {
    forall i, j :: 0 <= i < j < |xs| ==> !less(xs[j], xs[i])
  }

  /** Every element strictly before every later one: no two keys tie. */
  predicate StrictlySorted<T>(less: (T, T) -> bool, xs: seq<T>) {
    forall i, j :: 0 <= i < j < |xs| ==> less(xs[i], xs[j])
  }

  /** Insert `x` in front of the first element that does not sort before it,
      so that it stays ahead of every element with the same key. */
  function Insert<T>(less: (T, T) -> bool, x: T, ys: seq<T>): seq<T> {
    if ys == [] || !less(ys[0], x) then [x] + ys
    else [ys[0]] + Insert(less, x, ys[1..])
  }

  /** Python's stable `sorted(xs, key=...)`. */
  function SortBy<T>(less: (T, T) -> bool, xs: seq<T>): seq<T> {
    if xs == [] then [] else Insert(less, xs[0], SortBy(less, xs[1..]))
  }

  lemma {:induction false} InsertPermutes<T>(less: (T, T) -> bool, x: T, ys: seq<T>)
    ensures multiset(Insert(less, x, ys)) == multiset(ys) + multiset{x}
  {
    if !(ys == [] || !less(ys[0], x)) {
      InsertPermutes(less, x, ys[1..]);
      assert ys == [ys[0]] + ys[1..];
    }
  }

  lemma {:induction false} InsertSorted<T(!new)>(less: (T, T) -> bool, x: T, ys: seq<T>)
    requires StrictWeakOrder(less)
    requires Sorted(less, ys)
    ensures Sorted(less, Insert(less, x, ys))
  {
    var r := Insert(less, x, ys);
    if ys == [] || !less(ys[0], x) {
      forall i, j | 0 <= i < j < |r|
        ensures !less(r[j], r[i])
      {
        if i == 0 && j > 1 {
          assert !less(ys[j - 1], ys[0]);
        }
      }
    } else {
      var tail := Insert(less, x, ys[1..]);
      InsertSorted(less, x, ys[1..]);
      InsertPermutes(less, x, ys[1..]);
      forall j | 0 <= j < |tail|
        ensures !less(tail[j], ys[0])
      {
        assert tail[j] in multiset(ys[1..]) + multiset{x};
        if tail[j] != x {
          var k :| 0 <= k < |ys[1..]| && ys[1..][k] == tail[j];
          assert ys[k + 1] == tail[j];
        }
      }
      assert r == [ys[0]] + tail;
    }
  }

  /** `sorted` returns an ordered rearrangement of its input. */
  lemma {:induction false} SortByCorrect<T(!new)>(less: (T, T) -> bool, xs: seq<T>)
    requires StrictWeakOrder(less)
    ensures Sorted(less, SortBy(less, xs))
    ensures multiset(SortBy(less, xs)) == multiset(xs)
  {
    if xs != [] {
      SortByCorrect(less, xs[1..]);
      InsertSorted(less, xs[0], SortBy(less, xs[1..]));
      InsertPermutes(less, xs[0], SortBy(less, xs[1..]));
      assert xs == [xs[0]] + xs[1..];
    }
  }

  /** Neither sorts before the other. */
  predicate Tied<T>(less: (T, T) -> bool, a: T, b: T) {
    !less(a, b) && !less(b, a)
  }

  /** The elements of `xs` that tie with `y`, in their order in `xs`. */
  function TiedWith<T>(less: (T, T) -> bool, y: T, xs: seq<T>): (r: seq<T>)
    ensures |r| <= |xs|
  {
    if xs == [] then []
    else (if Tied(less, xs[0], y) then [xs[0]] else []) + TiedWith(less, y, xs[1..])
  }

  /** Inserting `x` puts it ahead of every element it ties with, so among
      the elements tied with `y` it comes first, and only if it ties too. */
  lemma {:induction false} InsertStable<T(!new)>(less: (T, T) -> bool, x: T, ys: seq<T>, y: T)
    requires StrictWeakOrder(less)
    ensures TiedWith(less, y, Insert(less, x, ys)) == (if Tied(less, x, y) then [x] else []) + TiedWith(less, y, ys)
  {
    var r := Insert(less, x, ys);
    if ys == [] || !less(ys[0], x) {
      assert r[0] == x && r[1..] == ys;
    } else {
      var rest := Insert(less, x, ys[1..]);
      InsertStable(less, x, ys[1..], y);
      assert r[0] == ys[0] && r[1..] == rest;
      var head := if Tied(less, ys[0], y) then [ys[0]] else [];
      assert TiedWith(less, y, r) == head + TiedWith(less, y, rest);
      assert TiedWith(less, y, ys) == head + TiedWith(less, y, ys[1..]);
      if Tied(less, x, y) {
        TiedThrough(less, ys[0], y, x);
        assert head == [];
      } else {
        assert TiedWith(less, y, rest) == TiedWith(less, y, ys[1..]);
      }
    }
  }

  /** What sorts before `x` cannot tie with something `x` ties with. */
  lemma TiedThrough<T(!new)>(less: (T, T) -> bool, e: T, y: T, x: T)
    requires StrictWeakOrder(less)
    requires less(e, x) && Tied(less, x, y)
    ensures !Tied(less, e, y)
  {
    assert !less(y, x) && !less(e, y) ==> !less(e, x);
  }

  /** `sorted` is stable: the elements that tie with any `y` come out in
      the order they went in. */
  lemma {:induction false} SortByStable<T(!new)>(less: (T, T) -> bool, xs: seq<T>, y: T)
    requires StrictWeakOrder(less)
    ensures TiedWith(less, y, SortBy(less, xs)) == TiedWith(less, y, xs)
  {
    if xs != [] {
      SortByStable(less, xs[1..], y);
      InsertStable(less, xs[0], SortBy(less, xs[1..]), y);
    }
  }

  /** Two elements already in order stay in order. */
  lemma SortByPair<T>(less: (T, T) -> bool, a: T, b: T)
    requires !less(b, a)
    ensures SortBy(less, [a, b]) == [a, b]
  {
    assert [a, b][1..] == [b];
    assert [b][1..] == [];
    assert SortBy(less, [b]) == Insert(less, b, []) == [b];
  }

  /** When no two keys tie there is only one ordered rearrangement. */
  lemma {:induction false} SortedUnique<T(!new)>(less: (T, T) -> bool, xs: seq<T>, ys: seq<T>)
    requires StrictWeakOrder(less)
    requires StrictlySorted(less, xs) && Sorted(less, ys)
    requires multiset(xs) == multiset(ys)
    ensures xs == ys
    decreases |xs|
  {
    assert |xs| == |multiset(xs)| == |ys|;
    if xs != [] {
      SameHead(less, xs, ys);
      TailMultiset(xs);
      TailMultiset(ys);
      SortedTail(less, xs);
      SortedTail(less, ys);
      SortedUnique(less, xs[1..], ys[1..]);
      HeadTail(xs, ys);
    }
  }

  lemma SameHead<T(!new)>(less: (T, T) -> bool, xs: seq<T>, ys: seq<T>)
    requires StrictWeakOrder(less)
    requires StrictlySorted(less, xs) && Sorted(less, ys)
    requires multiset(xs) == multiset(ys) && xs != [] && ys != []
    ensures xs[0] == ys[0]
  {
    assert ys[0] in multiset(xs) && xs[0] in multiset(ys);
    FirstIsLeast(less, ys, xs[0]);
  }

  lemma FirstIsLeast<T(!new)>(less: (T, T) -> bool, ys: seq<T>, y: T)
    requires StrictWeakOrder(less)
    requires Sorted(less, ys) && y in ys
    ensures !less(y, ys[0])
  {
    var l :| 0 <= l < |ys| && ys[l] == y;
  }

  lemma SortedTail<T>(less: (T, T) -> bool, xs: seq<T>)
    requires xs != []
    ensures Sorted(less, xs) ==> Sorted(less, xs[1..])
    ensures StrictlySorted(less, xs) ==> StrictlySorted(less, xs[1..])
  {
  }

  lemma HeadTail<T>(xs: seq<T>, ys: seq<T>)
    requires xs != [] && ys != [] && xs[0] == ys[0] && xs[1..] == ys[1..]
    ensures xs == ys
  {
    assert xs == [xs[0]] + xs[1..];
    assert ys == [ys[0]] + ys[1..];
  }

  lemma TailMultiset<T>(xs: seq<T>)
    requires xs != []
    ensures multiset(xs[1..]) == multiset(xs) - multiset{xs[0]}
  {
    assert xs == [xs[0]] + xs[1..];
  }
}
