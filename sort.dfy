/** `sort.Slice` with a `less` comparator, as the printers use it: the result
    is an ascending permutation of the input. The model sorts by insertion,
    which keeps equal elements in their input order. */
module Sorting {

  /** `less` is a strict order (the contract `sort.Slice` asks of it). */
  ghost predicate StrictOrder<T(!new)>(less: (T, T) -> bool)
  {
    (forall a :: !less(a, a))
    && (forall a, b, c :: less(a, b) && less(b, c) ==> less(a, c))
  }

  /** Ascending: no element is less than one before it. */
  predicate SortedBy<T(==)>(less: (T, T) -> bool, xs: seq<T>)
  {
    forall i, j :: 0 <= i < j < |xs| ==> !less(xs[j], xs[i])
  }

  /** Any two different elements of `xs` are ordered one way or the other. */
  predicate TotalOn<T(==)>(less: (T, T) -> bool, xs: seq<T>)
  {
    forall i, j :: 0 <= i < |xs| && 0 <= j < |xs| && xs[i] != xs[j] ==> less(xs[i], xs[j]) || less(xs[j], xs[i])
  }

  /** Insertion after every element that `x` is not less than. */
  function InsertBy<T(==)>(less: (T, T) -> bool, x: T, ys: seq<T>): (r: seq<T>)
    ensures multiset(r) == multiset(ys) + multiset{x}
    decreases |ys|
  {
    if |ys| == 0 then [x]
    else if less(x, ys[0]) then [x] + ys
    else
      assert ys == [ys[0]] + ys[1..];
      [ys[0]] + InsertBy(less, x, ys[1..])
  }

  function SortBy<T(==)>(less: (T, T) -> bool, xs: seq<T>): (r: seq<T>)
    ensures |r| == |xs|
    decreases |xs|
  {
    if |xs| == 0 then []
    else
      var r := InsertBy(less, xs[|xs| - 1], SortBy(less, xs[..|xs| - 1]));
      assert |r| == |multiset(r)|;
      r
  }

  lemma {:induction false} InsertSorted<T(!new)>(less: (T, T) -> bool, x: T, ys: seq<T>)
    requires StrictOrder(less)
    requires SortedBy(less, ys)
    ensures SortedBy(less, InsertBy(less, x, ys))
    decreases |ys|
  {
    if |ys| == 0 {
    } else if less(x, ys[0]) {
      assert forall k :: 0 <= k < |ys| ==> !less(ys[k], ys[0]);
    } else {
      var rest := InsertBy(less, x, ys[1..]);
      InsertSorted(less, x, ys[1..]);
      assert ys == [ys[0]] + ys[1..];
      forall k | 0 <= k < |rest| ensures !less(rest[k], ys[0]) {
        assert rest[k] in multiset(ys[1..]) + multiset{x};
        if rest[k] != x {
          assert rest[k] in ys[1..];
        }
      }
    }
  }

  /** The sort yields an ascending permutation of its input. */
  lemma {:induction false} SortBySortedPermutation<T(!new)>(less: (T, T) -> bool, xs: seq<T>)
    requires StrictOrder(less)
    ensures SortedBy(less, SortBy(less, xs))
    ensures multiset(SortBy(less, xs)) == multiset(xs)
    decreases |xs|
  {
    if |xs| > 0 {
      var init := xs[..|xs| - 1];
      SortBySortedPermutation(less, init);
      InsertSorted(less, xs[|xs| - 1], SortBy(less, init));
      assert xs == init + [xs[|xs| - 1]];
    }
  }

  /** An already ascending input comes back unchanged. */
  lemma {:induction false} SortedIdentity<T>(less: (T, T) -> bool, xs: seq<T>)
    requires SortedBy(less, xs)
    ensures SortBy(less, xs) == xs
    decreases |xs|
  {
    if |xs| > 0 {
      var init := xs[..|xs| - 1];
      assert SortedBy(less, init);
      SortedIdentity(less, init);
      InsertAtEnd(less, xs[|xs| - 1], init);
      assert init + [xs[|xs| - 1]] == xs;
    }
  }

  lemma {:induction false} InsertAtEnd<T>(less: (T, T) -> bool, x: T, ys: seq<T>)
    requires forall k :: 0 <= k < |ys| ==> !less(x, ys[k])
    ensures InsertBy(less, x, ys) == ys + [x]
    decreases |ys|
  {
    if |ys| > 0 {
      InsertAtEnd(less, x, ys[1..]);
      assert ys == [ys[0]] + ys[1..];
    }
  }

  lemma SortedFirst<T(!new)>(less: (T, T) -> bool, a: seq<T>, x: T)
    requires StrictOrder(less) && SortedBy(less, a) && |a| > 0 && x in a
    ensures !less(x, a[0])
  {
    var i :| 0 <= i < |a| && a[i] == x;
  }

  lemma SortedTail<T>(less: (T, T) -> bool, a: seq<T>)
    requires SortedBy(less, a) && |a| > 0
    ensures SortedBy(less, a[1..])
  {
    forall i, j | 0 <= i < j < |a| - 1 ensures !less(a[1..][j], a[1..][i]) {
      assert a[1..][j] == a[j + 1] && a[1..][i] == a[i + 1];
    }
  }

  lemma TotalOnTail<T>(less: (T, T) -> bool, a: seq<T>)
    requires TotalOn(less, a) && |a| > 0
    ensures TotalOn(less, a[1..])
  {
    forall i, j | 0 <= i < |a| - 1 && 0 <= j < |a| - 1 && a[1..][i] != a[1..][j]
      ensures less(a[1..][i], a[1..][j]) || less(a[1..][j], a[1..][i])
    {
      assert a[1..][i] == a[i + 1] && a[1..][j] == a[j + 1];
    }
  }

  /** Two ascending sequences with the same elements, totally ordered among
      themselves, are the same sequence. */
  lemma {:induction false} SortedUnique<T(!new)>(less: (T, T) -> bool, a: seq<T>, b: seq<T>)
    requires StrictOrder(less)
    requires SortedBy(less, a) && SortedBy(less, b)
    requires multiset(a) == multiset(b)
    requires TotalOn(less, a)
    ensures a == b
    decreases |a|
  {
    assert |b| == |multiset(b)| == |multiset(a)| == |a|;
    if |a| > 0 {
      SortedSameFirst(less, a, b);
      MultisetTail(a);
      MultisetTail(b);
      SortedTail(less, a);
      SortedTail(less, b);
      TotalOnTail(less, a);
      SortedUnique(less, a[1..], b[1..]);
      assert a == [a[0]] + a[1..] && b == [b[0]] + b[1..];
    }
  }

  /** Two ascending sequences with the same elements start with the same one. */
  lemma SortedSameFirst<T(!new)>(less: (T, T) -> bool, a: seq<T>, b: seq<T>)
    requires StrictOrder(less)
    requires SortedBy(less, a) && SortedBy(less, b)
    requires multiset(a) == multiset(b) && |a| > 0 && |b| > 0
    requires TotalOn(less, a)
    ensures a[0] == b[0]
  {
    assert a[0] in multiset(b) && b[0] in multiset(a);
    SortedFirst(less, b, a[0]);
    SortedFirst(less, a, b[0]);
    var j :| 0 <= j < |a| && a[j] == b[0];
  }

  /** Dropping the first element drops one copy of it from the multiset. */
  lemma MultisetTail<T>(a: seq<T>)
    requires |a| > 0
    ensures multiset(a[1..]) == multiset(a) - multiset{a[0]}
  {
    assert a == [a[0]] + a[1..];
  }

  /** Sorting the same elements in any order gives one result when they are
      totally ordered among themselves. */
  lemma SortOrderIndependent<T(!new)>(less: (T, T) -> bool, xs: seq<T>, ys: seq<T>)
    requires StrictOrder(less)
    requires multiset(xs) == multiset(ys)
    requires TotalOn(less, xs)
    ensures SortBy(less, xs) == SortBy(less, ys)
  {
    var a := SortBy(less, xs);
    var b := SortBy(less, ys);
    SortBySortedPermutation(less, xs);
    SortBySortedPermutation(less, ys);
    forall i, j | 0 <= i < |a| && 0 <= j < |a| && a[i] != a[j] ensures less(a[i], a[j]) || less(a[j], a[i]) {
      assert a[i] in multiset(xs) && a[j] in multiset(xs);
      var i' :| 0 <= i' < |xs| && xs[i'] == a[i];
      var j' :| 0 <= j' < |xs| && xs[j'] == a[j];
    }
    SortedUnique(less, a, b);
  }

  /** Three elements listed as second, third, first come out in order. */
  lemma SortRotated<T(!new)>(less: (T, T) -> bool, x: T, y: T, z: T)
    requires StrictOrder(less)
    requires less(x, y) && less(y, z)
    ensures SortBy(less, [y, z, x]) == [x, y, z]
  {
    assert [y, z, x][..2] == [y, z];
    assert [y, z][..1] == [y];
    assert [y][..0] == [];
    assert SortBy(less, [y]) == [y];
    assert !less(z, y);
    assert InsertBy(less, z, [y]) == [y, z];
    assert SortBy(less, [y, z]) == [y, z];
  }
}
