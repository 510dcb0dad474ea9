// Sequence facts shared by the ledger and the reconciler: sums over a sequence,
// filtering, and the stable sort behind Python's `sorted`.

module Sequences {

  /** The sum of `weight` over the items of `xs`. */
  function SumBy<T>(xs: seq<T>, weight: T -> int): int {
    if xs == [] then 0 else SumBy(xs[..|xs| - 1], weight) + weight(xs[|xs| - 1])
  }

  /** The items of `xs` that satisfy `keep`, in their original order. */
  function Filter<T>(xs: seq<T>, keep: T -> bool): seq<T> {
    if xs == [] then []
    else
      var last := xs[|xs| - 1];
      Filter(xs[..|xs| - 1], keep) + (if keep(last) then [last] else [])
  }

  lemma {:induction false} FilterMembers<T(!new)>(xs: seq<T>, keep: T -> bool)
    ensures |Filter(xs, keep)| <= |xs|
    ensures forall y :: y in Filter(xs, keep) <==> y in xs && keep(y)
  {
    if xs != [] {
      FilterMembers(xs[..|xs| - 1], keep);
      assert xs == xs[..|xs| - 1] + [xs[|xs| - 1]];
    }
  }

  lemma SumByAppend<T>(xs: seq<T>, x: T, weight: T -> int)
    ensures SumBy(xs + [x], weight) == SumBy(xs, weight) + weight(x)
  {
    assert (xs + [x])[..|xs|] == xs;
  }

  lemma {:induction false} SumByConcat<T>(xs: seq<T>, ys: seq<T>, weight: T -> int)
    ensures SumBy(xs + ys, weight) == SumBy(xs, weight) + SumBy(ys, weight)
  {
    if ys == [] {
      assert xs + ys == xs;
    } else {
      var last := |ys| - 1;
      assert xs + ys == (xs + ys[..last]) + [ys[last]];
      SumByAppend(xs + ys[..last], ys[last], weight);
      SumByConcat(xs, ys[..last], weight);
    }
  }

  lemma SumByCons<T>(x: T, xs: seq<T>, weight: T -> int)
    ensures SumBy([x] + xs, weight) == weight(x) + SumBy(xs, weight)
  {
    SumByConcat([x], xs, weight);
    assert [x][..0] == [];
  }

  /** A sum does not depend on the order of its items. */
  lemma {:induction false} SumByPermutation<T>(xs: seq<T>, ys: seq<T>, weight: T -> int)
    requires multiset(xs) == multiset(ys)
    ensures SumBy(xs, weight) == SumBy(ys, weight)
  {
    if xs == [] {
      assert ys == [] by { assert |multiset(ys)| == 0; }
    } else {
      var last := |xs| - 1;
      var x := xs[last];
      assert xs == xs[..last] + [x];
      assert x in multiset(ys);
      var k :| 0 <= k < |ys| && ys[k] == x;
      var without := ys[..k] + ys[k + 1..];
      assert ys == ys[..k] + [x] + ys[k + 1..];
      assert multiset(without) == multiset(ys) - multiset{x};
      assert multiset(xs[..last]) == multiset(xs) - multiset{x};
      SumByPermutation(xs[..last], without, weight);
      SumByConcat(ys[..k], ys[k + 1..], weight);
      SumByConcat(ys[..k] + [x], ys[k + 1..], weight);
      SumByAppend(ys[..k], x, weight);
    }
  }

  lemma {:induction false} SumByPointwise<T>(xs: seq<T>, f: T -> int, g: T -> int, h: T -> int)
    requires forall x :: x in xs ==> f(x) == g(x) + h(x)
    ensures SumBy(xs, f) == SumBy(xs, g) + SumBy(xs, h)
  {
    if xs != [] {
      assert xs[|xs| - 1] in xs;
      assert forall x :: x in xs[..|xs| - 1] ==> x in xs;
      SumByPointwise(xs[..|xs| - 1], f, g, h);
    }
  }

  lemma {:induction false} SumByCongruent<T>(xs: seq<T>, f: T -> int, g: T -> int)
    requires forall x :: x in xs ==> f(x) == g(x)
    ensures SumBy(xs, f) == SumBy(xs, g)
  {
    if xs != [] {
      assert xs[|xs| - 1] in xs;
      assert forall x :: x in xs[..|xs| - 1] ==> x in xs;
      SumByCongruent(xs[..|xs| - 1], f, g);
    }
  }

  lemma {:induction false} SumByNonNegative<T>(xs: seq<T>, weight: T -> int)
    requires forall x :: x in xs ==> 0 <= weight(x)
    ensures 0 <= SumBy(xs, weight)
    ensures forall x :: x in xs ==> weight(x) <= SumBy(xs, weight)
  {
    if xs != [] {
      var last := |xs| - 1;
      assert xs[last] in xs;
      assert forall x :: x in xs ==> x in xs[..last] || x == xs[last];
      SumByNonNegative(xs[..last], weight);
    }
  }

  lemma FilterAppend<T>(xs: seq<T>, x: T, keep: T -> bool)
    ensures Filter(xs + [x], keep) == Filter(xs, keep) + (if keep(x) then [x] else [])
  {
    assert (xs + [x])[..|xs|] == xs;
  }

  lemma {:induction false} FilterConcat<T>(xs: seq<T>, ys: seq<T>, keep: T -> bool)
    ensures Filter(xs + ys, keep) == Filter(xs, keep) + Filter(ys, keep)
  {
    if ys == [] {
      assert xs + ys == xs;
    } else {
      var last := |ys| - 1;
      assert xs + ys == (xs + ys[..last]) + [ys[last]];
      FilterAppend(xs + ys[..last], ys[last], keep);
      FilterConcat(xs, ys[..last], keep);
    }
  }

  /** What one item adds to a filtered sum. */
  lemma FilterSum<T>(xs: seq<T>, x: T, keep: T -> bool, weight: T -> int)
    ensures SumBy(Filter(xs + [x], keep), weight) == SumBy(Filter(xs, keep), weight) + (if keep(x) then weight(x) else 0)
  {
    FilterAppend(xs, x, keep);
    SumByAppend(Filter(xs, keep), x, weight);
    assert Filter(xs, keep) + [] == Filter(xs, keep);
  }

  lemma FilterCons<T>(x: T, xs: seq<T>, keep: T -> bool)
    ensures Filter([x] + xs, keep) == (if keep(x) then [x] else []) + Filter(xs, keep)
  {
    FilterConcat([x], xs, keep);
    assert [x] == [] + [x];
    FilterAppend([], x, keep);
  }

  // ---------------------------------------------------------------- sorting

  ghost predicate TotalPreorder<T(!new)>(leq: (T, T) -> bool) {
    && (forall x, y :: leq(x, y) || leq(y, x))
    && (forall x, y, z :: leq(x, y) && leq(y, z) ==> leq(x, z))
  }

  ghost predicate SortedBy<T>(xs: seq<T>, leq: (T, T) -> bool) {
    forall i, j :: 0 <= i < j < |xs| ==> leq(xs[i], xs[j])
  }

  /** Places `x` before the first item it does not exceed, so ties keep `x` first. */
  function Insert<T>(x: T, xs: seq<T>, leq: (T, T) -> bool): seq<T> {
    if xs == [] || leq(x, xs[0]) then [x] + xs else [xs[0]] + Insert(x, xs[1..], leq)
  }

  /** A stable sort: what Python's `sorted` promises. */
  function StableSort<T>(xs: seq<T>, leq: (T, T) -> bool): seq<T> {
    if xs == [] then [] else Insert(xs[0], StableSort(xs[1..], leq), leq)
  }

  lemma {:induction false} InsertPermutes<T>(x: T, xs: seq<T>, leq: (T, T) -> bool)
    ensures multiset(Insert(x, xs, leq)) == multiset(xs) + multiset{x}
  {
    if !(xs == [] || leq(x, xs[0])) {
      InsertPermutes(x, xs[1..], leq);
      assert xs == [xs[0]] + xs[1..];
    }
  }

  lemma {:induction false} StableSortPermutes<T>(xs: seq<T>, leq: (T, T) -> bool)
    ensures multiset(StableSort(xs, leq)) == multiset(xs)
    ensures |StableSort(xs, leq)| == |xs|
    ensures forall x :: x in StableSort(xs, leq) <==> x in xs
  {
    if xs != [] {
      StableSortPermutes(xs[1..], leq);
      InsertPermutes(xs[0], StableSort(xs[1..], leq), leq);
      assert xs == [xs[0]] + xs[1..];
    }
    hide StableSort;
    SameBag(StableSort(xs, leq), xs);
  }

  lemma SameBag<T>(xs: seq<T>, ys: seq<T>)
    requires multiset(xs) == multiset(ys)
    ensures |xs| == |ys|
    ensures forall x :: x in xs <==> x in ys
  {
    assert |multiset(xs)| == |xs| && |multiset(ys)| == |ys|;
    assert forall x :: x in xs <==> x in multiset(xs);
    assert forall x :: x in ys <==> x in multiset(ys);
  }

  lemma {:induction false} InsertSorted<T(!new)>(x: T, xs: seq<T>, leq: (T, T) -> bool)
    requires TotalPreorder(leq) && SortedBy(xs, leq)
    ensures SortedBy(Insert(x, xs, leq), leq)
  {
    if !(xs == [] || leq(x, xs[0])) {
      InsertSorted(x, xs[1..], leq);
      InsertPermutes(x, xs[1..], leq);
      var rest := Insert(x, xs[1..], leq);
      forall j | 0 <= j < |rest|
        ensures leq(xs[0], rest[j])
      {
        assert rest[j] in multiset(rest);
        assert rest[j] == x || rest[j] in xs[1..];
      }
    } else if xs != [] {
      forall j | 0 <= j < |xs|
        ensures leq(x, xs[j])
      {
        if j > 0 { assert leq(xs[0], xs[j]); }
      }
    }
  }

  lemma {:induction false} StableSortSorts<T(!new)>(xs: seq<T>, leq: (T, T) -> bool)
    requires TotalPreorder(leq)
    ensures SortedBy(StableSort(xs, leq), leq)
  {
    if xs != [] {
      StableSortSorts(xs[1..], leq);
      InsertSorted(xs[0], StableSort(xs[1..], leq), leq);
    }
  }

  lemma HeadIsLeast<T(!new)>(xs: seq<T>, z: T, leq: (T, T) -> bool)
    requires TotalPreorder(leq) && SortedBy(xs, leq)
    requires z in xs
    ensures leq(xs[0], z)
  {
    var i :| 0 <= i < |xs| && xs[i] == z;
    assert i == 0 ==> leq(z, z) || leq(z, z);
  }

  lemma DropHead<T>(xs: seq<T>, ys: seq<T>)
    requires xs != [] && ys != [] && xs[0] == ys[0]
    requires multiset(xs) == multiset(ys)
    ensures multiset(xs[1..]) == multiset(ys[1..])
  {
    assert xs == [xs[0]] + xs[1..] && ys == [ys[0]] + ys[1..];
    assert multiset(xs[1..]) == multiset(xs) - multiset{xs[0]};
    assert multiset(ys[1..]) == multiset(ys) - multiset{ys[0]};
  }

  /** Two sorted arrangements of the same items agree when no two items tie. */
  lemma {:induction false} SortedUnique<T(!new)>(xs: seq<T>, ys: seq<T>, leq: (T, T) -> bool)
    requires TotalPreorder(leq)
    requires SortedBy(xs, leq) && SortedBy(ys, leq)
    requires multiset(xs) == multiset(ys)
    requires forall x, y :: x in xs && y in xs && leq(x, y) && leq(y, x) ==> x == y
    ensures xs == ys
  {
    assert |xs| == |multiset(xs)| == |multiset(ys)| == |ys|;
    if xs != [] {
      assert ys[0] in multiset(ys) && xs[0] in multiset(xs);
      assert ys[0] in xs && xs[0] in ys;
      HeadIsLeast(xs, ys[0], leq);
      HeadIsLeast(ys, xs[0], leq);
      DropHead(xs, ys);
      assert forall x :: x in xs[1..] ==> x in xs;
      SortedTail(xs, leq);
      SortedTail(ys, leq);
      SortedUnique(xs[1..], ys[1..], leq);
    }
  }

  lemma SortedTail<T>(xs: seq<T>, leq: (T, T) -> bool)
    requires xs != [] && SortedBy(xs, leq)
    ensures SortedBy(xs[1..], leq)
  {
    forall i, j | 0 <= i < j < |xs| - 1
      ensures leq(xs[1..][i], xs[1..][j])
    {
      assert leq(xs[i + 1], xs[j + 1]);
    }
  }

  lemma {:induction false} InsertFilter<T(!new)>(x: T, xs: seq<T>, leq: (T, T) -> bool, keep: T -> bool)
    requires keep(x) ==> forall y :: y in xs && keep(y) ==> leq(x, y)
    ensures Filter(Insert(x, xs, leq), keep) == (if keep(x) then [x] else []) + Filter(xs, keep)
  {
    if xs == [] || leq(x, xs[0]) {
      FilterCons(x, xs, keep);
    } else {
      InsertFilter(x, xs[1..], leq, keep);
      FilterCons(xs[0], Insert(x, xs[1..], leq), keep);
      FilterCons(xs[0], xs[1..], keep);
      assert xs == [xs[0]] + xs[1..];
    }
  }

  /** Stability: items of one kind that already stand in order keep that order. */
  lemma {:induction false} StableSortKeepsOrder<T(!new)>(xs: seq<T>, leq: (T, T) -> bool, keep: T -> bool)
    requires forall i, j :: 0 <= i < j < |xs| && keep(xs[i]) && keep(xs[j]) ==> leq(xs[i], xs[j])
    ensures Filter(StableSort(xs, leq), keep) == Filter(xs, keep)
  {
    if xs != [] {
      StableSortKeepsOrder(xs[1..], leq, keep);
      StableSortPermutes(xs[1..], leq);
      InsertFilter(xs[0], StableSort(xs[1..], leq), leq, keep);
      FilterCons(xs[0], xs[1..], keep);
      assert xs == [xs[0]] + xs[1..];
    }
  }
}
