/** Generic sequence helpers shared by every view of the delivery ledger:
    order-preserving filtering, integer folds, mapping, de-duplication and a
    stable insertion sort.  Each is stated once here and instantiated by the
    component modules. */
module Seqs {

  /** `a` can be obtained from `b` by deleting elements (order is kept). */
  predicate Subseq<T(==,!new)>(a: seq<T>, b: seq<T>)
    decreases |b|
  {
    |a| == 0 || (|b| > 0 && ((a[0] == b[0] && Subseq(a[1..], b[1..])) || Subseq(a, b[1..])))
  }

  /** No element occurs twice. */
  predicate NoDups<T(==,!new)>(xs: seq<T>) {
    forall i, j :: 0 <= i < j < |xs| ==> xs[i] != xs[j]
  }

  /** The elements of `xs` that satisfy `keep`, in their original order
      (JavaScript's `Array.prototype.filter`). */
  function Filter<T(==,!new)>(xs: seq<T>, keep: T -> bool): (r: seq<T>)
    ensures |r| <= |xs|
    ensures forall i :: 0 <= i < |r| ==> keep(r[i])
    ensures forall x :: x in r <==> x in xs && keep(x)
    ensures Subseq(r, xs)
    ensures (forall i :: 0 <= i < |xs| ==> keep(xs[i])) ==> r == xs
  {
    if |xs| == 0 then []
    else if keep(xs[0]) then [xs[0]] + Filter(xs[1..], keep)
    else Filter(xs[1..], keep)
  }

  /** A filter keeps every copy of a kept element and no copy of the
      others. */
  lemma {:induction false} FilterCounts<T(!new)>(xs: seq<T>, keep: T -> bool)
    ensures forall x :: multiset(Filter(xs, keep))[x] == if keep(x) then multiset(xs)[x] else 0
    decreases |xs|
  {
    if |xs| > 0 {
      FilterCounts(xs[1..], keep);
      assert xs == [xs[0]] + xs[1..];
    }
  }

  /** Filtering a sequence extended by one element. */
  lemma {:induction false} FilterSnoc<T(!new)>(xs: seq<T>, x: T, keep: T -> bool)
    ensures Filter(xs + [x], keep) == Filter(xs, keep) + (if keep(x) then [x] else [])
    decreases |xs|
  {
    if |xs| > 0 {
      assert (xs + [x])[1..] == xs[1..] + [x];
      FilterSnoc(xs[1..], x, keep);
    }
  }

  /** Two successive filters are one filter by the conjunction. */
  lemma {:induction false} FilterFilter<T(!new)>(xs: seq<T>, p: T -> bool, q: T -> bool, pq: T -> bool)
    requires forall x :: pq(x) == (p(x) && q(x))
    ensures Filter(Filter(xs, p), q) == Filter(xs, pq)
    decreases |xs|
  {
    if |xs| > 0 {
      FilterFilter(xs[1..], p, q, pq);
    }
  }

  /** Filters by equivalent predicates agree. */
  lemma {:induction false} FilterExt<T(!new)>(xs: seq<T>, p: T -> bool, q: T -> bool)
    requires forall x :: x in xs ==> p(x) == q(x)
    ensures Filter(xs, p) == Filter(xs, q)
    decreases |xs|
  {
    if |xs| > 0 {
      FilterExt(xs[1..], p, q);
    }
  }

  /** A filter and its complement split the input: nothing is lost or
      duplicated. */
  lemma FilterPartition<T(!new)>(xs: seq<T>, p: T -> bool, notP: T -> bool)
    requires forall x :: notP(x) == !p(x)
    ensures |Filter(xs, p)| + |Filter(xs, notP)| == |xs|
    ensures multiset(Filter(xs, p)) + multiset(Filter(xs, notP)) == multiset(xs)
  {
    FilterCounts(xs, p);
    FilterCounts(xs, notP);
    assert multiset(Filter(xs, p)) + multiset(Filter(xs, notP)) == multiset(xs);
    assert |multiset(Filter(xs, p)) + multiset(Filter(xs, notP))| == |multiset(xs)|;
  }

  /** Left fold of `acc + f(x)` from 0 (JavaScript's `reduce((acc, x) => acc + f(x), 0)`). */
  function Sum<T>(xs: seq<T>, f: T -> int): int
  {
    if |xs| == 0 then 0 else f(xs[0]) + Sum(xs[1..], f)
  }

  lemma {:induction false} SumAppend<T>(a: seq<T>, b: seq<T>, f: T -> int)
    ensures Sum(a + b, f) == Sum(a, f) + Sum(b, f)
    decreases |a|
  {
    if |a| > 0 {
      assert (a + b)[1..] == a[1..] + b;
      SumAppend(a[1..], b, f);
    } else {
      assert a + b == b;
    }
  }

  lemma SumSnoc<T>(xs: seq<T>, x: T, f: T -> int)
    ensures Sum(xs + [x], f) == Sum(xs, f) + f(x)
  {
    SumAppend(xs, [x], f);
    assert Sum([x], f) == f(x) + Sum([x][1..], f);
  }

  /** Replacing one term changes the sum by the difference. */
  lemma {:induction false} SumUpdate<T>(xs: seq<T>, k: nat, v: T, f: T -> int)
    requires k < |xs|
    ensures Sum(xs[k := v], f) == Sum(xs, f) - f(xs[k]) + f(v)
    decreases |xs|
  {
    if k > 0 {
      SumUpdate(xs[1..], k - 1, v, f);
      assert xs[k := v][1..] == xs[1..][k - 1 := v];
    }
  }

  /** A sum does not depend on the order of its terms. */
  lemma {:induction false} SumPermutation<T>(a: seq<T>, b: seq<T>, f: T -> int)
    requires multiset(a) == multiset(b)
    ensures Sum(a, f) == Sum(b, f)
    decreases |a|
  {
    if |a| == 0 {
      assert |b| == |multiset(b)| == 0;
    } else {
      assert a[0] in multiset(b);
      var k :| 0 <= k < |b| && b[k] == a[0];
      RemoveMatching(a, b, k);
      SumPermutation(a[1..], b[..k] + b[k + 1..], f);
      SumRemove(b, k, f);
    }
  }

  /** Taking the same element out of two permutations leaves permutations. */
  lemma RemoveMatching<T>(a: seq<T>, b: seq<T>, k: nat)
    requires |a| > 0 && k < |b| && b[k] == a[0]
    requires multiset(a) == multiset(b)
    ensures multiset(a[1..]) == multiset(b[..k] + b[k + 1..])
  {
    SplitAt(b, k);
    assert a == [a[0]] + a[1..];
    assert multiset(b) == multiset(b[..k] + b[k + 1..]) + multiset{b[k]};
    assert multiset(a) == multiset(a[1..]) + multiset{a[0]};
    assert multiset(a[1..]) == multiset(a) - multiset{a[0]};
    assert multiset(b[..k] + b[k + 1..]) == multiset(b) - multiset{b[k]};
  }

  /** A sum is any one term plus the sum of the others. */
  lemma SumRemove<T>(b: seq<T>, k: nat, f: T -> int)
    requires k < |b|
    ensures Sum(b, f) == f(b[k]) + Sum(b[..k] + b[k + 1..], f)
  {
    var front, x, back := b[..k], b[k], b[k + 1..];
    SplitAt(b, k);
    SumAppend(front + [x], back, f);
    SumSnoc(front, x, f);
    SumAppend(front, back, f);
  }

  lemma SplitAt<T>(b: seq<T>, k: nat)
    requires k < |b|
    ensures b == (b[..k] + [b[k]]) + b[k + 1..]
  {
  }

  /** Sums of pointwise sums. */
  lemma {:induction false} SumAdd<T>(xs: seq<T>, f: T -> int, g: T -> int, h: T -> int)
    requires forall x :: h(x) == f(x) + g(x)
    ensures Sum(xs, h) == Sum(xs, f) + Sum(xs, g)
    decreases |xs|
  {
    if |xs| > 0 {
      SumAdd(xs[1..], f, g, h);
    }
  }

  /** Constant factors move out of a sum. */
  lemma {:induction false} SumScale<T>(xs: seq<T>, c: int, f: T -> int, h: T -> int)
    requires forall x :: h(x) == c * f(x)
    ensures Sum(xs, h) == c * Sum(xs, f)
    decreases |xs|
  {
    if |xs| > 0 {
      SumScale(xs[1..], c, f, h);
      assert Sum(xs, h) == c * f(xs[0]) + c * Sum(xs[1..], f);
    }
  }

  /** Sums over sequences that agree term by term are equal. */
  lemma {:induction false} SumPointwise<A, B>(xs: seq<A>, ys: seq<B>, f: A -> int, g: B -> int)
    requires |xs| == |ys|
    requires forall i :: 0 <= i < |xs| ==> f(xs[i]) == g(ys[i])
    ensures Sum(xs, f) == Sum(ys, g)
    decreases |xs|
  {
    if |xs| > 0 {
      SumPointwise(xs[1..], ys[1..], f, g);
    }
  }

  /** `xs.map(m)`. */
  function Map<A, B>(xs: seq<A>, m: A -> B): (r: seq<B>)
    ensures |r| == |xs|
    ensures forall i :: 0 <= i < |xs| ==> r[i] == m(xs[i])
  {
    if |xs| == 0 then [] else [m(xs[0])] + Map(xs[1..], m)
  }

  lemma MapAppend<A, B>(a: seq<A>, b: seq<A>, m: A -> B)
    ensures Map(a + b, m) == Map(a, m) + Map(b, m)
  {
  }

  /** `[...new Set(xs)]`: the distinct elements in order of first occurrence. */
  function Dedup<T(==,!new)>(xs: seq<T>): (r: seq<T>)
    ensures NoDups(r)
    ensures forall x :: x in r <==> x in xs
    ensures |r| <= |xs|
    ensures |xs| > 0 ==> |r| > 0 && r[0] == xs[0]
    decreases |xs|
  {
    if |xs| == 0 then []
    else
      var last := xs[|xs| - 1];
      var seen := Dedup(xs[..|xs| - 1]);
      assert xs == xs[..|xs| - 1] + [last];
      if last in seen then seen else seen + [last]
  }

  /** `le` relates every pair one way or the other. */
  ghost predicate Total<T(!new)>(le: (T, T) -> bool) {
    forall a, b :: le(a, b) || le(b, a)
  }

  /** Every neighbouring pair is ordered by `le`. */
  predicate Sorted<T>(xs: seq<T>, le: (T, T) -> bool) {
    forall i :: 0 < i < |xs| ==> le(xs[i - 1], xs[i])
  }

  /** Inserts `x` before the first element it may precede; since `x` comes
      first in the input this keeps equal elements in input order. */
  function Insert<T(!new)>(x: T, ys: seq<T>, le: (T, T) -> bool): (r: seq<T>)
    requires Total(le)
    requires Sorted(ys, le)
    ensures Sorted(r, le)
    ensures multiset(r) == multiset(ys) + multiset{x}
    ensures |r| == |ys| + 1
    ensures r[0] == x || (|ys| > 0 && r[0] == ys[0])
    decreases |ys|
  {
    if |ys| == 0 then [x]
    else if le(x, ys[0]) then [x] + ys
    else
      assert le(ys[0], x);
      var tail := Insert(x, ys[1..], le);
      assert ys == [ys[0]] + ys[1..];
      [ys[0]] + tail
  }

  /** Stable sort by `le` (the outcome of JavaScript's stable `sort` with a
      consistent comparator). */
  function SortBy<T(!new)>(xs: seq<T>, le: (T, T) -> bool): (r: seq<T>)
    requires Total(le)
    ensures Sorted(r, le)
    ensures multiset(r) == multiset(xs)
    ensures |r| == |xs|
    decreases |xs|
  {
    if |xs| == 0 then []
    else
      assert xs == [xs[0]] + xs[1..];
      Insert(xs[0], SortBy(xs[1..], le), le)
  }

  /** Sorting an already sorted sequence changes nothing. */
  lemma {:induction false} SortSorted<T(!new)>(xs: seq<T>, le: (T, T) -> bool)
    requires Total(le)
    requires Sorted(xs, le)
    ensures SortBy(xs, le) == xs
    decreases |xs|
  {
    if |xs| > 1 {
      SortSorted(xs[1..], le);
      assert le(xs[0], xs[1]);
    } else if |xs| == 1 {
      assert SortBy(xs[1..], le) == [];
    }
  }

  /** With a transitive order, neighbour-sortedness orders every pair. */
  lemma {:induction false} SortedPairwise<T(!new)>(xs: seq<T>, le: (T, T) -> bool, i: int, j: int)
    requires Sorted(xs, le)
    requires Total(le)
    requires forall a, b, c :: le(a, b) && le(b, c) ==> le(a, c)
    requires 0 <= i <= j < |xs|
    ensures le(xs[i], xs[j])
    decreases j - i
  {
    if i < j {
      SortedPairwise(xs, le, i, j - 1);
    }
  }
}
