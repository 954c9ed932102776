/**
 * Sequence operations that stand for the dataframe primitives the dashboard
 * and the analysis script use: boolean-mask indexing, row selection by a
 * predicate, `head`, and numeric sums. A table is a sequence of rows, so row
 * order is sequence order.
 */
module Seqs {

  /** `a` is an order-preserving subsequence of `b`: `b` with some rows dropped. */
  predicate IsSubseq<T(==)>(a: seq<T>, b: seq<T>)
    decreases |b|
  {
    if b == [] then a == []
    else (a != [] && a[0] == b[0] && IsSubseq(a[1..], b[1..])) || IsSubseq(a, b[1..])
  }

  /** The rows of `xs` that satisfy `p`, in their original order. */
  function Filter<T>(xs: seq<T>, p: T -> bool): (r: seq<T>)
    ensures |r| <= |xs|
    ensures forall i :: 0 <= i < |r| ==> r[i] in xs && p(r[i])
    ensures forall i :: 0 <= i < |xs| && p(xs[i]) ==> xs[i] in r
  {
    if xs == [] then []
    else (if p(xs[0]) then [xs[0]] else []) + Filter(xs[1..], p)
  }

  /** Filtering a table with one more row in front. */
  lemma FilterCons<T>(y: T, rest: seq<T>, p: T -> bool)
    ensures Filter([y] + rest, p) == (if p(y) then [y] else []) + Filter(rest, p)
  {
    assert ([y] + rest)[1..] == rest;
  }

  /** Element-wise conjunction of two masks (pandas `mask &= other`). */
  function And(a: seq<bool>, b: seq<bool>): (r: seq<bool>)
    requires |a| == |b|
    ensures |r| == |a|
    ensures forall i :: 0 <= i < |a| ==> (r[i] <==> a[i] && b[i])
  {
    seq(|a|, i requires 0 <= i < |a| => a[i] && b[i])
  }

  /** Boolean indexing `df[mask]`: keeps row i exactly when mask[i] holds. */
  function Select<T>(xs: seq<T>, mask: seq<bool>): (r: seq<T>)
    requires |mask| == |xs|
    ensures |r| <= |xs|
    ensures (forall i :: 0 <= i < |mask| ==> mask[i]) ==> r == xs
    ensures (forall i :: 0 <= i < |mask| ==> !mask[i]) ==> r == []
  {
    if xs == [] then []
    else (if mask[0] then [xs[0]] else []) + Select(xs[1..], mask[1..])
  }

  /** `head(n)`: the first n rows, or all of them when there are fewer. */
  function Head<T>(xs: seq<T>, n: nat): (r: seq<T>)
    ensures |r| == if n < |xs| then n else |xs|
    ensures r <= xs
  {
    if n < |xs| then xs[..n] else xs
  }

  /** Sum of `f` over the rows (pandas `sum`, exact here). */
  function Sum<T>(xs: seq<T>, f: T -> real): real
  {
    if xs == [] then 0.0 else f(xs[0]) + Sum(xs[1..], f)
  }

  function Map<T, U>(xs: seq<T>, f: T -> U): (r: seq<U>)
    ensures |r| == |xs|
    ensures forall i :: 0 <= i < |xs| ==> r[i] == f(xs[i])
  {
    seq(|xs|, i requires 0 <= i < |xs| => f(xs[i]))
  }

  lemma AppendAssoc<T>(a: seq<T>, b: seq<T>, c: seq<T>)
    ensures a + (b + c) == (a + b) + c
  {
  }

  lemma MapAppend<T, U>(a: seq<T>, b: seq<T>, f: T -> U)
    ensures Map(a + b, f) == Map(a, f) + Map(b, f)
  {
  }

  /** Removing the row at `k` removes one occurrence of it. */
  lemma RemoveAt<T>(b: seq<T>, k: nat)
    requires k < |b|
    ensures multiset(b) == multiset(b[..k] + b[k + 1..]) + multiset{b[k]}
  {
    assert b == b[..k] + [b[k]] + b[k + 1..];
  }

  lemma SubCancel<T>(p: multiset<T>, q: multiset<T>, x: T)
    requires p + multiset{x} <= q + multiset{x}
    ensures p <= q
  {
    forall y ensures p[y] <= q[y] {
      assert (p + multiset{x})[y] <= (q + multiset{x})[y];
    }
  }

  /** Projecting rows taken from a table gives values taken from the table's projection. */
  lemma {:induction false} MapSubMultiset<T, U>(a: seq<T>, b: seq<T>, f: T -> U)
    requires multiset(a) <= multiset(b)
    ensures multiset(Map(a, f)) <= multiset(Map(b, f))
  {
    if a != [] {
      var x := a[0];
      assert x in multiset(b);
      var k :| 0 <= k < |b| && b[k] == x;
      var rest := b[..k] + b[k + 1..];
      RemoveAt(b, k);
      assert a == [x] + a[1..];
      SubCancel(multiset(a[1..]), multiset(rest), x);
      MapSubMultiset(a[1..], rest, f);
      assert b == b[..k] + ([x] + b[k + 1..]);
      MapAppend(b[..k], [x] + b[k + 1..], f);
      MapAppend([x], b[k + 1..], f);
      MapAppend(b[..k], b[k + 1..], f);
      MapAppend([x], a[1..], f);
    }
  }

  /** Boolean indexing with the mask of a predicate is filtering by that predicate. */
  lemma {:induction false} SelectIsFilter<T>(xs: seq<T>, mask: seq<bool>, p: T -> bool)
    requires |mask| == |xs|
    requires forall i :: 0 <= i < |xs| ==> (mask[i] <==> p(xs[i]))
    ensures Select(xs, mask) == Filter(xs, p)
  {
    if xs != [] {
      SelectIsFilter(xs[1..], mask[1..], p);
    }
  }

  /** Filtering keeps each satisfying row with its full multiplicity and drops the rest. */
  lemma {:induction false} FilterMultiset<T>(xs: seq<T>, p: T -> bool)
    ensures forall x :: multiset(Filter(xs, p))[x] == if p(x) then multiset(xs)[x] else 0
  {
    if xs != [] {
      FilterMultiset(xs[1..], p);
      assert xs == [xs[0]] + xs[1..];
    }
  }

  /** Membership in a filtered table: in the table and satisfying the predicate. */
  lemma FilterMembership<T>(xs: seq<T>, p: T -> bool)
    ensures forall x :: x in Filter(xs, p) <==> x in xs && p(x)
  {
    FilterMultiset(xs, p);
    forall x ensures x in Filter(xs, p) <==> x in xs && p(x) {
      assert x in Filter(xs, p) <==> x in multiset(Filter(xs, p));
      assert x in xs <==> x in multiset(xs);
    }
  }

  /** Filtering never reorders: the result is a subsequence of the input. */
  lemma {:induction false} FilterIsSubseq<T>(xs: seq<T>, p: T -> bool)
    ensures IsSubseq(Filter(xs, p), xs)
  {
    if xs != [] {
      FilterIsSubseq(xs[1..], p);
      if p(xs[0]) {
        assert Filter(xs, p) == [xs[0]] + Filter(xs[1..], p);
        assert ([xs[0]] + Filter(xs[1..], p))[1..] == Filter(xs[1..], p);
      } else {
        assert Filter(xs, p) == Filter(xs[1..], p);
      }
    }
  }

  /** A predicate that every row satisfies keeps the whole table. */
  lemma {:induction false} FilterKeepsAll<T>(xs: seq<T>, p: T -> bool)
    requires forall i :: 0 <= i < |xs| ==> p(xs[i])
    ensures Filter(xs, p) == xs
  {
    if xs != [] {
      FilterKeepsAll(xs[1..], p);
      assert xs == [xs[0]] + xs[1..];
    }
  }

  /** Two predicates that agree on the rows of `xs` select the same rows. */
  lemma {:induction false} FilterCongruent<T>(xs: seq<T>, p: T -> bool, q: T -> bool)
    requires forall x :: x in xs ==> (p(x) <==> q(x))
    ensures Filter(xs, p) == Filter(xs, q)
  {
    if xs != [] {
      FilterCongruent(xs[1..], p, q);
    }
  }

  /** Narrowing step by step equals filtering once by the conjunction. */
  lemma {:induction false} FilterFilter<T>(xs: seq<T>, p: T -> bool, q: T -> bool, pq: T -> bool)
    requires forall x :: pq(x) <==> p(x) && q(x)
    ensures Filter(Filter(xs, p), q) == Filter(xs, pq)
  {
    if xs != [] {
      FilterFilter(xs[1..], p, q, pq);
      var rest := Filter(xs[1..], p);
      if p(xs[0]) {
        assert Filter(xs, p) == [xs[0]] + rest;
        assert ([xs[0]] + rest)[1..] == rest;
      } else {
        assert Filter(xs, p) == rest;
      }
    }
  }

  /** A stronger predicate keeps a subsequence of what a weaker one keeps. */
  lemma {:induction false} FilterMonotone<T>(xs: seq<T>, p: T -> bool, q: T -> bool)
    requires forall x :: x in xs && q(x) ==> p(x)
    ensures IsSubseq(Filter(xs, q), Filter(xs, p))
  {
    if xs != [] {
      FilterMonotone(xs[1..], p, q);
      var a, b := Filter(xs[1..], q), Filter(xs[1..], p);
      if q(xs[0]) {
        assert Filter(xs, q) == [xs[0]] + a && Filter(xs, p) == [xs[0]] + b;
        assert ([xs[0]] + a)[1..] == a && ([xs[0]] + b)[1..] == b;
      } else if p(xs[0]) {
        assert Filter(xs, q) == a;
        assert Filter(xs, p) == [xs[0]] + b && ([xs[0]] + b)[1..] == b;
      } else {
        assert Filter(xs, q) == a && Filter(xs, p) == b;
      }
    }
  }

  /** Filtering by `p` and by its negation partitions the rows. */
  lemma {:induction false} FilterSplitsMultiset<T>(xs: seq<T>, p: T -> bool, notP: T -> bool)
    requires forall x :: notP(x) <==> !p(x)
    ensures multiset(Filter(xs, p)) + multiset(Filter(xs, notP)) == multiset(xs)
  {
    if xs != [] {
      FilterSplitsMultiset(xs[1..], p, notP);
      var x := xs[0];
      assert xs == [x] + xs[1..];
      FilterCons(x, xs[1..], p);
      FilterCons(x, xs[1..], notP);
    }
  }

  /** Filtering a prefix yields a prefix of the filtered whole. */
  lemma {:induction false} FilterPrefix<T>(xs: seq<T>, n: nat, p: T -> bool)
    requires n <= |xs|
    ensures Filter(xs[..n], p) <= Filter(xs, p)
  {
    if n > 0 {
      FilterPrefix(xs[1..], n - 1, p);
      assert xs[..n][1..] == xs[1..][..n - 1];
    }
  }

  /** A sum of non-negative values is non-negative, and a sum of zeros is zero. */
  lemma {:induction false} SumSign<T>(xs: seq<T>, f: T -> real)
    ensures (forall i :: 0 <= i < |xs| ==> f(xs[i]) >= 0.0) ==> Sum(xs, f) >= 0.0
    ensures (forall i :: 0 <= i < |xs| ==> f(xs[i]) == 0.0) ==> Sum(xs, f) == 0.0
  {
    if xs != [] {
      SumSign(xs[1..], f);
      assert forall i :: 1 <= i < |xs| ==> xs[1..][i - 1] == xs[i];
    }
  }

  lemma {:induction false} SumAppend<T>(a: seq<T>, b: seq<T>, f: T -> real)
    ensures Sum(a + b, f) == Sum(a, f) + Sum(b, f)
  {
    if a != [] {
      SumAppend(a[1..], b, f);
      assert (a + b)[0] == a[0];
      assert (a + b)[1..] == a[1..] + b;
    } else {
      assert a + b == b;
    }
  }

  /** Summing over rows matching `p` and over rows matching a disjoint `q` is summing over `p || q`. */
  lemma {:induction false} SumFilterDisjoint<T>(xs: seq<T>, p: T -> bool, q: T -> bool, pq: T -> bool, f: T -> real)
    requires forall x :: x in xs ==> !(p(x) && q(x))
    requires forall x :: pq(x) <==> p(x) || q(x)
    ensures Sum(Filter(xs, p), f) + Sum(Filter(xs, q), f) == Sum(Filter(xs, pq), f)
  {
    if xs != [] {
      SumFilterDisjoint(xs[1..], p, q, pq, f);
      var x := xs[0];
      SumAppend(if p(x) then [x] else [], Filter(xs[1..], p), f);
      SumAppend(if q(x) then [x] else [], Filter(xs[1..], q), f);
      SumAppend(if pq(x) then [x] else [], Filter(xs[1..], pq), f);
    }
  }

  /** The same, for row counts. */
  lemma {:induction false} CountFilterDisjoint<T>(xs: seq<T>, p: T -> bool, q: T -> bool, pq: T -> bool)
    requires forall x :: x in xs ==> !(p(x) && q(x))
    requires forall x :: pq(x) <==> p(x) || q(x)
    ensures |Filter(xs, p)| + |Filter(xs, q)| == |Filter(xs, pq)|
  {
    if xs != [] {
      CountFilterDisjoint(xs[1..], p, q, pq);
    }
  }
}
