/**
 * Ranking primitives: pandas `nlargest` / `nsmallest` (keep='first'),
 * `sort_values(...).head(n)`, `idxmax`, and `Counter.most_common`, all built
 * on one stable sort by a numeric key, largest first.
 */
module Ranking {
  import opened Optional
  import opened Seqs

  /** Keys never increase from left to right. */
  ghost predicate NonIncreasing<T>(s: seq<T>, key: T -> real)
  {
    forall i, j :: 0 <= i < j < |s| ==> key(s[i]) >= key(s[j])
  }

  function KeyIs<T>(key: T -> real, v: real): T -> bool
  {
    x => key(x) == v
  }

  /** The rows of `s` whose key is exactly `v`, in order: a tie class. */
  function WithKey<T>(s: seq<T>, key: T -> real, v: real): seq<T>
  {
    Filter(s, KeyIs(key, v))
  }

  /**
   * Inserts `x` in front of the first row whose key is not larger: `x` comes
   * before the rows it ties with, as the earlier row of a stable sort does.
   */
  function Insert<T>(x: T, s: seq<T>, key: T -> real): (r: seq<T>)
    ensures |r| == |s| + 1
    ensures multiset(r) == multiset(s) + multiset{x}
  {
    if s == [] || key(s[0]) <= key(x) then [x] + s
    else
      assert s == [s[0]] + s[1..];
      [s[0]] + Insert(x, s[1..], key)
  }

  lemma {:induction false} InsertSorted<T>(x: T, s: seq<T>, key: T -> real)
    requires NonIncreasing(s, key)
    ensures NonIncreasing(Insert(x, s, key), key)
  {
    if s != [] && key(s[0]) > key(x) {
      InsertSorted(x, s[1..], key);
      var r' := Insert(x, s[1..], key);
      forall j | 0 <= j < |r'| ensures key(r'[j]) <= key(s[0]) {
        assert r'[j] in multiset(r');
        assert r'[j] == x || r'[j] in multiset(s[1..]);
        if r'[j] != x {
          var k :| 1 <= k < |s| && s[k] == r'[j];
        }
      }
    }
  }

  /** Stable sort, largest key first (rows are inserted back to front). */
  function SortDesc<T>(xs: seq<T>, key: T -> real): (r: seq<T>)
    ensures |r| == |xs|
    ensures multiset(r) == multiset(xs)
    ensures NonIncreasing(r, key)
  {
    if xs == [] then []
    else
      var rest := SortDesc(xs[1..], key);
      InsertSorted(xs[0], rest, key);
      assert xs == [xs[0]] + xs[1..];
      Insert(xs[0], rest, key)
  }

  /** Inserting puts `x` at the head of its tie class: every row it passes has a larger key. */
  lemma {:induction false} InsertWithKey<T>(x: T, s: seq<T>, key: T -> real, v: real)
    ensures WithKey(Insert(x, s, key), key, v)
         == (if key(x) == v then [x] else []) + WithKey(s, key, v)
  {
    if s != [] && key(s[0]) > key(x) {
      var t, tie := s[1..], KeyIs(key, v);
      InsertWithKey(x, t, key, v);
      var r' := Insert(x, t, key);
      assert Insert(x, s, key) == [s[0]] + r';
      FilterCons(s[0], r', tie);
      assert s == [s[0]] + t;
      FilterCons(s[0], t, tie);
      if key(x) == v {
        assert !tie(s[0]);
        assert Filter([s[0]] + r', tie) == Filter(r', tie);
        assert Filter(s, tie) == Filter(t, tie);
        assert Filter(r', tie) == [x] + Filter(t, tie);
      } else {
        assert Filter(r', tie) == Filter(t, tie);
        assert Filter([s[0]] + r', tie) == Filter(s, tie);
      }
    } else {
      FilterCons(x, s, KeyIs(key, v));
      assert Insert(x, s, key) == [x] + s;
    }
  }

  /** Stability: within every tie class the sorted rows keep their input order. */
  lemma {:induction false} SortDescStable<T>(xs: seq<T>, key: T -> real, v: real)
    ensures WithKey(SortDesc(xs, key), key, v) == WithKey(xs, key, v)
  {
    if xs != [] {
      SortDescStable(xs[1..], key, v);
      InsertWithKey(xs[0], SortDesc(xs[1..], key), key, v);
    }
  }

  /**
   * pandas `nlargest(n, key)` with keep='first': the n rows with the largest
   * key, largest first, earlier rows first among ties.
   */
  function NLargest<T>(xs: seq<T>, n: nat, key: T -> real): (r: seq<T>)
    ensures |r| == if n < |xs| then n else |xs|
    ensures NonIncreasing(r, key)
    ensures multiset(r) <= multiset(xs)
    ensures forall v :: WithKey(r, key, v) <= WithKey(xs, key, v)
  {
    var s := SortDesc(xs, key);
    var m := if n < |xs| then n else |xs|;
    assert s == s[..m] + s[m..];
    assert multiset(s) == multiset(s[..m]) + multiset(s[m..]);
    forall v ensures WithKey(s[..m], key, v) <= WithKey(xs, key, v) {
      FilterPrefix(s, m, KeyIs(key, v));
      SortDescStable(xs, key, v);
    }
    s[..m]
  }

  /** A row that `nlargest` leaves out is no larger than any row it keeps. */
  lemma NLargestIsTop<T>(xs: seq<T>, n: nat, key: T -> real, i: nat, j: nat)
    requires i < |xs| && j < |NLargest(xs, n, key)|
    requires multiset(NLargest(xs, n, key))[xs[i]] < multiset(xs)[xs[i]]
    ensures key(xs[i]) <= key(NLargest(xs, n, key)[j])
  {
    var s := SortDesc(xs, key);
    var m := if n < |xs| then n else |xs|;
    assert s == s[..m] + s[m..];
    assert multiset(s) == multiset(s[..m]) + multiset(s[m..]);
    assert xs[i] in multiset(s[m..]);
    var k :| m <= k < |s| && s[k] == xs[i];
    assert s[..m][j] == s[j];
  }

  /** Every row `nlargest` returns is a row of its input. */
  lemma NLargestFromInput<T>(xs: seq<T>, n: nat, key: T -> real)
    ensures forall i :: 0 <= i < |NLargest(xs, n, key)| ==> NLargest(xs, n, key)[i] in xs
  {
    var r := NLargest(xs, n, key);
    forall i | 0 <= i < |r| ensures r[i] in xs {
      assert r[i] in multiset(r);
    }
  }

  ghost predicate IncreasingBy<T>(s: seq<T>, rank: T -> int)
  {
    forall i, j :: 0 <= i < j < |s| ==> rank(s[i]) < rank(s[j])
  }

  lemma {:induction false} FilterKeepsIncreasing<T>(xs: seq<T>, p: T -> bool, rank: T -> int)
    requires IncreasingBy(xs, rank)
    ensures IncreasingBy(Filter(xs, p), rank)
  {
    if xs != [] {
      FilterKeepsIncreasing(xs[1..], p, rank);
      var rest := Filter(xs[1..], p);
      forall k | 0 <= k < |rest| ensures rank(xs[0]) < rank(rest[k]) {
        var m :| 0 <= m < |xs[1..]| && xs[1..][m] == rest[k];
        assert xs[m + 1] == rest[k];
      }
      assert xs == [xs[0]] + xs[1..];
      FilterCons(xs[0], xs[1..], p);
      if p(xs[0]) {
        IncreasingCons(xs[0], rest, rank);
      }
    }
  }

  /** A row ranked below every row of an increasing table can go in front of it. */
  lemma IncreasingCons<T>(h: T, rest: seq<T>, rank: T -> int)
    requires IncreasingBy(rest, rank)
    requires forall k :: 0 <= k < |rest| ==> rank(h) < rank(rest[k])
    ensures IncreasingBy([h] + rest, rank)
  {
    var f := [h] + rest;
    forall i, j | 0 <= i < j < |f| ensures rank(f[i]) < rank(f[j]) {
      assert f[j] == rest[j - 1];
      if i > 0 {
        assert f[i] == rest[i - 1];
      }
    }
  }

  /** If the `p`-rows of `s` are in rank order, any two `p`-rows of `s` are. */
  lemma {:induction false} IncreasingFilterBack<T>(s: seq<T>, p: T -> bool, rank: T -> int)
    requires IncreasingBy(Filter(s, p), rank)
    ensures forall i, j :: 0 <= i < j < |s| && p(s[i]) && p(s[j]) ==> rank(s[i]) < rank(s[j])
  {
    if s != [] {
      var f, rest := Filter(s, p), Filter(s[1..], p);
      if p(s[0]) {
        assert f == [s[0]] + rest;
        forall a, b | 0 <= a < b < |rest| ensures rank(rest[a]) < rank(rest[b]) {
          assert rest[a] == f[a + 1] && rest[b] == f[b + 1];
        }
        HeadRanksFirst(s, p, rank);
      } else {
        assert f == rest;
      }
      IncreasingFilterBack(s[1..], p, rank);
      ShiftPairs(s, p, rank);
    }
  }

  lemma HeadRanksFirst<T>(s: seq<T>, p: T -> bool, rank: T -> int)
    requires s != [] && p(s[0]) && IncreasingBy(Filter(s, p), rank)
    ensures forall j :: 0 < j < |s| && p(s[j]) ==> rank(s[0]) < rank(s[j])
  {
    var rest := Filter(s[1..], p);
    assert Filter(s, p) == [s[0]] + rest;
    IncreasingHead(s[0], rest, rank);
    forall j | 0 < j < |s| && p(s[j]) ensures rank(s[0]) < rank(s[j]) {
      assert s[j] == s[1..][j - 1];
      assert s[j] in rest;
    }
  }

  /** The head of an increasing table ranks below every other row of it. */
  lemma IncreasingHead<T>(h: T, rest: seq<T>, rank: T -> int)
    requires IncreasingBy([h] + rest, rank)
    ensures forall k :: 0 <= k < |rest| ==> rank(h) < rank(rest[k])
  {
    var f := [h] + rest;
    forall k | 0 <= k < |rest| ensures rank(h) < rank(rest[k]) {
      assert f[0] == h && f[k + 1] == rest[k];
    }
  }

  lemma ShiftPairs<T>(s: seq<T>, p: T -> bool, rank: T -> int)
    requires s != []
    requires forall i, j :: 0 <= i < j < |s[1..]| && p(s[1..][i]) && p(s[1..][j]) ==> rank(s[1..][i]) < rank(s[1..][j])
    requires p(s[0]) ==> forall j :: 0 < j < |s| && p(s[j]) ==> rank(s[0]) < rank(s[j])
    ensures forall i, j :: 0 <= i < j < |s| && p(s[i]) && p(s[j]) ==> rank(s[i]) < rank(s[j])
  {
    forall i, j | 0 < i < j < |s| && p(s[i]) && p(s[j]) ensures rank(s[i]) < rank(s[j]) {
      assert s[i] == s[1..][i - 1] && s[j] == s[1..][j - 1];
    }
  }

  /**
   * Ties keep input order: when the input rows are in increasing `rank` (their
   * position, or when a label was first seen), rows of `nlargest` with equal
   * keys are too.
   */
  lemma NLargestTiesInOrder<T>(xs: seq<T>, n: nat, key: T -> real, rank: T -> int)
    requires IncreasingBy(xs, rank)
    ensures forall i, j ::
              (0 <= i < j < |NLargest(xs, n, key)| &&
               key(NLargest(xs, n, key)[i]) == key(NLargest(xs, n, key)[j])) ==>
              rank(NLargest(xs, n, key)[i]) < rank(NLargest(xs, n, key)[j])
  {
    var r := NLargest(xs, n, key);
    forall i, j | 0 <= i < j < |r| && key(r[i]) == key(r[j]) ensures rank(r[i]) < rank(r[j]) {
      var v := key(r[i]);
      FilterKeepsIncreasing(xs, KeyIs(key, v), rank);
      assert WithKey(r, key, v) <= WithKey(xs, key, v);
      assert IncreasingBy(WithKey(r, key, v), rank);
      IncreasingFilterBack(r, KeyIs(key, v), rank);
    }
  }

  /** The key a smallest-first ranking hands to `NLargest`. */
  function Negated<T>(key: T -> real): T -> real
  {
    x => -key(x)
  }

  /**
   * pandas `nsmallest(n, key)` with keep='first': the n rows with the smallest
   * key, smallest first, earlier rows first among ties.
   */
  function NSmallest<T>(xs: seq<T>, n: nat, key: T -> real): (r: seq<T>)
    ensures |r| == if n < |xs| then n else |xs|
    ensures forall i, j :: 0 <= i < j < |r| ==> key(r[i]) <= key(r[j])
    ensures multiset(r) <= multiset(xs)
    ensures forall v :: WithKey(r, Negated(key), v) <= WithKey(xs, Negated(key), v)
  {
    NLargest(xs, n, Negated(key))
  }

  /** A row that `nsmallest` leaves out is no smaller than any row it keeps. */
  lemma NSmallestIsTop<T>(xs: seq<T>, n: nat, key: T -> real, i: nat, j: nat)
    requires i < |xs| && j < |NSmallest(xs, n, key)|
    requires multiset(NSmallest(xs, n, key))[xs[i]] < multiset(xs)[xs[i]]
    ensures key(NSmallest(xs, n, key)[j]) <= key(xs[i])
  {
    NLargestIsTop(xs, n, Negated(key), i, j);
  }

  lemma NSmallestFromInput<T>(xs: seq<T>, n: nat, key: T -> real)
    ensures forall i :: 0 <= i < |NSmallest(xs, n, key)| ==> NSmallest(xs, n, key)[i] in xs
  {
    var r := NSmallest(xs, n, key);
    forall i | 0 <= i < |r| ensures r[i] in xs {
      assert r[i] in multiset(r);
    }
  }

  /** No two rows of `s` share a label (`tag`). */
  ghost predicate DistinctBy<T, K>(s: seq<T>, tag: T -> K)
  {
    forall i, j :: 0 <= i < j < |s| ==> tag(s[i]) != tag(s[j])
  }

  /** A row that sits at two positions of `s` occurs at least twice in it. */
  lemma TwoPositions<T>(s: seq<T>, i: nat, j: nat)
    requires i < j < |s| && s[i] == s[j]
    ensures multiset(s)[s[i]] >= 2
  {
    assert s == s[..j] + s[j..];
    assert s[..j][i] == s[i] && s[j..][0] == s[j];
    assert multiset(s) == multiset(s[..j]) + multiset(s[j..]);
  }

  /** Rows with distinct labels occur once each. */
  lemma {:induction false} DistinctOnce<T, K>(s: seq<T>, tag: T -> K, x: T)
    requires DistinctBy(s, tag)
    ensures multiset(s)[x] <= 1
  {
    if s != [] {
      assert DistinctBy(s[1..], tag) by {
        forall i, j | 0 <= i < j < |s[1..]| ensures tag(s[1..][i]) != tag(s[1..][j]) {
          assert s[1..][i] == s[i + 1] && s[1..][j] == s[j + 1];
        }
      }
      DistinctOnce(s[1..], tag, x);
      assert s == [s[0]] + s[1..];
      if s[0] == x {
        forall k | 0 <= k < |s[1..]| ensures s[1..][k] != x {
          assert s[1..][k] == s[k + 1];
        }
        assert x !in multiset(s[1..]);
      }
    }
  }

  /** Taking rows from a table whose labels are distinct keeps them distinct. */
  lemma SubMultisetDistinct<T, K>(sub: seq<T>, full: seq<T>, tag: T -> K)
    requires multiset(sub) <= multiset(full) && DistinctBy(full, tag)
    ensures DistinctBy(sub, tag)
  {
    forall i, j | 0 <= i < j < |sub| ensures tag(sub[i]) != tag(sub[j]) {
      assert sub[i] in multiset(sub) && sub[j] in multiset(sub);
      var a :| 0 <= a < |full| && full[a] == sub[i];
      var b :| 0 <= b < |full| && full[b] == sub[j];
      if tag(sub[i]) == tag(sub[j]) {
        assert a == b;
        TwoPositions(sub, i, j);
        DistinctOnce(full, tag, sub[i]);
        assert false;
      }
    }
  }

  /**
   * pandas `idxmax`: the position of the first row with the largest key
   * (pandas raises on an empty column; callers guard with `len(df) > 0`).
   */
  function ArgMax<T>(xs: seq<T>, key: T -> real): (i: nat)
    requires |xs| > 0
    ensures i < |xs|
    ensures forall j :: 0 <= j < |xs| ==> key(xs[j]) <= key(xs[i])
    ensures forall j :: 0 <= j < i ==> key(xs[j]) < key(xs[i])
  {
    if |xs| == 1 then 0
    else
      var k := ArgMax(xs[..|xs| - 1], key);
      if key(xs[|xs| - 1]) > key(xs[k]) then |xs| - 1 else k
  }

  function HasValue<T>(key: T -> Option<real>): T -> bool
  {
    x => key(x).Some?
  }

  function LacksValue<T>(key: T -> Option<real>): T -> bool
  {
    x => key(x).None?
  }

  /** The key a descending sort uses: the value, negated for an ascending order. */
  function Directed<T>(key: T -> Option<real>, ascending: bool): T -> real
  {
    x => if key(x).None? then 0.0 else if ascending then -key(x).value else key(x).value
  }

  /**
   * pandas `sort_values(key, ascending)` on a column that may hold NaN:
   * rows with a value are ordered by it, rows without one come last
   * (na_position='last') in either direction.
   */
  function SortValues<T>(xs: seq<T>, key: T -> Option<real>, ascending: bool): (r: seq<T>)
    ensures multiset(r) == multiset(xs)
    ensures forall i, j :: 0 <= i < j < |r| && key(r[j]).Some? ==> key(r[i]).Some?
    ensures forall i, j :: 0 <= i < j < |r| && key(r[i]).Some? && key(r[j]).Some? ==>
              if ascending then key(r[i]).value <= key(r[j]).value
              else key(r[i]).value >= key(r[j]).value
  {
    var sorted := SortDesc(Filter(xs, HasValue(key)), Directed(key, ascending));
    var missing := Filter(xs, LacksValue(key));
    SortValuesParts(xs, key, ascending);
    FilterSplitsMultiset(xs, HasValue(key), LacksValue(key));
    sorted + missing
  }

  lemma SortValuesParts<T>(xs: seq<T>, key: T -> Option<real>, ascending: bool)
    ensures forall k :: 0 <= k < |SortDesc(Filter(xs, HasValue(key)), Directed(key, ascending))| ==>
              key(SortDesc(Filter(xs, HasValue(key)), Directed(key, ascending))[k]).Some?
    ensures forall k :: 0 <= k < |Filter(xs, LacksValue(key))| ==> key(Filter(xs, LacksValue(key))[k]).None?
  {
    var present := Filter(xs, HasValue(key));
    var sorted := SortDesc(present, Directed(key, ascending));
    forall k | 0 <= k < |sorted| ensures key(sorted[k]).Some? {
      assert sorted[k] in multiset(present);
      var m :| 0 <= m < |present| && present[m] == sorted[k];
    }
  }
}
