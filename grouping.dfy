/**
 * pandas `groupby(col)[val].sum()` / `.count()` and `collections.Counter`.
 * Rows whose group key is missing (NaN) are dropped, as pandas does by
 * default; groupby lists its labels in ascending order, Counter in the order
 * each label is first seen.
 */
module Grouping {
  import opened Optional
  import opened Seqs

  ghost predicate StrictTotalOrder<K(!new)>(less: (K, K) -> bool)
  {
    && (forall a :: !less(a, a))
    && (forall a, b, c :: less(a, b) && less(b, c) ==> less(a, c))
    && (forall a, b :: a != b ==> less(a, b) || less(b, a))
  }

  ghost predicate Increasing<K>(ks: seq<K>, less: (K, K) -> bool)
  {
    forall i, j :: 0 <= i < j < |ks| ==> less(ks[i], ks[j])
  }

  ghost predicate Distinct<K>(ks: seq<K>)
  {
    forall i, j :: 0 <= i < j < |ks| ==> ks[i] != ks[j]
  }

  /** One summary line of a grouped table: label, aggregated value, number of rows. */
  datatype Group<K> = Group(key: K, total: real, count: nat)

  function HasKey<T, K(==)>(keyOf: T -> Option<K>, k: K): T -> bool
  {
    x => keyOf(x) == Some(k)
  }

  function Keyed<T, K>(keyOf: T -> Option<K>): T -> bool
  {
    x => keyOf(x).Some?
  }

  function InKeys<T, K(==)>(keyOf: T -> Option<K>, ks: seq<K>): T -> bool
  {
    x => keyOf(x).Some? && keyOf(x).value in ks
  }

  /** The rows of group `k`, in table order. */
  function Members<T, K(==)>(xs: seq<T>, keyOf: T -> Option<K>, k: K): seq<T>
  {
    Filter(xs, HasKey(keyOf, k))
  }

  function TotalOf<K>(): Group<K> -> real
  {
    (g: Group<K>) => g.total
  }

  function KeyOf<K>(): Group<K> -> K
  {
    (g: Group<K>) => g.key
  }

  function CountOf<K>(): Group<K> -> real
  {
    (g: Group<K>) => g.count as real
  }

  /** Adds label `k` to an ascending label list unless it is already there. */
  function InsertKey<K(==,!new)>(k: K, ks: seq<K>, less: (K, K) -> bool): (r: seq<K>)
    ensures forall y :: y in r <==> y == k || y in ks
  {
    if ks == [] then [k]
    else if k == ks[0] then ks
    else if less(k, ks[0]) then [k] + ks
    else
      assert ks == [ks[0]] + ks[1..];
      [ks[0]] + InsertKey(k, ks[1..], less)
  }

  lemma {:induction false} InsertKeyIncreasing<K(!new)>(k: K, ks: seq<K>, less: (K, K) -> bool)
    requires StrictTotalOrder(less) && Increasing(ks, less)
    ensures Increasing(InsertKey(k, ks, less), less)
  {
    if ks != [] && k != ks[0] && !less(k, ks[0]) {
      InsertKeyIncreasing(k, ks[1..], less);
      var r' := InsertKey(k, ks[1..], less);
      assert less(ks[0], k);
      forall j | 0 <= j < |r'| ensures less(ks[0], r'[j]) {
        assert r'[j] in r';
        if r'[j] != k {
          var m :| 1 <= m < |ks| && ks[m] == r'[j];
        }
      }
    }
  }

  /** The distinct labels of the keyed rows, ascending: the index of a groupby result. */
  function GroupKeys<T, K(==,!new)>(xs: seq<T>, keyOf: T -> Option<K>, less: (K, K) -> bool): (ks: seq<K>)
    ensures forall k :: k in ks <==> Members(xs, keyOf, k) != []
  {
    if xs == [] then []
    else
      var rest := GroupKeys(xs[1..], keyOf, less);
      match keyOf(xs[0])
      case None => rest
      case Some(k) => InsertKey(k, rest, less)
  }

  lemma {:induction false} GroupKeysIncreasing<T, K(!new)>(xs: seq<T>, keyOf: T -> Option<K>, less: (K, K) -> bool)
    requires StrictTotalOrder(less)
    ensures Increasing(GroupKeys(xs, keyOf, less), less)
    ensures Distinct(GroupKeys(xs, keyOf, less))
  {
    if xs != [] {
      GroupKeysIncreasing(xs[1..], keyOf, less);
      if keyOf(xs[0]).Some? {
        InsertKeyIncreasing(keyOf(xs[0]).value, GroupKeys(xs[1..], keyOf, less), less);
      }
    }
  }

  /** One summary line per label in `ks`, summing `f` over that label's rows. */
  function GroupsOf<T, K(==)>(xs: seq<T>, keyOf: T -> Option<K>, ks: seq<K>, f: T -> real): (gs: seq<Group<K>>)
    ensures |gs| == |ks|
    ensures forall i :: 0 <= i < |ks| ==> gs[i].key == ks[i]
  {
    if ks == [] then []
    else
      var m := Members(xs, keyOf, ks[0]);
      [Group(ks[0], Sum(m, f), |m|)] + GroupsOf(xs, keyOf, ks[1..], f)
  }

  lemma {:induction false} GroupsOfMembers<T, K>(xs: seq<T>, keyOf: T -> Option<K>, ks: seq<K>, f: T -> real)
    ensures forall i :: 0 <= i < |ks| ==>
              GroupsOf(xs, keyOf, ks, f)[i].total == Sum(Members(xs, keyOf, ks[i]), f) &&
              GroupsOf(xs, keyOf, ks, f)[i].count == |Members(xs, keyOf, ks[i])|
  {
    if ks != [] {
      GroupsOfMembers(xs, keyOf, ks[1..], f);
    }
  }

  /** pandas `groupby(keyOf)[f].sum()` together with the group sizes. */
  function GroupBy<T, K(==,!new)>(xs: seq<T>, keyOf: T -> Option<K>, less: (K, K) -> bool, f: T -> real): (gs: seq<Group<K>>)
    ensures forall i :: 0 <= i < |gs| ==>
              gs[i].total == Sum(Members(xs, keyOf, gs[i].key), f) &&
              gs[i].count == |Members(xs, keyOf, gs[i].key)| && gs[i].count > 0
    ensures forall i :: 0 <= i < |xs| && keyOf(xs[i]).Some? ==> exists j :: 0 <= j < |gs| && gs[j].key == keyOf(xs[i]).value
  {
    var ks := GroupKeys(xs, keyOf, less);
    GroupsOfMembers(xs, keyOf, ks, f);
    var gs := GroupsOf(xs, keyOf, ks, f);
    forall i | 0 <= i < |xs| && keyOf(xs[i]).Some?
      ensures exists j :: 0 <= j < |gs| && gs[j].key == keyOf(xs[i]).value
    {
      var k := keyOf(xs[i]).value;
      assert xs[i] in Members(xs, keyOf, k);
      assert k in ks;
      var j :| 0 <= j < |ks| && ks[j] == k;
      assert gs[j].key == k;
    }
    gs
  }

  /** Labels of a groupby result are distinct and ascending. */
  lemma GroupByKeys<T, K(!new)>(xs: seq<T>, keyOf: T -> Option<K>, less: (K, K) -> bool, f: T -> real)
    requires StrictTotalOrder(less)
    ensures forall i, j :: 0 <= i < j < |GroupBy(xs, keyOf, less, f)| ==>
              less(GroupBy(xs, keyOf, less, f)[i].key, GroupBy(xs, keyOf, less, f)[j].key)
  {
    GroupKeysIncreasing(xs, keyOf, less);
  }

  /** Rows of the first label and rows of the remaining labels split the rows of all labels. */
  lemma LabelsSplit<T, K>(xs: seq<T>, keyOf: T -> Option<K>, ks: seq<K>)
    requires Distinct(ks) && ks != []
    ensures forall x :: x in xs ==> !(HasKey(keyOf, ks[0])(x) && InKeys(keyOf, ks[1..])(x))
    ensures forall x :: InKeys(keyOf, ks)(x) <==> HasKey(keyOf, ks[0])(x) || InKeys(keyOf, ks[1..])(x)
  {
    assert ks == [ks[0]] + ks[1..];
    assert forall j :: 0 <= j < |ks[1..]| ==> ks[1..][j] == ks[j + 1];
  }

  lemma NoLabelsNoRows<T, K>(xs: seq<T>, keyOf: T -> Option<K>)
    ensures Filter(xs, InKeys(keyOf, [])) == []
  {
    var none := Filter(xs, InKeys(keyOf, []));
    assert forall i :: 0 <= i < |none| ==> InKeys(keyOf, [])(none[i]);
  }

  /** Summing the per-group totals over distinct labels sums `f` over the rows with those labels. */
  lemma {:induction false} PartitionTotal<T, K>(xs: seq<T>, keyOf: T -> Option<K>, ks: seq<K>, f: T -> real)
    requires Distinct(ks)
    ensures Sum(GroupsOf(xs, keyOf, ks, f), TotalOf()) == Sum(Filter(xs, InKeys(keyOf, ks)), f)
  {
    if ks == [] {
      NoLabelsNoRows(xs, keyOf);
    } else {
      PartitionTotal(xs, keyOf, ks[1..], f);
      assert GroupsOf(xs, keyOf, ks, f)[1..] == GroupsOf(xs, keyOf, ks[1..], f);
      LabelsSplit(xs, keyOf, ks);
      SumFilterDisjoint(xs, HasKey(keyOf, ks[0]), InKeys(keyOf, ks[1..]), InKeys(keyOf, ks), f);
    }
  }

  /** The same for group sizes: they add up to the number of rows with those labels. */
  lemma {:induction false} PartitionCount<T, K>(xs: seq<T>, keyOf: T -> Option<K>, ks: seq<K>, f: T -> real)
    requires Distinct(ks)
    ensures Sum(GroupsOf(xs, keyOf, ks, f), CountOf()) == |Filter(xs, InKeys(keyOf, ks))| as real
  {
    if ks == [] {
      NoLabelsNoRows(xs, keyOf);
    } else {
      PartitionCount(xs, keyOf, ks[1..], f);
      assert GroupsOf(xs, keyOf, ks, f)[1..] == GroupsOf(xs, keyOf, ks[1..], f);
      LabelsSplit(xs, keyOf, ks);
      CountFilterDisjoint(xs, HasKey(keyOf, ks[0]), InKeys(keyOf, ks[1..]), InKeys(keyOf, ks));
    }
  }

  /**
   * "Sum per group equals sum over its rows", added up: the group totals of a
   * groupby add up to the total over all keyed rows, and the group sizes to
   * the number of keyed rows. Every keyed row lands in exactly one group.
   */
  lemma GroupByConserves<T, K(!new)>(xs: seq<T>, keyOf: T -> Option<K>, less: (K, K) -> bool, f: T -> real)
    requires StrictTotalOrder(less)
    ensures Sum(GroupBy(xs, keyOf, less, f), TotalOf()) == Sum(Filter(xs, Keyed(keyOf)), f)
    ensures Sum(GroupBy(xs, keyOf, less, f), CountOf()) == |Filter(xs, Keyed(keyOf))| as real
  {
    var ks := GroupKeys(xs, keyOf, less);
    GroupKeysIncreasing(xs, keyOf, less);
    PartitionTotal(xs, keyOf, ks, f);
    PartitionCount(xs, keyOf, ks, f);
    forall x | x in xs ensures InKeys(keyOf, ks)(x) <==> Keyed(keyOf)(x) {
      if keyOf(x).Some? {
        assert x in Members(xs, keyOf, keyOf(x).value);
      }
    }
    FilterCongruent(xs, InKeys(keyOf, ks), Keyed(keyOf));
  }

  /** The distinct values of `xs` in order of first appearance (dict / Counter key order). */
  function FirstSeen<K(==,!new)>(xs: seq<K>): (r: seq<K>)
    ensures forall k :: k in r <==> k in xs
    ensures Distinct(r)
  {
    if xs == [] then []
    else
      var d := FirstSeen(xs[..|xs| - 1]);
      assert xs == xs[..|xs| - 1] + [xs[|xs| - 1]];
      if xs[|xs| - 1] in d then d else d + [xs[|xs| - 1]]
  }

  /** Position of the first occurrence of `k`. */
  function FirstIndex<K(==)>(xs: seq<K>, k: K): (i: nat)
    requires k in xs
    ensures i < |xs| && xs[i] == k
    ensures forall j :: 0 <= j < i ==> xs[j] != k
  {
    if xs[0] == k then 0 else 1 + FirstIndex(xs[1..], k)
  }

  /** FirstSeen lists the values in the order of their first occurrence. */
  lemma {:induction false} FirstSeenOrder<K(!new)>(xs: seq<K>)
    ensures forall i, j :: 0 <= i < j < |FirstSeen(xs)| ==>
              FirstIndex(xs, FirstSeen(xs)[i]) < FirstIndex(xs, FirstSeen(xs)[j])
  {
    if xs != [] {
      var n := |xs|;
      var pre, x := xs[..n - 1], xs[n - 1];
      FirstSeenOrder(pre);
      var d, r := FirstSeen(pre), FirstSeen(xs);
      forall k | k in pre ensures FirstIndex(xs, k) == FirstIndex(pre, k) {
        assert xs[FirstIndex(pre, k)] == k;
      }
      if x in d {
        assert r == d;
      } else {
        assert r == d + [x];
        assert forall j :: 0 <= j < n - 1 ==> xs[j] == pre[j];
        assert FirstIndex(xs, x) == n - 1;
        forall i, j | 0 <= i < j < |r| ensures FirstIndex(xs, r[i]) < FirstIndex(xs, r[j]) {
          assert r[i] == d[i];
          if j < |d| {
            assert r[j] == d[j];
          }
        }
      }
    }
  }

  function Itself<K>(): K -> Option<K>
  {
    x => Some(x)
  }

  function One<K>(): K -> real
  {
    _ => 1.0
  }

  /**
   * `collections.Counter(xs)`: one entry per distinct value, in order of first
   * appearance, whose count is the number of occurrences.
   */
  function Counter<K(==,!new)>(xs: seq<K>): (items: seq<Group<K>>)
    ensures |items| == |FirstSeen(xs)|
    ensures forall i :: 0 <= i < |items| ==>
              items[i].key == FirstSeen(xs)[i] && items[i].count == |Members(xs, Itself(), items[i].key)|
  {
    GroupsOfMembers(xs, Itself(), FirstSeen(xs), One());
    GroupsOf(xs, Itself(), FirstSeen(xs), One())
  }

  /** The counts of a Counter add up to the length of the counted list. */
  lemma CounterTotal<K(!new)>(xs: seq<K>)
    ensures Sum(Counter(xs), CountOf()) == |xs| as real
  {
    var ks := FirstSeen(xs);
    PartitionCount(xs, Itself(), ks, One());
    FilterKeepsAll(xs, InKeys(Itself(), ks));
  }
}
