/**
 * The sidebar filter of the dashboard (app.py): an always-on range mask,
 * narrowed by each enabled option with `mask &= ...`, then applied to the
 * table with boolean indexing.
 */
module Filters {
  import opened Optional
  import opened Seqs
  import opened Movies

  const Million := 1_000_000
  const BlockbusterRevenue := 500_000_000
  const GemBudget := 20_000_000
  const GemRating := 7.0

  /**
   * The sidebar state: year range, budget range in millions of dollars,
   * minimum rating, selected genres, and the three quick filters.
   */
  datatype FilterSpec = FilterSpec(
    yearMin: int,
    yearMax: int,
    budgetMinM: int,
    budgetMaxM: int,
    minRating: real,
    genres: seq<string>,
    onlyProfitable: bool,
    onlyBlockbusters: bool,
    hiddenGems: bool)

  /** The always-on part; a missing year fails both year comparisons, as NaN does. */
  predicate InRanges(spec: FilterSpec, r: Row)
  {
    && r.year.Some? && spec.yearMin <= r.year.value && r.year.value <= spec.yearMax
    && spec.budgetMinM * Million <= r.movie.budget <= spec.budgetMaxM * Million
    && r.movie.voteAverage >= spec.minRating
  }

  predicate GenreOk(spec: FilterSpec, r: Row)
  {
    |spec.genres| == 0 || r.primaryGenre in spec.genres
  }

  predicate ProfitOk(spec: FilterSpec, r: Row)
  {
    !spec.onlyProfitable || r.profit > 0
  }

  predicate BlockbusterOk(spec: FilterSpec, r: Row)
  {
    !spec.onlyBlockbusters || r.movie.revenue > BlockbusterRevenue
  }

  predicate GemOk(spec: FilterSpec, r: Row)
  {
    !spec.hiddenGems || (r.movie.budget < GemBudget && r.movie.voteAverage >= GemRating)
  }

  /** A row is kept exactly when it passes every active constraint. */
  predicate Keep(spec: FilterSpec, r: Row)
    ensures Keep(spec, r) ==> InRanges(spec, r) && r.year.Some?
    ensures |spec.genres| == 0 && !spec.onlyProfitable && !spec.onlyBlockbusters && !spec.hiddenGems ==>
              (Keep(spec, r) <==> InRanges(spec, r))
  {
    InRanges(spec, r) && GenreOk(spec, r) && ProfitOk(spec, r) && BlockbusterOk(spec, r) && GemOk(spec, r)
  }

  function Keeps(spec: FilterSpec): Row -> bool
  {
    r => Keep(spec, r)
  }

  /** The mask of the sidebar filter, narrowed one enabled option at a time. */
  method BuildMask(df: seq<Row>, spec: FilterSpec) returns (mask: seq<bool>)
    ensures |mask| == |df|
    ensures forall i :: 0 <= i < |df| ==> (mask[i] <==> Keep(spec, df[i]))
  {
    var n := |df|;
    mask := seq(n, i requires 0 <= i < n => InRanges(spec, df[i]));
    if |spec.genres| > 0 {
      mask := And(mask, seq(n, i requires 0 <= i < n => df[i].primaryGenre in spec.genres));
    }
    if spec.onlyProfitable {
      mask := And(mask, seq(n, i requires 0 <= i < n => df[i].profit > 0));
    }
    if spec.onlyBlockbusters {
      mask := And(mask, seq(n, i requires 0 <= i < n => df[i].movie.revenue > BlockbusterRevenue));
    }
    if spec.hiddenGems {
      mask := And(mask, seq(n, i requires 0 <= i < n =>
        df[i].movie.budget < GemBudget && df[i].movie.voteAverage >= GemRating));
    }
  }

  /**
   * `filtered_df = df[mask]`: an order-preserving subsequence of the table
   * holding exactly the rows every active constraint accepts.
   */
  method ApplyFilters(df: seq<Row>, spec: FilterSpec) returns (filtered: seq<Row>)
    ensures filtered == Filter(df, Keeps(spec))
    ensures IsSubseq(filtered, df)
    ensures forall i :: 0 <= i < |filtered| ==>
              && filtered[i].year.Some?
              && spec.yearMin <= filtered[i].year.value <= spec.yearMax
              && spec.budgetMinM * Million <= filtered[i].movie.budget <= spec.budgetMaxM * Million
              && filtered[i].movie.voteAverage >= spec.minRating
    ensures forall i :: 0 <= i < |df| && Keep(spec, df[i]) ==> df[i] in filtered
  {
    var mask := BuildMask(df, spec);
    SelectIsFilter(df, mask, Keeps(spec));
    filtered := Select(df, mask);
    FilterIsSubseq(df, Keeps(spec));
  }

  /** An empty genre selection adds no constraint. */
  lemma EmptyGenresNoConstraint(spec: FilterSpec, r: Row)
    requires spec.genres == []
    ensures Keep(spec, r) <==> InRanges(spec, r) && ProfitOk(spec, r) && BlockbusterOk(spec, r) && GemOk(spec, r)
  {
  }

  /** A row without a release year never survives the filter. */
  lemma NoYearDropped(df: seq<Row>, spec: FilterSpec)
    ensures forall i :: 0 <= i < |Filter(df, Keeps(spec))| ==> Filter(df, Keeps(spec))[i].year.Some?
  {
  }

  /** A reversed range keeps nothing (the slider never produces one; no error is raised). */
  lemma ReversedRangeEmpty(df: seq<Row>, spec: FilterSpec)
    requires spec.yearMin > spec.yearMax || spec.budgetMinM > spec.budgetMaxM
    ensures Filter(df, Keeps(spec)) == []
  {
    var r := Filter(df, Keeps(spec));
    assert forall i :: 0 <= i < |r| ==> Keep(spec, r[i]);
  }

  /** `spec2` enables every quick filter `spec1` enables, and possibly more. */
  predicate Stricter(spec2: FilterSpec, spec1: FilterSpec)
  {
    && spec2.yearMin == spec1.yearMin && spec2.yearMax == spec1.yearMax
    && spec2.budgetMinM == spec1.budgetMinM && spec2.budgetMaxM == spec1.budgetMaxM
    && spec2.minRating == spec1.minRating && spec2.genres == spec1.genres
    && (spec1.onlyProfitable ==> spec2.onlyProfitable)
    && (spec1.onlyBlockbusters ==> spec2.onlyBlockbusters)
    && (spec1.hiddenGems ==> spec2.hiddenGems)
  }

  /** Enabling more quick filters never enlarges the result: it keeps a subsequence of it. */
  lemma MoreOptionsFewerRows(df: seq<Row>, spec1: FilterSpec, spec2: FilterSpec)
    requires Stricter(spec2, spec1)
    ensures IsSubseq(Filter(df, Keeps(spec2)), Filter(df, Keeps(spec1)))
    ensures |Filter(df, Keeps(spec2))| <= |Filter(df, Keeps(spec1))|
  {
    FilterMonotone(df, Keeps(spec1), Keeps(spec2));
    SubseqLength(Filter(df, Keeps(spec2)), Filter(df, Keeps(spec1)));
  }

  lemma {:induction false} SubseqLength<T>(a: seq<T>, b: seq<T>)
    requires IsSubseq(a, b)
    ensures |a| <= |b|
    decreases |b|
  {
    if b != [] {
      if a != [] && a[0] == b[0] && IsSubseq(a[1..], b[1..]) {
        SubseqLength(a[1..], b[1..]);
      } else {
        SubseqLength(a, b[1..]);
      }
    }
  }

  /** The quick filters of both specs enabled together. */
  function Combine(spec1: FilterSpec, spec2: FilterSpec): FilterSpec
  {
    spec1.(onlyProfitable := spec1.onlyProfitable || spec2.onlyProfitable,
           onlyBlockbusters := spec1.onlyBlockbusters || spec2.onlyBlockbusters,
           hiddenGems := spec1.hiddenGems || spec2.hiddenGems)
  }

  /**
   * AND-composition: with the same ranges and genres, filtering with two sets
   * of quick filters enabled together keeps exactly the rows that each set
   * keeps on its own, in table order.
   */
  lemma CombinedIsIntersection(df: seq<Row>, spec1: FilterSpec, spec2: FilterSpec)
    requires spec1.yearMin == spec2.yearMin && spec1.yearMax == spec2.yearMax
    requires spec1.budgetMinM == spec2.budgetMinM && spec1.budgetMaxM == spec2.budgetMaxM
    requires spec1.minRating == spec2.minRating && spec1.genres == spec2.genres
    ensures Filter(df, Keeps(Combine(spec1, spec2))) == Filter(Filter(df, Keeps(spec1)), Keeps(spec2))
    ensures forall r :: r in Filter(df, Keeps(Combine(spec1, spec2))) <==>
              r in Filter(df, Keeps(spec1)) && r in Filter(df, Keeps(spec2))
  {
    var both := Combine(spec1, spec2);
    assert forall r :: Keep(both, r) <==> Keep(spec1, r) && Keep(spec2, r);
    FilterFilter(df, Keeps(spec1), Keeps(spec2), Keeps(both));
    FilterMembership(df, Keeps(both));
    FilterMembership(df, Keeps(spec1));
    FilterMembership(df, Keeps(spec2));
  }

  /** The final mask is the AND of the five parts, applied one after another. */
  lemma StepwiseNarrowing(df: seq<Row>, spec: FilterSpec)
    ensures Filter(df, Keeps(spec)) ==
      Filter(Filter(Filter(Filter(Filter(df,
        r => InRanges(spec, r)), r => GenreOk(spec, r)), r => ProfitOk(spec, r)),
        r => BlockbusterOk(spec, r)), r => GemOk(spec, r))
  {
    var p1 := (r: Row) => InRanges(spec, r);
    var p2 := (r: Row) => GenreOk(spec, r);
    var p3 := (r: Row) => ProfitOk(spec, r);
    var p4 := (r: Row) => BlockbusterOk(spec, r);
    var p5 := (r: Row) => GemOk(spec, r);
    var q2 := (r: Row) => p1(r) && p2(r);
    var q3 := (r: Row) => q2(r) && p3(r);
    var q4 := (r: Row) => q3(r) && p4(r);
    FilterFilter(df, p1, p2, q2);
    FilterFilter(df, q2, p3, q3);
    FilterFilter(df, q3, p4, q4);
    FilterFilter(df, q4, p5, Keeps(spec));
  }
}
