/**
 * The offline report script (analysis.py): row completeness, the profit and
 * release-year columns it writes into the table, and the statistics it
 * reports. Charts, the word cloud, correlations, describe/median and file
 * output are not part of this model.
 */
module Analysis {
  import opened Optional
  import opened Seqs
  import Text
  import opened Ranking
  import opened Grouping
  import opened Movies
  import Dashboard

  // ---------------------------------------------------------------------
  // Counting rows (analysis.py:11-12, 35-36)
  // ---------------------------------------------------------------------

  /** Number of rows satisfying `p` (`df[mask].shape[0]`). */
  function CountWhere<T>(xs: seq<T>, p: T -> bool): (n: nat)
    ensures n <= |xs|
    ensures n == 0 <==> forall i :: 0 <= i < |xs| ==> !p(xs[i])
    ensures n == |xs| <==> forall i :: 0 <= i < |xs| ==> p(xs[i])
    ensures n == |Filter(xs, p)|
  {
    if xs == [] then 0
    else
      var rest := CountWhere(xs[1..], p);
      assert forall i :: 1 <= i < |xs| ==> xs[i] == xs[1..][i - 1];
      (if p(xs[0]) then 1 else 0) + rest
  }

  /** Rows satisfying `p` and rows satisfying its negation together are all rows. */
  lemma {:induction false} CountSplit<T>(xs: seq<T>, p: T -> bool, notP: T -> bool)
    requires forall x :: notP(x) <==> !p(x)
    ensures CountWhere(xs, p) + CountWhere(xs, notP) == |xs|
  {
    if xs != [] {
      CountSplit(xs[1..], p, notP);
    }
  }

  /** `dropna()` keeps a row only when none of its columns is empty. */
  predicate Complete(m: Movie)
    ensures Complete(m) ==> m.genres.Some? && m.director.Some? && m.tagline.Some?
    ensures m.releaseDate.None? || m.runtime.None? || m.overview.None? ==> !Complete(m)
  {
    && m.runtime.Some? && m.releaseDate.Some? && m.genres.Some? && m.director.Some?
    && m.tagline.Some? && m.overview.Some?
    && forall k :: 0 <= k < |m.others| ==> m.others[k].Some?
  }

  function IsComplete(): Movie -> bool
  {
    (m: Movie) => Complete(m)
  }

  function IsIncomplete(): Movie -> bool
  {
    (m: Movie) => !Complete(m)
  }

  /** `df.dropna().shape[0]`. */
  function CompleteRows(movies: seq<Movie>): (n: nat)
    ensures n <= |movies|
    ensures n == |movies| <==> forall i :: 0 <= i < |movies| ==> Complete(movies[i])
    ensures n == |Filter(movies, IsComplete())|
  {
    CountWhere(movies, IsComplete())
  }

  /** `df.shape[0] - complete_rows`: exactly the rows with at least one empty column. */
  function IncompleteRows(movies: seq<Movie>): (n: nat)
    ensures n == CountWhere(movies, IsIncomplete())
    ensures n + CompleteRows(movies) == |movies|
  {
    CountSplit(movies, IsComplete(), IsIncomplete());
    |movies| - CompleteRows(movies)
  }

  function NoBudget(): Movie -> bool
  {
    (m: Movie) => m.budget == 0
  }

  function NoRevenue(): Movie -> bool
  {
    (m: Movie) => m.revenue == 0
  }

  /** `df[df['budget'] == 0].shape[0]`. */
  function ZeroBudget(movies: seq<Movie>): (n: nat)
    ensures n <= |movies|
    ensures n == 0 <==> forall i :: 0 <= i < |movies| ==> movies[i].budget != 0
    ensures n == |Filter(movies, NoBudget())|
  {
    CountWhere(movies, NoBudget())
  }

  /** `df[df['revenue'] == 0].shape[0]`. */
  function ZeroRevenue(movies: seq<Movie>): (n: nat)
    ensures n <= |movies|
    ensures n == 0 <==> forall i :: 0 <= i < |movies| ==> movies[i].revenue != 0
    ensures n == |Filter(movies, NoRevenue())|
  {
    CountWhere(movies, NoRevenue())
  }

  // ---------------------------------------------------------------------
  // The columns the script writes into the table (analysis.py:23, 42)
  // ---------------------------------------------------------------------

  /** A table row once `profit` has been added. */
  datatype Record = Record(movie: Movie, profit: int)

  /** The table with profit, as `df['profit'] = df['revenue'] - df['budget']` leaves it. */
  function WithProfit(movies: seq<Movie>): (records: seq<Record>)
    ensures |records| == |movies|
    ensures forall i :: 0 <= i < |movies| ==>
              records[i].movie == movies[i] && records[i].profit == movies[i].revenue - movies[i].budget
  {
    seq(|movies|, i requires 0 <= i < |movies| => Record(movies[i], movies[i].revenue - movies[i].budget))
  }

  /** `pd.to_datetime(release_date, errors='coerce').dt.year`: missing without a parsable date. */
  function ReleaseYears(movies: seq<Movie>, parse: string -> Option<Date>): (years: seq<Option<int>>)
    ensures |years| == |movies|
    ensures forall i :: 0 <= i < |movies| ==>
              (years[i].Some? <==> movies[i].releaseDate.Some? && parse(movies[i].releaseDate.value).Some?)
    ensures forall i :: 0 <= i < |movies| && years[i].Some? ==>
              years[i].value == parse(movies[i].releaseDate.value).value.year
  {
    seq(|movies|, i requires 0 <= i < |movies| => YearOf(ParsedDate(movies[i], parse)))
  }

  /** The script's DataFrame, column by column; it gains columns in place. */
  class Frame {
    var movies: seq<Movie>
    var profit: seq<int>
    var releaseYear: seq<Option<int>>

    constructor(movies: seq<Movie>)
      ensures this.movies == movies && profit == [] && releaseYear == []
    {
      this.movies := movies;
      profit := [];
      releaseYear := [];
    }

    /** `df['profit'] = df['revenue'] - df['budget']`: one value per row, no row added or removed. */
    method AddProfit()
      modifies this
      ensures movies == old(movies) && releaseYear == old(releaseYear)
      ensures |profit| == |movies|
      ensures forall i :: 0 <= i < |movies| ==> profit[i] == movies[i].revenue - movies[i].budget
    {
      var ms := movies;
      profit := seq(|ms|, i requires 0 <= i < |ms| => ms[i].revenue - ms[i].budget);
    }

    /** `df['release_year'] = ...dt.year`. */
    method AddReleaseYear(parse: string -> Option<Date>)
      modifies this
      ensures movies == old(movies) && profit == old(profit)
      ensures releaseYear == ReleaseYears(movies, parse)
    {
      releaseYear := ReleaseYears(movies, parse);
    }

    function Records(): (records: seq<Record>)
      reads this
      requires |profit| == |movies|
      ensures |records| == |movies|
      ensures forall i :: 0 <= i < |movies| ==> records[i] == Record(movies[i], profit[i])
      ensures (forall i :: 0 <= i < |movies| ==> profit[i] == movies[i].revenue - movies[i].budget) ==>
                records == WithProfit(movies)
    {
      var ms, ps := movies, profit;
      seq(|ms|, i requires 0 <= i < |ms| => Record(ms[i], ps[i]))
    }
  }

  // ---------------------------------------------------------------------
  // value_counts (analysis.py:26, 43) and Counter.most_common (analysis.py:54, 136)
  // ---------------------------------------------------------------------

  /** The non-empty entries of a column, in order (`dropna()`). */
  function Present<K(==)>(col: seq<Option<K>>): (vs: seq<K>)
    ensures |vs| <= |col|
    ensures forall i :: 0 <= i < |col| && col[i].Some? ==> col[i].value in vs
    ensures forall i :: 0 <= i < |vs| ==> Some(vs[i]) in col
  {
    if col == [] then []
    else
      assert forall i :: 1 <= i < |col| ==> col[i] == col[1..][i - 1];
      (if col[0].Some? then [col[0].value] else []) + Present(col[1..])
  }

  function IsValue<K(==)>(k: K): Option<K> -> bool
  {
    (o: Option<K>) => o == Some(k)
  }

  /** Occurrences of `k` among the present values are the cells equal to `k`. */
  lemma {:induction false} PresentCount<K>(col: seq<Option<K>>, k: K)
    ensures |Members(Present(col), Itself(), k)| == |Filter(col, IsValue(k))|
  {
    if col != [] {
      PresentCount(col[1..], k);
      var rest := Present(col[1..]);
      if col[0].Some? {
        assert Present(col) == [col[0].value] + rest;
        assert ([col[0].value] + rest)[1..] == rest;
      } else {
        assert Present(col) == rest;
      }
    }
  }

  /** A key of `Counter(xs)` occurs in `xs`, as often as its count says. */
  lemma CounterKeysOccur<K(!new)>(xs: seq<K>)
    ensures forall i :: 0 <= i < |Counter(xs)| ==> Counter(xs)[i].key in xs && Counter(xs)[i].count > 0
  {
    var c := Counter(xs);
    forall i | 0 <= i < |c| ensures c[i].key in xs && c[i].count > 0 {
      var k := c[i].key;
      assert k in FirstSeen(xs);
      var j :| 0 <= j < |xs| && xs[j] == k;
      assert HasKey(Itself(), k)(xs[j]);
      assert xs[j] in Members(xs, Itself(), k);
    }
  }

  /** A Counter has one entry per value. */
  lemma CounterDistinct<K(!new)>(xs: seq<K>)
    ensures DistinctBy(Counter(xs), KeyOf())
  {
  }

  /**
   * `col.value_counts().head(n)`: the n most frequent values of a column,
   * empty cells not counted, most frequent first.
   */
  function ValueCounts<K(==,!new)>(col: seq<Option<K>>, n: nat): (counts: seq<Group<K>>)
    ensures |counts| == if n < |FirstSeen(Present(col))| then n else |FirstSeen(Present(col))|
    ensures multiset(counts) <= multiset(Counter(Present(col)))
    ensures DistinctBy(counts, KeyOf())
    ensures forall i, j :: 0 <= i < j < |counts| ==> counts[i].count >= counts[j].count
    ensures forall i :: 0 <= i < |counts| ==>
              counts[i].count == |Filter(col, IsValue(counts[i].key))| && counts[i].count > 0
  {
    var c := Counter(Present(col));
    CounterKeysOccur(Present(col));
    forall i | 0 <= i < |c| ensures c[i].count == |Filter(col, IsValue(c[i].key))| {
      PresentCount(col, c[i].key);
    }
    NLargestFromInput(c, n, CountOf());
    CounterDistinct(Present(col));
    SubMultisetDistinct(NLargest(c, n, CountOf()), c, KeyOf());
    NLargest(c, n, CountOf())
  }

  /** A value left out of `value_counts().head(n)` is no more frequent than any value listed. */
  lemma ValueCountsIsTop<K(!new)>(col: seq<Option<K>>, n: nat, v: K, j: nat)
    requires Some(v) in col && j < |ValueCounts(col, n)|
    requires forall i :: 0 <= i < |ValueCounts(col, n)| ==> ValueCounts(col, n)[i].key != v
    ensures |Filter(col, IsValue(v))| <= ValueCounts(col, n)[j].count
  {
    var vs := Present(col);
    var c := Counter(vs);
    var k :| 0 <= k < |col| && col[k] == Some(v);
    assert v in vs;
    assert v in FirstSeen(vs);
    var m :| 0 <= m < |FirstSeen(vs)| && FirstSeen(vs)[m] == v;
    var top := NLargest(c, n, CountOf());
    assert c[m] !in top;
    NLargestIsTop(c, n, CountOf(), m, j);
    PresentCount(col, v);
  }

  /** `Counter(xs).most_common(n)`: the n most frequent values, most frequent first. */
  function MostCommon<K(==,!new)>(xs: seq<K>, n: nat): (top: seq<Group<K>>)
    ensures |top| == if n < |FirstSeen(xs)| then n else |FirstSeen(xs)|
    ensures multiset(top) <= multiset(Counter(xs))
    ensures DistinctBy(top, KeyOf())
    ensures forall i, j :: 0 <= i < j < |top| ==> top[i].count >= top[j].count
    ensures forall i :: 0 <= i < |top| ==>
              top[i].key in xs && top[i].count == |Members(xs, Itself(), top[i].key)| && top[i].count > 0
  {
    var c := Counter(xs);
    CounterKeysOccur(xs);
    NLargestFromInput(c, n, CountOf());
    CounterDistinct(xs);
    SubMultisetDistinct(NLargest(c, n, CountOf()), c, KeyOf());
    NLargest(c, n, CountOf())
  }

  /** A value left out of `most_common(n)` occurs no more often than any value listed. */
  lemma MostCommonIsTop<K(!new)>(xs: seq<K>, n: nat, v: K, j: nat)
    requires v in xs && j < |MostCommon(xs, n)|
    requires forall i :: 0 <= i < |MostCommon(xs, n)| ==> MostCommon(xs, n)[i].key != v
    ensures |Members(xs, Itself(), v)| <= MostCommon(xs, n)[j].count
  {
    var c := Counter(xs);
    assert v in FirstSeen(xs);
    var m :| 0 <= m < |FirstSeen(xs)| && FirstSeen(xs)[m] == v;
    var top := NLargest(c, n, CountOf());
    assert MostCommon(xs, n) == top;
    assert c[m] !in top;
    assert multiset(top)[c[m]] == 0;
    assert c[m] in multiset(c);
    NLargestIsTop(c, n, CountOf(), m, j);
  }

  /** When the count is the first occurrence of a value's position in `xs`. */
  function FirstSeenRank<K(==)>(xs: seq<K>): Group<K> -> int
  {
    (g: Group<K>) => if g.key in xs then FirstIndex(xs, g.key) else |xs|
  }

  /** `most_common` lists equally frequent values in the order they were first encountered. */
  lemma MostCommonTiesFirstSeen<K(!new)>(xs: seq<K>, n: nat)
    ensures forall i, j :: 0 <= i < j < |MostCommon(xs, n)| && MostCommon(xs, n)[i].count == MostCommon(xs, n)[j].count ==>
              FirstIndex(xs, MostCommon(xs, n)[i].key) < FirstIndex(xs, MostCommon(xs, n)[j].key)
  {
    var c := Counter(xs);
    var rank := FirstSeenRank(xs);
    FirstSeenOrder(xs);
    forall i, j | 0 <= i < j < |c| ensures rank(c[i]) < rank(c[j]) {
      assert c[i].key in xs && c[j].key in xs;
    }
    NLargestTiesInOrder(c, n, CountOf(), rank);
    CounterKeysOccur(xs);
    NLargestFromInput(c, n, CountOf());
  }

  // ---------------------------------------------------------------------
  // Genre split (analysis.py:52-54)
  // ---------------------------------------------------------------------

  function StripAll(): string -> string
  {
    s => Text.Strip(s)
  }

  /** `[genre.strip() for genre in g.split('|')]`: one entry per '|'-separated segment. */
  function Pieces(g: string): (ps: seq<string>)
    ensures |ps| == |Text.Split(g, GenreSeparator)| == |Filter(g, Text.Is(GenreSeparator))| + 1
    ensures forall i :: 0 <= i < |ps| ==> ps[i] == Text.Strip(Text.Split(g, GenreSeparator)[i])
    ensures forall i :: 0 <= i < |ps| ==> Text.Stripped(ps[i]) && GenreSeparator !in ps[i]
  {
    Text.SplitCount(g, GenreSeparator);
    var parts := Text.Split(g, GenreSeparator);
    forall i | 0 <= i < |parts| ensures GenreSeparator !in Text.Strip(parts[i]) {
      var r := Text.Strip(parts[i]);
      var a, b :| 0 <= a <= b <= |parts[i]| && r == parts[i][a..b] && Text.AllSpace(parts[i][..a]) && Text.AllSpace(parts[i][b..]);
      forall k | 0 <= k < |r| ensures r[k] != GenreSeparator {
        assert r[k] == parts[i][a + k];
      }
    }
    Map(parts, StripAll())
  }

  /**
   * `[genre.strip() for sublist in genres_split for genre in sublist]`: the
   * pieces of every present genre cell, cell by cell; an empty cell
   * contributes nothing.
   */
  function FlatGenres(col: seq<Option<string>>): (flat: seq<string>)
    ensures forall i :: 0 <= i < |flat| ==> Text.Stripped(flat[i]) && GenreSeparator !in flat[i]
  {
    if col == [] then []
    else (if col[0].Some? then Pieces(col[0].value) else []) + FlatGenres(col[1..])
  }

  /** A genre is in the flattened list exactly when it is a piece of some present cell. */
  lemma {:induction false} FlatGenresMembers(col: seq<Option<string>>)
    ensures forall x :: x in FlatGenres(col) <==> exists i :: 0 <= i < |col| && col[i].Some? && x in Pieces(col[i].value)
  {
    if col != [] {
      FlatGenresMembers(col[1..]);
      var head := if col[0].Some? then Pieces(col[0].value) else [];
      var rest := FlatGenres(col[1..]);
      assert FlatGenres(col) == head + rest;
      forall x | x in head + rest
        ensures exists i :: 0 <= i < |col| && col[i].Some? && x in Pieces(col[i].value)
      {
        if x !in head {
          var i :| 0 <= i < |col[1..]| && col[1..][i].Some? && x in Pieces(col[1..][i].value);
          assert col[i + 1] == col[1..][i];
        }
      }
      forall x, i | 0 <= i < |col| && col[i].Some? && x in Pieces(col[i].value)
        ensures x in head + rest
      {
        if i > 0 {
          assert col[1..][i - 1] == col[i];
        }
      }
    }
  }

  /** A single cell contributes its pieces when present and nothing when empty. */
  lemma FlatGenresCell(c: Option<string>)
    ensures FlatGenres([c]) == if c.Some? then Pieces(c.value) else []
  {
    assert [c][1..] == [];
  }

  lemma {:induction false} FlatGenresAppend(a: seq<Option<string>>, b: seq<Option<string>>)
    ensures FlatGenres(a + b) == FlatGenres(a) + FlatGenres(b)
  {
    if a == [] {
      assert a + b == b;
    } else {
      var c := a + b;
      assert c[0] == a[0] && c[1..] == a[1..] + b;
      var head := if a[0].Some? then Pieces(a[0].value) else [];
      calc {
        FlatGenres(c);
        head + FlatGenres(a[1..] + b);
        { FlatGenresAppend(a[1..], b); }
        head + (FlatGenres(a[1..]) + FlatGenres(b));
        { AppendAssoc(head, FlatGenres(a[1..]), FlatGenres(b)); }
        (head + FlatGenres(a[1..])) + FlatGenres(b);
        FlatGenres(a) + FlatGenres(b);
      }
    }
  }

  function IsPresent(): Option<string> -> bool
  {
    (o: Option<string>) => o.Some?
  }

  /** Dropping the empty genre cells first (`dropna()`) changes nothing. */
  lemma {:induction false} FlatGenresSkipsMissing(col: seq<Option<string>>)
    ensures FlatGenres(Filter(col, IsPresent())) == FlatGenres(col)
  {
    if col != [] {
      FlatGenresSkipsMissing(col[1..]);
      var rest := Filter(col[1..], IsPresent());
      if col[0].Some? {
        var s := [col[0]] + rest;
        assert Filter(col, IsPresent()) == s;
        assert s[0] == col[0] && s[1..] == rest;
        assert FlatGenres(s) == Pieces(col[0].value) + FlatGenres(rest);
      } else {
        assert Filter(col, IsPresent()) == rest;
        assert FlatGenres(col) == FlatGenres(col[1..]);
      }
    }
  }

  /** Number of entries a genre cell contributes: separators plus one, none when empty. */
  function Segments(): Option<string> -> real
  {
    (o: Option<string>) => if o.None? then 0.0 else |Filter(o.value, Text.Is(GenreSeparator))| as real + 1.0
  }

  lemma {:induction false} FlatGenresLength(col: seq<Option<string>>)
    ensures |FlatGenres(col)| as real == Sum(col, Segments())
  {
    if col != [] {
      FlatGenresLength(col[1..]);
    }
  }

  /** `Counter(flat_genres)`: the counts add up to the number of genre segments. */
  lemma GenreCountsTotal(col: seq<Option<string>>)
    ensures Sum(Counter(FlatGenres(col)), CountOf()) == Sum(col, Segments())
  {
    CounterTotal(FlatGenres(col));
    FlatGenresLength(col);
  }

  // ---------------------------------------------------------------------
  // Rankings (analysis.py:29, 39) and the tagline query (analysis.py:32)
  // ---------------------------------------------------------------------

  /** The columns `top_profit` keeps. */
  datatype ProfitLine = ProfitLine(title: string, budget: int, revenue: int, profit: int)

  function Line(): Record -> ProfitLine
  {
    (r: Record) => ProfitLine(r.movie.title, r.movie.budget, r.movie.revenue, r.profit)
  }

  function RecordProfit(): Record -> real
  {
    (r: Record) => r.profit as real
  }

  /** `sort_values(by='profit', ascending=False).head(5)`. */
  function TopProfit(records: seq<Record>): (top: seq<ProfitLine>)
    ensures |top| == if |records| < 5 then |records| else 5
    ensures forall i, j :: 0 <= i < j < |top| ==> top[i].profit >= top[j].profit
    ensures multiset(top) <= multiset(Map(records, Line()))
  {
    var best := NLargest(records, 5, RecordProfit());
    MapSubMultiset(best, records, Line());
    Map(best, Line())
  }

  /** A movie left out of the top five made no more profit than any movie listed. */
  lemma TopProfitIsTop(records: seq<Record>, k: nat, j: nat)
    requires k < |records| && j < |TopProfit(records)|
    requires Line()(records[k]) !in TopProfit(records)
    ensures records[k].profit <= TopProfit(records)[j].profit
  {
    var best := NLargest(records, 5, RecordProfit());
    forall m | 0 <= m < |best| ensures best[m] != records[k] {
      assert TopProfit(records)[m] == Line()(best[m]);
    }
    NLargestIsTop(records, 5, RecordProfit(), k, j);
  }

  function DirectorKey(): Record -> Option<string>
  {
    (r: Record) => r.movie.director
  }

  function DirectorRows(records: seq<Record>, director: string): seq<Record>
  {
    Members(records, DirectorKey(), director)
  }

  /** `groupby('director')['profit'].sum()`: rows without a director are dropped. */
  function DirectorTotals(records: seq<Record>): (totals: seq<Group<string>>)
    ensures forall i, j :: 0 <= i < j < |totals| ==> Text.StrLess(totals[i].key, totals[j].key)
    ensures forall i :: 0 <= i < |totals| ==>
              totals[i].total == Sum(DirectorRows(records, totals[i].key), RecordProfit()) && totals[i].count > 0
    ensures forall k :: 0 <= k < |records| && records[k].movie.director.Some? ==>
              exists i :: 0 <= i < |totals| && totals[i].key == records[k].movie.director.value
  {
    Dashboard.StringOrderIsStrictTotal();
    GroupByKeys(records, DirectorKey(), Dashboard.StringOrder(), RecordProfit());
    GroupBy(records, DirectorKey(), Dashboard.StringOrder(), RecordProfit())
  }

  /** Every dollar of profit of a movie with a director is in exactly one director's sum. */
  lemma DirectorTotalsConserve(records: seq<Record>)
    ensures Sum(DirectorTotals(records), TotalOf()) == Sum(Filter(records, Keyed(DirectorKey())), RecordProfit())
  {
    Dashboard.StringOrderIsStrictTotal();
    GroupByConserves(records, DirectorKey(), Dashboard.StringOrder(), RecordProfit());
  }

  /** `...sum().sort_values(ascending=False).head(5)`. */
  function TopDirectors(records: seq<Record>): (top: seq<Group<string>>)
    ensures |top| == if |DirectorTotals(records)| < 5 then |DirectorTotals(records)| else 5
    ensures multiset(top) <= multiset(DirectorTotals(records))
    ensures DistinctBy(top, KeyOf())
    ensures forall i, j :: 0 <= i < j < |top| ==> top[i].total >= top[j].total
    ensures forall i :: 0 <= i < |top| ==>
              top[i].total == Sum(DirectorRows(records, top[i].key), RecordProfit()) && top[i].count > 0
  {
    var totals := DirectorTotals(records);
    NLargestFromInput(totals, 5, TotalOf());
    assert DistinctBy(totals, KeyOf()) by {
      forall i, j | 0 <= i < j < |totals| ensures totals[i].key != totals[j].key {
        assert Text.StrLess(totals[i].key, totals[j].key);
      }
    }
    SubMultisetDistinct(NLargest(totals, 5, TotalOf()), totals, KeyOf());
    NLargest(totals, 5, TotalOf())
  }

  /** A director left out of the top five has a profit sum no larger than any director listed. */
  lemma TopDirectorsIsTop(records: seq<Record>, k: nat, j: nat)
    requires k < |DirectorTotals(records)| && j < |TopDirectors(records)|
    requires DirectorTotals(records)[k] !in TopDirectors(records)
    ensures DirectorTotals(records)[k].total <= TopDirectors(records)[j].total
  {
    NLargestIsTop(DirectorTotals(records), 5, TotalOf(), k, j);
  }

  const HighRevenue := 100_000_000

  function UntaggedHit(): Movie -> bool
  {
    (m: Movie) => m.tagline.None? && m.revenue > HighRevenue
  }

  /** `df[df['tagline'].isnull() & (df['revenue'] > 1e8)]`: exactly those rows, in table order. */
  function UntaggedHits(movies: seq<Movie>): (hits: seq<Movie>)
    ensures IsSubseq(hits, movies)
    ensures forall i :: 0 <= i < |hits| ==> hits[i].tagline.None? && hits[i].revenue > HighRevenue
    ensures forall m :: multiset(hits)[m] == if m.tagline.None? && m.revenue > HighRevenue then multiset(movies)[m] else 0
  {
    FilterIsSubseq(movies, UntaggedHit());
    FilterMultiset(movies, UntaggedHit());
    Filter(movies, UntaggedHit())
  }

  datatype TitleRevenue = TitleRevenue(title: string, revenue: int)

  function TitleAndRevenue(): Movie -> TitleRevenue
  {
    (m: Movie) => TitleRevenue(m.title, m.revenue)
  }

  /** `[['original_title', 'revenue']]` of the selection: one line per selected movie, in order. */
  function MissingTaglines(movies: seq<Movie>): (lines: seq<TitleRevenue>)
    ensures |lines| == |UntaggedHits(movies)|
    ensures forall i :: 0 <= i < |lines| ==>
              lines[i].title == UntaggedHits(movies)[i].title && lines[i].revenue == UntaggedHits(movies)[i].revenue
    ensures forall i :: 0 <= i < |lines| ==> lines[i].revenue > HighRevenue
  {
    Map(UntaggedHits(movies), TitleAndRevenue())
  }

  // ---------------------------------------------------------------------
  // The script (analysis.py:8-54, 136)
  // ---------------------------------------------------------------------

  datatype Report = Report(
    totalRows: nat,
    completeRows: nat,
    incompleteRows: nat,
    genreCombos: seq<Group<string>>,
    topProfit: seq<ProfitLine>,
    missingTaglines: seq<TitleRevenue>,
    zeroBudget: nat,
    zeroRevenue: nat,
    topDirectors: seq<Group<string>>,
    topYears: seq<Group<int>>,
    topGenres: seq<Group<string>>)

  function GenresColumn(movies: seq<Movie>): seq<Option<string>>
  {
    seq(|movies|, i requires 0 <= i < |movies| => movies[i].genres)
  }

  /** What the script reports for a table, statistic by statistic. */
  function Expected(movies: seq<Movie>, parse: string -> Option<Date>): Report
  {
    var records := WithProfit(movies);
    Report(|movies|, CompleteRows(movies), IncompleteRows(movies),
           ValueCounts(GenresColumn(movies), 10), TopProfit(records), MissingTaglines(movies),
           ZeroBudget(movies), ZeroRevenue(movies), TopDirectors(records),
           ValueCounts(ReleaseYears(movies, parse), 5), MostCommon(FlatGenres(GenresColumn(movies)), 10))
  }

  /**
   * The script top to bottom on the loaded table: counts, then the profit
   * column, the statistics, the release-year column and the genre counts.
   */
  method Analyze(movies: seq<Movie>, parse: string -> Option<Date>) returns (report: Report)
    ensures report == Expected(movies, parse)
  {
    var df := new Frame(movies);
    var complete := CompleteRows(df.movies);
    var incomplete := |df.movies| - complete;
    assert incomplete == IncompleteRows(movies);
    df.AddProfit();
    assert df.movies == movies;
    var genreCombos := ValueCounts(GenresColumn(df.movies), 10);
    var records := df.Records();
    var topProfit := TopProfit(records);
    var missingTaglines := MissingTaglines(df.movies);
    var zeroBudget := ZeroBudget(df.movies);
    var zeroRevenue := ZeroRevenue(df.movies);
    var topDirectors := TopDirectors(records);
    df.AddReleaseYear(parse);
    assert df.movies == movies && df.releaseYear == ReleaseYears(movies, parse);
    var topYears := ValueCounts(df.releaseYear, 5);
    var flatGenres := FlatGenres(GenresColumn(df.movies));
    var topGenres := MostCommon(flatGenres, 10);
    report := Report(|df.movies|, complete, incomplete, genreCombos, topProfit, missingTaglines,
                     zeroBudget, zeroRevenue, topDirectors, topYears, topGenres);
  }
}
