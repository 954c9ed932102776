/**
 * The aggregations the dashboard (app.py) computes from the filtered table:
 * genre performance cards, top insights, revenue by genre and by year, the
 * scatter sample, the comparison list, the financial rankings and the
 * explorer order. Chart and markup construction is not part of this model.
 */
module Dashboard {
  import opened Optional
  import opened Seqs
  import Text
  import opened Ranking
  import opened Grouping
  import opened Movies
  import Filters

  function GenreKey(): Row -> Option<string>
  {
    (r: Row) => Some(r.primaryGenre)
  }

  function YearKey(): Row -> Option<int>
  {
    (r: Row) => r.year
  }

  function RevenueOf(): Row -> real
  {
    (r: Row) => r.movie.revenue as real
  }

  function ProfitOf(): Row -> real
  {
    (r: Row) => r.profit as real
  }

  function RatingOf(): Row -> real
  {
    (r: Row) => r.movie.voteAverage
  }

  function RoiOf(): Row -> real
  {
    (r: Row) => r.roi
  }

  /** pandas orders string labels by Python's `<` on `str`. */
  function StringOrder(): (string, string) -> bool
  {
    (a, b) => Text.StrLess(a, b)
  }

  function IntOrder(): (int, int) -> bool
  {
    (a, b) => a < b
  }

  lemma StringOrderIsStrictTotal()
    ensures StrictTotalOrder(StringOrder())
  {
    forall a: string ensures !StringOrder()(a, a) {
      Text.StrLessIrreflexive(a);
    }
    forall a: string, b: string, c: string | StringOrder()(a, b) && StringOrder()(b, c)
      ensures StringOrder()(a, c)
    {
      Text.StrLessTransitive(a, b, c);
    }
    forall a: string, b: string | a != b ensures StringOrder()(a, b) || StringOrder()(b, a) {
      Text.StrLessTotal(a, b);
    }
  }

  lemma IntOrderIsStrictTotal()
    ensures StrictTotalOrder(IntOrder())
  {
  }

  // ---------------------------------------------------------------------
  // Genre performance (app.py:499-515)
  // ---------------------------------------------------------------------

  /** One line of `groupby('primary_genre').agg(revenue sum, title count, vote_average mean)`. */
  datatype GenreStat = GenreStat(genre: string, revenue: real, movies: nat, rating: real)

  function GenreRows(rows: seq<Row>, genre: string): seq<Row>
  {
    Members(rows, GenreKey(), genre)
  }

  /** `s` is the aggregate of the rows of its genre: revenue sum, movie count and mean rating. */
  predicate Describes(rows: seq<Row>, s: GenreStat)
  {
    var members := GenreRows(rows, s.genre);
    && s.revenue == Sum(members, RevenueOf())
    && s.movies == |members| && s.movies > 0
    && s.rating == Sum(members, RatingOf()) / s.movies as real
  }

  function Stat(rows: seq<Row>, g: Group<string>): (s: GenreStat)
    requires g.count > 0
    requires g.total == Sum(GenreRows(rows, g.key), RevenueOf()) && g.count == |GenreRows(rows, g.key)|
    ensures s.genre == g.key && Describes(rows, s)
  {
    GenreStat(g.key, g.total, g.count, Sum(GenreRows(rows, g.key), RatingOf()) / g.count as real)
  }

  /** The per-genre table, genres ascending. */
  function GenreTable(rows: seq<Row>): (t: seq<GenreStat>)
    ensures |t| == |GroupBy(rows, GenreKey(), StringOrder(), RevenueOf())|
    ensures forall i :: 0 <= i < |t| ==>
              t[i].genre == GroupBy(rows, GenreKey(), StringOrder(), RevenueOf())[i].key && Describes(rows, t[i])
  {
    var gs := GroupBy(rows, GenreKey(), StringOrder(), RevenueOf());
    seq(|gs|, i requires 0 <= i < |gs| => Stat(rows, gs[i]))
  }

  /** Every genre of the table has exactly one line, in ascending order. */
  lemma GenreTableKeys(rows: seq<Row>)
    ensures forall i, j :: 0 <= i < j < |GenreTable(rows)| ==>
              Text.StrLess(GenreTable(rows)[i].genre, GenreTable(rows)[j].genre)
    ensures forall k :: 0 <= k < |rows| ==>
              exists i :: 0 <= i < |GenreTable(rows)| && GenreTable(rows)[i].genre == rows[k].primaryGenre
  {
    StringOrderIsStrictTotal();
    GroupByKeys(rows, GenreKey(), StringOrder(), RevenueOf());
    var gs := GroupBy(rows, GenreKey(), StringOrder(), RevenueOf());
    forall k | 0 <= k < |rows|
      ensures exists i :: 0 <= i < |GenreTable(rows)| && GenreTable(rows)[i].genre == rows[k].primaryGenre
    {
      assert GenreKey()(rows[k]).Some?;
      var j :| 0 <= j < |gs| && gs[j].key == GenreKey()(rows[k]).value;
      assert GenreTable(rows)[j].genre == rows[k].primaryGenre;
    }
  }

  /** The genre lines account for every movie and every dollar of revenue of the table. */
  lemma GenreTableConserves(rows: seq<Row>)
    ensures Sum(GroupBy(rows, GenreKey(), StringOrder(), RevenueOf()), TotalOf()) == Sum(rows, RevenueOf())
    ensures Sum(GroupBy(rows, GenreKey(), StringOrder(), RevenueOf()), CountOf()) == |rows| as real
  {
    StringOrderIsStrictTotal();
    GroupByConserves(rows, GenreKey(), StringOrder(), RevenueOf());
    FilterKeepsAll(rows, Keyed(GenreKey()));
  }

  function GenreRevenue(): GenreStat -> real
  {
    (s: GenreStat) => s.revenue
  }

  function GenreName(): GenreStat -> string
  {
    (s: GenreStat) => s.genre
  }

  /** The genre lines name each genre once. */
  lemma GenreTableDistinct(rows: seq<Row>)
    ensures DistinctBy(GenreTable(rows), GenreName())
  {
    GenreTableKeys(rows);
    var t := GenreTable(rows);
    forall i, j | 0 <= i < j < |t| ensures t[i].genre != t[j].genre {
      assert Text.StrLess(t[i].genre, t[j].genre);
    }
  }

  /** `genre_data.nlargest(5, 'revenue')`: the five genre cards, one per genre, highest revenue first. */
  function GenrePerformance(rows: seq<Row>): (cards: seq<GenreStat>)
    ensures |cards| == if |GenreTable(rows)| < 5 then |GenreTable(rows)| else 5
    ensures multiset(cards) <= multiset(GenreTable(rows))
    ensures DistinctBy(cards, GenreName())
    ensures forall i, j :: 0 <= i < j < |cards| ==> cards[i].revenue >= cards[j].revenue
    ensures forall i :: 0 <= i < |cards| ==> Describes(rows, cards[i])
  {
    var t := GenreTable(rows);
    GenreTableDistinct(rows);
    TopGenreLines(rows, t);
    NLargest(t, 5, GenreRevenue())
  }

  /** The top genre lines are genre lines: each describes its genre, and no genre twice. */
  lemma TopGenreLines(rows: seq<Row>, t: seq<GenreStat>)
    requires DistinctBy(t, GenreName())
    requires forall i :: 0 <= i < |t| ==> Describes(rows, t[i])
    ensures DistinctBy(NLargest(t, 5, GenreRevenue()), GenreName())
    ensures forall i :: 0 <= i < |NLargest(t, 5, GenreRevenue())| ==> Describes(rows, NLargest(t, 5, GenreRevenue())[i])
  {
    NLargestFromInput(t, 5, GenreRevenue());
    SubMultisetDistinct(NLargest(t, 5, GenreRevenue()), t, GenreName());
  }

  /** A genre left off the cards earns no more than any genre on them. */
  lemma GenrePerformanceIsTop(rows: seq<Row>, k: nat, j: nat)
    requires k < |GenreTable(rows)| && j < |GenrePerformance(rows)|
    requires GenreTable(rows)[k] !in GenrePerformance(rows)
    ensures GenreTable(rows)[k].revenue <= GenrePerformance(rows)[j].revenue
  {
    var t := GenreTable(rows);
    var cards := NLargest(t, 5, GenreRevenue());
    assert GenrePerformance(rows) == cards;
    assert multiset(cards)[t[k]] == 0;
    assert t[k] in multiset(t);
    NLargestIsTop(t, 5, GenreRevenue(), k, j);
  }

  /** A revenue between 0 and a positive maximum is between 0 and 100 percent of it. */
  lemma ShareBounded(revenue: real, maxRev: real)
    requires 0.0 <= revenue <= maxRev && maxRev > 0.0
    ensures 0.0 <= revenue / maxRev * 100.0 <= 100.0
  {
    var q := revenue / maxRev;
    assert q * maxRev == revenue;
    assert q <= 1.0;
  }

  /** A percentage of a maximum, multiplied by that maximum, gives back 100 times the part. */
  lemma ShareTimesMax(revenue: real, maxRev: real)
    requires maxRev != 0.0
    ensures (revenue / maxRev * 100.0) * maxRev == revenue * 100.0
  {
    var q := revenue / maxRev;
    assert q * maxRev == revenue;
  }

  /** `m` is the largest card revenue (`genre_data['revenue'].max()`). */
  ghost predicate IsMaxRevenue(cards: seq<GenreStat>, m: real)
  {
    && (exists j :: 0 <= j < |cards| && cards[j].revenue == m)
    && (forall k :: 0 <= k < |cards| ==> cards[k].revenue <= m)
  }

  /** `genre_data['revenue'].max()`: the largest card revenue, and the only value that is. */
  function MaxRevenue(cards: seq<GenreStat>): (m: real)
    requires |cards| > 0
    ensures IsMaxRevenue(cards, m)
    ensures forall m' :: IsMaxRevenue(cards, m') ==> m' == m
  {
    var top := ArgMax(cards, GenreRevenue());
    forall m' | IsMaxRevenue(cards, m') ensures m' == cards[top].revenue {
      var j :| 0 <= j < |cards| && cards[j].revenue == m';
    }
    cards[top].revenue
  }

  /** Every card's revenue as a percentage of `maxRev`; None when `maxRev` is 0. */
  function Percentages(cards: seq<GenreStat>, maxRev: real): (pct: seq<Option<real>>)
    ensures |pct| == |cards|
    ensures forall i :: 0 <= i < |cards| ==> (pct[i].Some? <==> maxRev != 0.0)
    ensures forall i :: 0 <= i < |cards| && pct[i].Some? ==> pct[i].value * maxRev == cards[i].revenue * 100.0
    ensures forall i :: 0 <= i < |cards| && pct[i].Some? ==> pct[i].value == cards[i].revenue / maxRev * 100.0
    ensures forall i :: 0 <= i < |cards| && 0.0 <= cards[i].revenue <= maxRev && pct[i].Some? ==>
              0.0 <= pct[i].value <= 100.0
  {
    var pct := seq(|cards|, i requires 0 <= i < |cards| =>
      if maxRev == 0.0 then None else Some(cards[i].revenue / maxRev * 100.0));
    forall i | 0 <= i < |cards| && pct[i].Some?
      ensures pct[i].value * maxRev == cards[i].revenue * 100.0
      ensures 0.0 <= cards[i].revenue <= maxRev ==> 0.0 <= pct[i].value <= 100.0
    {
      ShareTimesMax(cards[i].revenue, maxRev);
      if 0.0 <= cards[i].revenue <= maxRev {
        ShareBounded(cards[i].revenue, maxRev);
      }
    }
    pct
  }

  /**
   * Each card's bar: its revenue as a percentage of the largest card revenue.
   * pandas yields NaN or an infinity when that maximum is 0; that is None here.
   */
  function RevenueShares(cards: seq<GenreStat>): (pct: seq<Option<real>>)
    ensures |pct| == |cards|
    ensures cards != [] ==> forall i :: 0 <= i < |cards| ==> (pct[i].Some? <==> MaxRevenue(cards) != 0.0)
    ensures cards != [] ==> forall i :: 0 <= i < |cards| && pct[i].Some? ==>
              pct[i].value == cards[i].revenue / MaxRevenue(cards) * 100.0
    ensures forall i :: 0 <= i < |cards| && cards[i].revenue >= 0.0 && pct[i].Some? ==>
              0.0 <= pct[i].value <= 100.0
  {
    if cards == [] then [] else Percentages(cards, MaxRevenue(cards))
  }

  // ---------------------------------------------------------------------
  // Top insights (app.py:556-589)
  // ---------------------------------------------------------------------

  const MinVotes := 500

  /** `filtered_df.loc[filtered_df['revenue'].idxmax()]`, shown only when the table is not empty. */
  function TopGrosser(rows: seq<Row>): (top: Option<Row>)
    ensures top.Some? <==> |rows| > 0
    ensures top.Some? ==> (top.value in rows &&
              forall k :: 0 <= k < |rows| ==> rows[k].movie.revenue <= top.value.movie.revenue)
    ensures top.Some? ==>
              exists i :: 0 <= i < |rows| && top.value == rows[i] &&
                (forall k :: 0 <= k < i ==> rows[k].movie.revenue < rows[i].movie.revenue)
  {
    if |rows| == 0 then None else Some(rows[ArgMax(rows, RevenueOf())])
  }

  function WellVoted(): Row -> bool
  {
    (r: Row) => r.movie.voteCount >= MinVotes
  }

  /** Best rated among movies with at least 500 votes; nothing when there is none. */
  function BestRated(rows: seq<Row>): (best: Option<Row>)
    ensures best.Some? <==> exists k :: 0 <= k < |rows| && rows[k].movie.voteCount >= MinVotes
    ensures best.Some? ==> (best.value in rows && best.value.movie.voteCount >= MinVotes &&
              forall k :: 0 <= k < |rows| && rows[k].movie.voteCount >= MinVotes ==>
                rows[k].movie.voteAverage <= best.value.movie.voteAverage)
    ensures best.Some? ==>
              exists i :: 0 <= i < |Filter(rows, WellVoted())| && best.value == Filter(rows, WellVoted())[i] &&
                (forall k :: 0 <= k < i ==> Filter(rows, WellVoted())[k].movie.voteAverage < best.value.movie.voteAverage)
  {
    var rated := Filter(rows, WellVoted());
    if |rated| > 0 then Some(rated[ArgMax(rated, RatingOf())]) else None
  }

  function BigBudget(): Row -> bool
  {
    (r: Row) => r.movie.budget >= Filters.Million
  }

  /** Best ROI among movies with a budget of at least one million; nothing when there is none. */
  function BestRoi(rows: seq<Row>): (best: Option<Row>)
    ensures best.Some? <==> exists k :: 0 <= k < |rows| && rows[k].movie.budget >= Filters.Million
    ensures best.Some? ==> (best.value in rows && best.value.movie.budget >= Filters.Million &&
              forall k :: 0 <= k < |rows| && rows[k].movie.budget >= Filters.Million ==>
                rows[k].roi <= best.value.roi)
    ensures best.Some? ==>
              exists i :: 0 <= i < |Filter(rows, BigBudget())| && best.value == Filter(rows, BigBudget())[i] &&
                (forall k :: 0 <= k < i ==> Filter(rows, BigBudget())[k].roi < best.value.roi)
  {
    var funded := Filter(rows, BigBudget());
    if |funded| > 0 then Some(funded[ArgMax(funded, RoiOf())]) else None
  }

  // ---------------------------------------------------------------------
  // Revenue by genre (app.py:595) and by year (app.py:602)
  // ---------------------------------------------------------------------

  /** `groupby('primary_genre')['revenue'].sum().nlargest(8)`. */
  function GenreRevenueShare(rows: seq<Row>): (top: seq<Group<string>>)
    ensures |top| == if |GenreTable(rows)| < 8 then |GenreTable(rows)| else 8
    ensures multiset(top) <= multiset(GroupBy(rows, GenreKey(), StringOrder(), RevenueOf()))
    ensures DistinctBy(top, KeyOf())
    ensures forall i, j :: 0 <= i < j < |top| ==> top[i].total >= top[j].total
    ensures forall i :: 0 <= i < |top| ==> top[i].total == Sum(GenreRows(rows, top[i].key), RevenueOf())
  {
    var gs := GroupBy(rows, GenreKey(), StringOrder(), RevenueOf());
    NLargestFromInput(gs, 8, TotalOf());
    GenreGroupsDistinct(rows);
    SubMultisetDistinct(NLargest(gs, 8, TotalOf()), gs, KeyOf());
    NLargest(gs, 8, TotalOf())
  }

  /** A genre left out of the pie earns no more than any genre in it. */
  lemma GenreRevenueShareIsTop(rows: seq<Row>, k: nat, j: nat)
    requires k < |GroupBy(rows, GenreKey(), StringOrder(), RevenueOf())| && j < |GenreRevenueShare(rows)|
    requires GroupBy(rows, GenreKey(), StringOrder(), RevenueOf())[k] !in GenreRevenueShare(rows)
    ensures GroupBy(rows, GenreKey(), StringOrder(), RevenueOf())[k].total <= GenreRevenueShare(rows)[j].total
  {
    var gs := GroupBy(rows, GenreKey(), StringOrder(), RevenueOf());
    var top := NLargest(gs, 8, TotalOf());
    assert GenreRevenueShare(rows) == top;
    assert multiset(top)[gs[k]] == 0;
    assert gs[k] in multiset(gs);
    NLargestIsTop(gs, 8, TotalOf(), k, j);
  }

  /** The genre groups carry distinct labels. */
  lemma GenreGroupsDistinct(rows: seq<Row>)
    ensures DistinctBy(GroupBy(rows, GenreKey(), StringOrder(), RevenueOf()), KeyOf())
  {
    StringOrderIsStrictTotal();
    GroupByKeys(rows, GenreKey(), StringOrder(), RevenueOf());
    var gs := GroupBy(rows, GenreKey(), StringOrder(), RevenueOf());
    forall i, j | 0 <= i < j < |gs| ensures gs[i].key != gs[j].key {
      assert Text.StrLess(gs[i].key, gs[j].key);
    }
  }

  function YearRows(rows: seq<Row>, year: int): seq<Row>
  {
    Members(rows, YearKey(), year)
  }

  /** `groupby('year').agg(revenue sum, title count)`: one line per release year, ascending. */
  function Yearly(rows: seq<Row>): (years: seq<Group<int>>)
    ensures forall i, j :: 0 <= i < j < |years| ==> years[i].key < years[j].key
    ensures forall i :: 0 <= i < |years| ==>
              years[i].total == Sum(YearRows(rows, years[i].key), RevenueOf()) &&
              years[i].count == |YearRows(rows, years[i].key)| && years[i].count > 0
  {
    IntOrderIsStrictTotal();
    GroupByKeys(rows, YearKey(), IntOrder(), RevenueOf());
    GroupBy(rows, YearKey(), IntOrder(), RevenueOf())
  }

  /** Rows without a year are left out of the yearly lines; all other revenue and movies are counted once. */
  lemma YearlyConserves(rows: seq<Row>)
    ensures Sum(Yearly(rows), TotalOf()) == Sum(Filter(rows, Keyed(YearKey())), RevenueOf())
    ensures Sum(Yearly(rows), CountOf()) == |Filter(rows, Keyed(YearKey()))| as real
  {
    IntOrderIsStrictTotal();
    GroupByConserves(rows, YearKey(), IntOrder(), RevenueOf());
  }

  // ---------------------------------------------------------------------
  // Scatter sample (app.py:625-633), comparison list (app.py:651),
  // financial rankings (app.py:718, 731), explorer order (app.py:921-928)
  // ---------------------------------------------------------------------

  /** The numeric columns the dashboard lets a user pick for an axis or a sort. */
  datatype Column = Budget | Revenue | Profit | Roi | VoteAverage | VoteCount | Popularity | Runtime | Year

  /** A column's value in a row; None is NaN. */
  function Value(r: Row, c: Column): Option<real>
  {
    match c
    case Budget => Some(r.movie.budget as real)
    case Revenue => Some(r.movie.revenue as real)
    case Profit => Some(r.profit as real)
    case Roi => Some(r.roi)
    case VoteAverage => Some(r.movie.voteAverage)
    case VoteCount => Some(r.movie.voteCount as real)
    case Popularity => Some(r.movie.popularity)
    case Runtime => if r.movie.runtime.Some? then Some(r.movie.runtime.value as real) else None
    case Year => if r.year.Some? then Some(r.year.value as real) else None
  }

  const ScatterLimit := 400

  /** `x > 0` is false on NaN; `y != 0` is true on NaN. */
  function Plottable(x: Column, y: Column): Row -> bool
  {
    (r: Row) => Value(r, x).Some? && Value(r, x).value > 0.0 && Value(r, y) != Some(0.0)
  }

  /** `filtered_df[(x > 0) & (y != 0)].head(400)`. */
  function ScatterSample(rows: seq<Row>, x: Column, y: Column): (pts: seq<Row>)
    ensures |pts| <= ScatterLimit
    ensures pts <= Filter(rows, Plottable(x, y))
    ensures forall i :: 0 <= i < |pts| ==>
              Value(pts[i], x).Some? && Value(pts[i], x).value > 0.0 && Value(pts[i], y) != Some(0.0)
    ensures |pts| == if |Filter(rows, Plottable(x, y))| < ScatterLimit then |Filter(rows, Plottable(x, y))| else ScatterLimit
  {
    Head(Filter(rows, Plottable(x, y)), ScatterLimit)
  }

  function Title(): Row -> string
  {
    (r: Row) => r.movie.title
  }

  /** `nlargest(200, 'revenue')`: the 200 highest-grossing movies, highest first. */
  function TopGrossing(rows: seq<Row>): (top: seq<Row>)
    ensures |top| == if |rows| < 200 then |rows| else 200
    ensures forall i, j :: 0 <= i < j < |top| ==> top[i].movie.revenue >= top[j].movie.revenue
    ensures multiset(top) <= multiset(rows)
  {
    NLargest(rows, 200, RevenueOf())
  }

  /** A movie left off the comparison list grossed no more than any movie on it. */
  lemma TopGrossingIsTop(rows: seq<Row>, k: nat, j: nat)
    requires k < |rows| && j < |TopGrossing(rows)|
    requires rows[k] !in TopGrossing(rows)
    ensures rows[k].movie.revenue <= TopGrossing(rows)[j].movie.revenue
  {
    var top := NLargest(rows, 200, RevenueOf());
    assert TopGrossing(rows) == top;
    assert multiset(top)[rows[k]] == 0;
    assert rows[k] in multiset(rows);
    NLargestIsTop(rows, 200, RevenueOf(), k, j);
  }

  /**
   * `nlargest(200, 'revenue')['original_title'].tolist()`, or nothing for an
   * empty table: the titles of the 200 highest-grossing movies, in revenue order.
   */
  function ComparisonList(rows: seq<Row>): (titles: seq<string>)
    ensures |titles| == |TopGrossing(rows)|
    ensures forall i :: 0 <= i < |titles| ==> titles[i] == TopGrossing(rows)[i].movie.title
  {
    if |rows| > 0 then Map(TopGrossing(rows), Title()) else []
  }

  /** `nlargest(10, 'profit')`: the ten most profitable movies, most profitable first. */
  function MostProfitable(rows: seq<Row>): (top: seq<Row>)
    ensures |top| == if |rows| < 10 then |rows| else 10
    ensures forall i, j :: 0 <= i < j < |top| ==> top[i].profit >= top[j].profit
    ensures multiset(top) <= multiset(rows)
  {
    NLargest(rows, 10, ProfitOf())
  }

  /** A movie left out of the ten made no more profit than any movie in it. */
  lemma MostProfitableIsTop(rows: seq<Row>, k: nat, j: nat)
    requires k < |rows| && j < |MostProfitable(rows)|
    requires rows[k] !in MostProfitable(rows)
    ensures rows[k].profit <= MostProfitable(rows)[j].profit
  {
    var top := NLargest(rows, 10, ProfitOf());
    assert MostProfitable(rows) == top;
    assert multiset(top)[rows[k]] == 0;
    assert rows[k] in multiset(rows);
    NLargestIsTop(rows, 10, ProfitOf(), k, j);
  }

  const FlopBudget := 10 * Filters.Million

  function Expensive(): Row -> bool
  {
    (r: Row) => r.movie.budget > FlopBudget
  }

  /** `filtered_df[budget > 1e7].nsmallest(10, 'profit')`: the biggest flops, worst first. */
  function BiggestFlops(rows: seq<Row>): (flops: seq<Row>)
    ensures |flops| == if |Filter(rows, Expensive())| < 10 then |Filter(rows, Expensive())| else 10
    ensures multiset(flops) <= multiset(Filter(rows, Expensive()))
    ensures forall i, j :: 0 <= i < j < |flops| ==> flops[i].profit <= flops[j].profit
    ensures forall i :: 0 <= i < |flops| ==> flops[i] in rows && flops[i].movie.budget > FlopBudget
  {
    var big := Filter(rows, Expensive());
    NSmallestFromInput(big, 10, ProfitOf());
    NSmallest(big, 10, ProfitOf())
  }

  /** A movie over the budget bar that is not among the flops lost no more than any flop listed. */
  lemma BiggestFlopsIsTop(rows: seq<Row>, k: nat, j: nat)
    requires k < |rows| && rows[k].movie.budget > FlopBudget && j < |BiggestFlops(rows)|
    requires rows[k] !in BiggestFlops(rows)
    ensures BiggestFlops(rows)[j].profit <= rows[k].profit
  {
    var big := Filter(rows, Expensive());
    var flops := NSmallest(big, 10, ProfitOf());
    assert BiggestFlops(rows) == flops;
    assert rows[k] in big;
    var m :| 0 <= m < |big| && big[m] == rows[k];
    assert multiset(flops)[big[m]] == 0;
    assert big[m] in multiset(big);
    NSmallestIsTop(big, 10, ProfitOf(), m, j);
  }

  /** The explorer table: `sort_values(sort_by, ascending)`, missing values last. */
  function ExplorerOrder(rows: seq<Row>, sortBy: Column, ascending: bool): (sorted: seq<Row>)
    ensures multiset(sorted) == multiset(rows)
    ensures forall i, j :: 0 <= i < j < |sorted| && Value(sorted[j], sortBy).Some? ==> Value(sorted[i], sortBy).Some?
    ensures forall i, j :: 0 <= i < j < |sorted| && Value(sorted[i], sortBy).Some? && Value(sorted[j], sortBy).Some? ==>
              if ascending then Value(sorted[i], sortBy).value <= Value(sorted[j], sortBy).value
              else Value(sorted[i], sortBy).value >= Value(sorted[j], sortBy).value
  {
    SortValues(rows, r => Value(r, sortBy), ascending)
  }
}
