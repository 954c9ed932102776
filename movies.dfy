/**
 * The movie table and the columns `load_data` derives from it (app.py).
 * One row per movie; money is whole dollars, ratings and popularity are exact
 * reals. A field that may be empty in the CSV is an Option.
 */
module Movies {
  import opened Optional
  import Text

  /** Calendar parts of a parsed release date. */
  datatype Date = Date(year: int, month: int)

  /** One raw CSV row. `others` holds the CSV's remaining columns (cast, homepage, keywords, ...). */
  datatype Movie = Movie(
    title: string,
    budget: int,
    revenue: int,
    voteAverage: real,
    voteCount: int,
    popularity: real,
    runtime: Option<int>,
    releaseDate: Option<string>,
    genres: Option<string>,
    director: Option<string>,
    tagline: Option<string>,
    overview: Option<string>,
    others: seq<Option<string>>)

  /** A row of the table `load_data` returns: the raw row plus its derived columns. */
  datatype Row = Row(
    movie: Movie,
    profit: int,
    roi: real,
    year: Option<int>,
    month: Option<int>,
    decade: Option<int>,
    isProfitable: bool,
    primaryGenre: string)

  const GenreSeparator := '|'
  const UnknownGenre := "Unknown"

  /**
   * Return on investment in percent; 0 is a sentinel for a budget that is not
   * positive (np.where(budget > 0, profit / budget * 100, 0)).
   */
  function Roi(profit: int, budget: int): (roi: real)
    ensures budget > 0 ==> roi * budget as real == 100.0 * profit as real
    ensures budget <= 0 ==> roi == 0.0
  {
    if budget > 0 then (profit as real / budget as real) * 100.0 else 0.0
  }

  /** `year // 10 * 10`, missing when the year is missing. */
  function Decade(year: Option<int>): (decade: Option<int>)
    ensures decade.Some? <==> year.Some?
    ensures year.Some? ==> decade.value % 10 == 0 && decade.value <= year.value < decade.value + 10
  {
    match year
    case None => None
    case Some(y) => Some(y / 10 * 10)
  }

  /** Text before the first '|' of `genres`, untrimmed, or "Unknown" when genres is missing. */
  function PrimaryGenre(genres: Option<string>): (g: string)
    ensures genres.None? ==> g == UnknownGenre
    ensures genres.Some? ==>
              g <= genres.value && GenreSeparator !in g &&
              (|g| < |genres.value| ==> genres.value[|g|] == GenreSeparator)
  {
    match genres
    case None => UnknownGenre
    case Some(s) => Text.Split(s, GenreSeparator)[0]
  }

  /** `pd.to_datetime(release_date, errors='coerce')`: a missing or unparsable date is missing. */
  function ParsedDate(m: Movie, parse: string -> Option<Date>): Option<Date>
  {
    match m.releaseDate
    case None => None
    case Some(s) => parse(s)
  }

  function YearOf(d: Option<Date>): Option<int>
  {
    match d
    case None => None
    case Some(date) => Some(date.year)
  }

  function MonthOf(d: Option<Date>): Option<int>
  {
    match d
    case None => None
    case Some(date) => Some(date.month)
  }

  /** The derived row of one raw row: every derived column depends on that row alone. */
  function Derive(m: Movie, parse: string -> Option<Date>): (r: Row)
    ensures r.movie == m
    ensures r.profit == m.revenue - m.budget
    ensures r.isProfitable <==> m.revenue > m.budget
    ensures r.year == YearOf(ParsedDate(m, parse)) && r.month == MonthOf(ParsedDate(m, parse))
    ensures r.roi == Roi(r.profit, m.budget)
    ensures r.decade == Decade(r.year)
    ensures r.primaryGenre == PrimaryGenre(m.genres)
  {
    var profit := m.revenue - m.budget;
    var year := YearOf(ParsedDate(m, parse));
    Row(m, profit, Roi(profit, m.budget), year, MonthOf(ParsedDate(m, parse)),
        Decade(year), profit > 0, PrimaryGenre(m.genres))
  }

  /**
   * `load_data`: adds profit, roi, year, month, decade, is_profitable and
   * primary_genre to the table, one column after another. The table keeps its
   * rows and their order.
   */
  method LoadData(raw: seq<Movie>, parse: string -> Option<Date>) returns (df: seq<Row>)
    ensures |df| == |raw|
    ensures forall i :: 0 <= i < |raw| ==> df[i] == Derive(raw[i], parse)
  {
    var n := |raw|;
    var profit := seq(n, i requires 0 <= i < n => raw[i].revenue - raw[i].budget);
    var roi := seq(n, i requires 0 <= i < n => Roi(profit[i], raw[i].budget));
    var releaseDate := seq(n, i requires 0 <= i < n => ParsedDate(raw[i], parse));
    var year := seq(n, i requires 0 <= i < n => YearOf(releaseDate[i]));
    var month := seq(n, i requires 0 <= i < n => MonthOf(releaseDate[i]));
    var decade := seq(n, i requires 0 <= i < n => Decade(year[i]));
    var isProfitable := seq(n, i requires 0 <= i < n => profit[i] > 0);
    var primaryGenre := seq(n, i requires 0 <= i < n => PrimaryGenre(raw[i].genres));
    df := seq(n, i requires 0 <= i < n =>
      Row(raw[i], profit[i], roi[i], year[i], month[i], decade[i], isProfitable[i], primaryGenre[i]));
  }

  /** With a positive budget the ROI is positive exactly when the movie is profitable. */
  lemma RoiSignMatchesProfit(m: Movie, parse: string -> Option<Date>)
    requires m.budget > 0
    ensures Derive(m, parse).roi > 0.0 <==> Derive(m, parse).isProfitable
  {
    var r := Derive(m, parse);
    assert r.roi * m.budget as real == 100.0 * r.profit as real;
    if r.roi > 0.0 {
      assert r.roi * m.budget as real > 0.0;
    } else {
      assert r.roi * m.budget as real <= 0.0;
    }
  }

  /** The primary genre is empty only when the genres text is empty or starts with '|'. */
  lemma PrimaryGenreEmpty(genres: Option<string>)
    ensures PrimaryGenre(genres) == [] <==>
              genres.Some? && (genres.value == [] || genres.value[0] == GenreSeparator)
  {
  }
}
