# CineMetrics data layer in Dafny

CineMetrics is a movie-analytics dashboard (`app.py`, Streamlit) plus a batch report script (`analysis.py`) over one CSV of movie metadata. This project models the data layer that both programs share and proves its properties:

- **Row derivation** (`load_data`, module `Movies`): profit, ROI, year, month, decade, profitability and primary genre are added to every row. Row count and row order stay the same.
- **Sidebar filter** (module `Filters`): an always-on range mask is narrowed with `mask &=` by each enabled option (selected genres, profitable only, blockbusters, hidden gems), then applied with boolean indexing.
- **Aggregations** (modules `Seqs`, `Ranking`, `Grouping`, `Dashboard`): the pandas operations the dashboard uses, and every dashboard result built from them.
  - The pandas operations: boolean indexing, `head`, `groupby(...).agg`, `nlargest`/`nsmallest` with `keep='first'`, `idxmax`, `sort_values` with missing values last, and `collections.Counter` with `most_common`.
  - The dashboard results: the genre cards and their percentage bars, the three insight cards, revenue by genre and by year, the scatter sample, the comparison list, the profit rankings and the explorer order.
- **The report script** (module `Analysis`):
  - complete and incomplete row counts;
  - the `profit` and `release_year` columns it writes into the table in place (class `Analysis.Frame`);
  - genre-combination and release-year `value_counts`;
  - the top-profit movies, the top directors by total profit, the high-grossing movies without a tagline, and the zero-budget and zero-revenue counts;
  - the split, stripped and counted individual genres.

Modelling choices:
- A table is a `seq` of rows. A cell the CSV may leave empty is an `Option`.
- Money is an `int` number of dollars. Ratings, popularity and ROI are exact `real`s, and so are all sums.
- Sums, means and percentages are exact rather than floating point.
- Release dates are parsed by `pd.to_datetime(..., errors='coerce')`, which is not part of this model. It is a parameter `parse: string -> Option<Date>`, and `None` stands for an unparsable date.
- A NaN cell is `None`. As in pandas, every ordered comparison with it is false and `!=` is true.
- `groupby` drops rows whose label is missing and lists labels in ascending order: `Text.StrLess` for strings, `<` for years. `Counter` lists keys in order of first appearance.

## Model

| member | source | states |
|---|---|---|
| `Movies.Roi` | app.py:360 | with a positive budget, roi × budget = 100 × profit; with budget ≤ 0 (including budget 0 with positive revenue) roi is exactly 0 |
| `Movies.Decade` | app.py:364 | decade present iff year present; it is a multiple of 10 with decade ≤ year < decade + 10 |
| `Movies.PrimaryGenre` | app.py:366 | "Unknown" when genres is missing; otherwise the untrimmed text before the first '\|' (a prefix of genres that holds no '\|' and is followed by '\|' or the end) |
| `Movies.Derive` | app.py:359-366 | one row's derived columns: profit = revenue − budget, is_profitable iff revenue > budget, year and month from the parsed release date, and roi, decade and primary genre given by `Roi`, `Decade` and `PrimaryGenre` of the row's profit, budget, year and genres |
| `Movies.LoadData` | app.py:357-367 | the derived table has as many rows as the raw table, in the same order, row i being the derivation of raw row i |
| `Movies.RoiSignMatchesProfit` | app.py:360-365 | with a positive budget, roi > 0 exactly when the movie is profitable |
| `Movies.PrimaryGenreEmpty` | app.py:366 | the primary genre is empty exactly when genres is present and is empty or starts with '\|' |
| `Filters.BuildMask` | app.py:427-440 | mask[i] holds iff row i has a year within the year range, a budget within the million-dollar range and a rating ≥ the minimum, and passes every enabled option |
| `Filters.Keep` | app.py:427-440 | a kept row satisfies the three ranges and has a year; with no option enabled, a row is kept exactly when it satisfies the three ranges |
| `Filters.ApplyFilters` | app.py:442 | the result is exactly the rows the mask accepts, as an order-preserving subsequence; every kept row has a non-null year and satisfies the three ranges; no accepted row is lost |
| `Filters.EmptyGenresNoConstraint` | app.py:433-434 | with no genre selected, the genre option constrains nothing |
| `Filters.NoYearDropped` | app.py:428 | every row that survives the filter has a year: a missing year never passes the range |
| `Filters.ReversedRangeEmpty` | app.py:427-431 | a year or budget range whose minimum exceeds its maximum keeps no row |
| `Filters.MoreOptionsFewerRows` | app.py:435-440 | enabling more quick filters yields a subsequence of the previous result, never more rows |
| `Filters.CombinedIsIntersection` | app.py:433-442 | enabling two sets of quick filters together equals filtering by one and then the other, and keeps exactly the rows both keep |
| `Filters.StepwiseNarrowing` | app.py:427-440 | the final mask equals applying the range mask and then each option in turn |
| `Seqs.Filter` | app.py:442 | boolean-indexing result: no longer than the table, only satisfying rows, every satisfying row present |
| `Seqs.Select` | app.py:442 | boolean indexing is never longer than the table; an all-true mask keeps the whole table and an all-false mask keeps nothing |
| `Seqs.SelectIsFilter` | app.py:442 | indexing with the mask of a predicate is filtering by that predicate |
| `Seqs.FilterIsSubseq` | app.py:442 | filtering keeps the original row order |
| `Seqs.FilterMembership` | app.py:442 | a row is in the result iff it is in the table and satisfies the predicate |
| `Seqs.FilterMultiset` | app.py:442 | each satisfying row keeps its multiplicity; others disappear |
| `Seqs.FilterFilter` | app.py:433-440 | filtering by p then q equals filtering by p ∧ q |
| `Seqs.FilterMonotone` | app.py:435-440 | a stronger predicate keeps a subsequence of what a weaker one keeps |
| `Seqs.FilterSplitsMultiset` | app.py:928 | the rows with a value and the rows without one together are the whole table |
| `Seqs.FilterPrefix` | app.py:633 | filtering a prefix gives a prefix of the filtered table |
| `Seqs.Head` | app.py:633 | `head(n)` is a prefix of length min(n, len) |
| `Seqs.And` | app.py:433-440 | `mask &= m` is element-wise conjunction of equal-length masks |
| `Seqs.SumAppend` | app.py:499-501 | a sum over two tables laid end to end is the sum of the two sums |
| `Seqs.SumFilterDisjoint` | app.py:499-501 | the sum over rows of either of two disjoint classes is the sum of the two class sums |
| `Seqs.CountFilterDisjoint` | app.py:499-501 | the same for row counts |
| `Seqs.FilterKeepsAll` | app.py:499 | a predicate every row satisfies keeps the whole table |
| `Seqs.SumSign` | app.py:499-501 | a `sum()` of non-negative values is non-negative, and a sum of zeros is zero |
| `Seqs.MapSubMultiset` | analysis.py:29 | selecting columns of a sub-multiset of rows gives a sub-multiset of the selected lines |
| `Seqs.FilterCongruent` | app.py:499 | predicates that agree on the table's rows select the same rows |
| `Text.Split` | app.py:366 | `str.split(sep)`: at least one piece, no piece contains sep, the first piece is a prefix ending at sep or at the end |
| `Text.JoinSplit` | analysis.py:52 | joining the pieces with the separator gives back the original string |
| `Text.SplitJoin` | analysis.py:52 | splitting a join of separator-free pieces gives back the pieces |
| `Text.SplitCount` | analysis.py:52 | the number of pieces is the number of separators plus one |
| `Text.Strip` | analysis.py:53 | `str.strip()`: the result is a contiguous piece of the input with only whitespace before and after it, and it has no whitespace at either end |
| `Text.StripUnique` | analysis.py:53 | that piece is unique: any piece of the input with whitespace-only borders and no whitespace at its ends is the stripped string |
| `Text.IsSpace` | analysis.py:53 | space, tab, newline and carriage return are whitespace; the separator '\|' is not, nor is any character above U+3000 |
| `Text.StripIdempotent` | analysis.py:53 | stripping twice equals stripping once |
| `Text.StrLessIrreflexive` | app.py:499 | no label sorts before itself |
| `Text.StrLessTransitive` | app.py:499 | string order is transitive |
| `Text.StrLessTotal` | app.py:499 | any two distinct labels are ordered one way or the other |
| `Text.StrLess` | app.py:499 | a proper prefix sorts before its extensions, and no label sorts before itself |
| `Text.StrLessLex` | app.py:499 | Python's rule for `str` ordering: at the first differing position, the string with the smaller code point sorts first |
| `Text.StrLessCases` | app.py:499 | conversely, a label sorts first only as a proper prefix or by the smaller code point at the first difference |
| `Ranking.Insert` | app.py:502 | inserting a row into a sorted run yields the run plus exactly that row (one more row, same multiset plus it) |
| `Ranking.SortDesc` | analysis.py:29 | a permutation of the table with keys non-increasing |
| `Ranking.SortDescStable` | app.py:502 | within every tie class the sorted rows keep their input order |
| `Ranking.NLargest` | app.py:502 | min(n, len) rows, keys non-increasing, a sub-multiset of the table, each tie class a prefix of the table's tie class (keep='first') |
| `Ranking.NLargestIsTop` | app.py:502 | a row left out is no larger than any row kept |
| `Ranking.NLargestFromInput` | app.py:502 | every row returned is a row of the table |
| `Ranking.NLargestTiesInOrder` | app.py:502 | rows with equal keys come out in input order (pandas' stable selection path when n < rows; the model's choice otherwise, see below) |
| `Ranking.SubMultisetDistinct` | app.py:502 | rows drawn from a table whose labels are distinct have distinct labels |
| `Ranking.NSmallest` | app.py:731 | min(n, len) rows, keys non-decreasing, a sub-multiset of the table, each tie class a prefix of the table's tie class (keep='first') |
| `Ranking.NSmallestIsTop` | app.py:731 | a row the result holds fewer copies of than the table has a key no smaller than that of any row kept |
| `Ranking.NSmallestFromInput` | app.py:731 | every row returned is a row of the table |
| `Ranking.ArgMax` | app.py:558 | `idxmax`: the position of the first row with the largest key |
| `Ranking.SortValues` | app.py:928 | a permutation; rows without a value come last; rows with values ascend or descend as asked |
| `Grouping.InsertKey` | app.py:499 | inserting a label yields the old labels plus the new one |
| `Grouping.GroupKeys` | app.py:499 | a label is listed iff some row carries it |
| `Grouping.GroupKeysIncreasing` | app.py:499 | the labels are ascending and distinct |
| `Grouping.GroupsOf` | app.py:499-501 | one group per label, in label order |
| `Grouping.GroupBy` | app.py:499-501 | each group's total and count equal the sum and count over the rows with its label, and every group is non-empty; every labelled row's label has a group |
| `Grouping.GroupByKeys` | app.py:499 | groups come in ascending label order |
| `Grouping.PartitionTotal` | app.py:595 | the totals of groups for distinct labels add up to the sum over the rows carrying one of them |
| `Grouping.PartitionCount` | app.py:602 | the same for counts |
| `Grouping.GroupByConserves` | app.py:595 | group totals add up to the total over all labelled rows, and counts to the number of labelled rows |
| `Grouping.FirstSeen` | analysis.py:54 | the distinct values of the list, each once |
| `Grouping.FirstIndex` | analysis.py:54 | the position of the first occurrence of a value |
| `Grouping.FirstSeenOrder` | analysis.py:54 | values are listed in the order they first occur |
| `Grouping.Counter` | analysis.py:54 | one entry per distinct value, in first-seen order, whose count is its number of occurrences |
| `Grouping.CounterTotal` | analysis.py:54 | the counts add up to the length of the list |
| `Dashboard.StringOrderIsStrictTotal` | app.py:499 | the genre label order is a strict total order |
| `Dashboard.IntOrderIsStrictTotal` | app.py:602 | the year order is a strict total order |
| `Dashboard.Stat` | app.py:499-501 | one genre line: revenue sum, movie count and mean rating of that genre's rows |
| `Dashboard.GenreTable` | app.py:499-501 | one line per group in label order, each being revenue sum, count and mean rating of the genre's rows |
| `Dashboard.GenreTableKeys` | app.py:499-501 | genres are strictly ascending (so distinct), and every movie's genre has a line |
| `Dashboard.GenreTableDistinct` | app.py:499-501 | no genre has two lines |
| `Dashboard.GenreTableConserves` | app.py:499-501 | genre revenues add up to the table's revenue, and counts to its number of rows |
| `Dashboard.GenrePerformance` | app.py:502 | min(5, genres) cards, a sub-multiset of the genre lines, no genre twice, revenue non-increasing, each card the true aggregate of its genre |
| `Dashboard.GenrePerformanceIsTop` | app.py:502 | a genre without a card earns no more than any genre with one |
| `Dashboard.MaxRevenue` | app.py:508 | `max()` of the card revenues: a card revenue that no card exceeds, and the only such value |
| `Dashboard.RevenueShares` | app.py:508-515 | one entry per card; for a non-empty card list, a percentage exactly when the largest card revenue is non-zero, and that percentage is revenue / largest × 100; between 0 and 100 for non-negative revenue |
| `Dashboard.TopGrosser` | app.py:556-558 | present iff the table is non-empty; a row of the table with the maximum revenue, and the first such row in table order (`idxmax`) |
| `Dashboard.BestRated` | app.py:568-570 | present iff some movie has ≥ 500 votes; that movie has the highest rating among them, and no movie with ≥ 500 votes before it in table order has that rating (`idxmax`) |
| `Dashboard.BestRoi` | app.py:580-582 | present iff some movie has budget ≥ 1,000,000; that movie has the highest ROI among them, and no such movie before it in table order has that ROI (`idxmax`) |
| `Dashboard.GenreRevenueShare` | app.py:595 | min(8, genres) groups, a sub-multiset of the genre groups, no genre twice, totals non-increasing, each the revenue sum of its genre |
| `Dashboard.GenreRevenueShareIsTop` | app.py:595 | a genre left out has a total no larger than that of any genre listed |
| `Dashboard.GenreGroupsDistinct` | app.py:595 | no genre has two groups |
| `Dashboard.Yearly` | app.py:602 | years strictly ascending; each line's revenue and count are those of the movies released that year |
| `Dashboard.YearlyConserves` | app.py:602 | yearly revenues and counts add up to those of the movies with a year |
| `Dashboard.ScatterSample` | app.py:633 | a prefix of the plottable rows (x > 0, y ≠ 0, NaN x excluded, NaN y included) of length min(400, plottable rows) |
| `Dashboard.TopGrossing` | app.py:651 | `nlargest(200, 'revenue')`: min(200, len) rows, revenue non-increasing, a sub-multiset of the table |
| `Dashboard.TopGrossingIsTop` | app.py:651 | a row left out earns no more than any row kept |
| `Dashboard.ComparisonList` | app.py:651 | one title per row of `TopGrossing`, in its order: title i is the title of the i-th highest-grossing row; no title for an empty table |
| `Dashboard.MostProfitable` | app.py:718 | min(10, len) rows, profit non-increasing, a sub-multiset of the table |
| `Dashboard.MostProfitableIsTop` | app.py:718 | a row left out made no more profit than any row kept |
| `Dashboard.BiggestFlops` | app.py:731 | min(10, n) rows where n is the number of rows with budget > 10,000,000; a sub-multiset of those rows; profit non-decreasing |
| `Dashboard.BiggestFlopsIsTop` | app.py:731 | a row with budget > 10,000,000 that was left out made at least as much profit as every row listed |
| `Dashboard.ExplorerOrder` | app.py:921-928 | a permutation of the table, rows without the column's value last, the others ordered in the chosen direction |
| `Analysis.CountWhere` | analysis.py:35 | a count of rows: the length of the filtered table; at most the table size; 0 iff no row qualifies; the table size iff all do |
| `Analysis.Complete` | analysis.py:11 | a complete row has genres, director and tagline; a row missing its release date, runtime or overview is not complete |
| `Analysis.CountSplit` | analysis.py:11-12 | the rows that satisfy a predicate plus those that do not are all the rows |
| `Analysis.CompleteRows` | analysis.py:11 | the number of complete rows (the length of `dropna()`); at most the row count, equal to it iff every row is complete |
| `Analysis.IncompleteRows` | analysis.py:12 | the number of rows with at least one empty column; complete + incomplete = total |
| `Analysis.ZeroBudget` | analysis.py:35 | the number of rows with budget 0; at most the row count, 0 iff no budget is 0 |
| `Analysis.ZeroRevenue` | analysis.py:36 | the number of rows with revenue 0; at most the row count, 0 iff no revenue is 0 |
| `Analysis.WithProfit` | analysis.py:23 | same rows in the same order, each with profit = revenue − budget |
| `Analysis.ReleaseYears` | analysis.py:42 | one cell per row; present iff the release date is present and parses, holding the parsed year |
| `Analysis.Frame.constructor` | analysis.py:8 | the frame holds the loaded rows and no derived column yet |
| `Analysis.Frame.AddProfit` | analysis.py:23 | adds one profit per row (revenue − budget); rows and other columns unchanged |
| `Analysis.Frame.AddReleaseYear` | analysis.py:42 | adds the release-year column; rows and profit unchanged |
| `Analysis.Frame.Records` | analysis.py:23-29 | the frame's rows paired with its profit column, row by row; once the profit column is revenue − budget this is the table with profit |
| `Analysis.Present` | analysis.py:26 | `dropna()` of a column: every present value kept, nothing else |
| `Analysis.ValueCounts` | analysis.py:26 | min(n, distinct values) entries, a sub-multiset of the Counter entries of the present cells, no value twice, counts non-increasing, each count the number of cells holding that value and positive |
| `Analysis.PresentCount` | analysis.py:26 | a value's count among the present cells is the number of cells holding it |
| `Analysis.CounterDistinct` | analysis.py:54 | no value has two Counter entries |
| `Analysis.CounterKeysOccur` | analysis.py:54 | every Counter entry's value occurs in the list, with a positive count |
| `Analysis.ValueCountsIsTop` | analysis.py:43 | a value not listed occurs no more often than any value listed |
| `Analysis.MostCommon` | analysis.py:136 | min(n, distinct) entries, a sub-multiset of the Counter entries, no value twice, counts non-increasing, each count the value's number of occurrences |
| `Analysis.MostCommonIsTop` | analysis.py:136 | a value of the list that is not listed occurs no more often than any value listed |
| `Analysis.MostCommonTiesFirstSeen` | analysis.py:136 | equally frequent values are listed in order of first appearance |
| `Analysis.Pieces` | analysis.py:52-53 | the segments of `split('\|')` stripped one by one: separators + 1 pieces, piece i is the strip of segment i, each piece stripped and free of '\|' |
| `Analysis.FlatGenres` | analysis.py:52-53 | every entry of the flattened genre list is stripped and free of '\|' |
| `Analysis.FlatGenresCell` | analysis.py:52-53 | one cell contributes its pieces when present and nothing when empty |
| `Analysis.FlatGenresMembers` | analysis.py:52-53 | a genre is in the flattened list iff it is a piece of some present cell |
| `Analysis.FlatGenresAppend` | analysis.py:53 | the flattened list of two tables laid end to end is the concatenation of theirs |
| `Analysis.FlatGenresSkipsMissing` | analysis.py:52 | dropping empty genre cells first changes nothing: they contribute no entry |
| `Analysis.FlatGenresLength` | analysis.py:52-53 | the flattened list's length is the sum over present cells of separators + 1 |
| `Analysis.GenreCountsTotal` | analysis.py:54 | the Counter's counts add up to the number of genre segments |
| `Analysis.TopProfit` | analysis.py:29 | min(5, len) lines, profit non-increasing, a sub-multiset of the table's (title, budget, revenue, profit) lines |
| `Analysis.TopProfitIsTop` | analysis.py:29 | a movie left out made no more profit than any movie listed |
| `Analysis.DirectorTotals` | analysis.py:39 | directors strictly ascending; each total is the profit sum of that director's movies; every movie with a director is counted under its director |
| `Analysis.DirectorTotalsConserve` | analysis.py:39 | director totals add up to the profit of all movies with a director |
| `Analysis.TopDirectors` | analysis.py:39 | min(5, directors) entries, a sub-multiset of the director totals, no director twice, totals non-increasing, each a director's true profit sum |
| `Analysis.TopDirectorsIsTop` | analysis.py:39 | a director left out has a sum no larger than any director listed |
| `Analysis.UntaggedHits` | analysis.py:32 | an order-preserving subsequence of the table holding every row with no tagline and revenue > 100,000,000, with its full multiplicity, and no other row |
| `Analysis.MissingTaglines` | analysis.py:32 | one line per selected movie, in order, with that movie's title and revenue; every revenue is > 100,000,000 |
| `Analysis.Analyze` | analysis.py:11-54 | the script's statistics, in its order, equal the model functions above on the loaded table |

## Left out

- Streamlit page setup, CSS, HTML cards, tabs, widgets and metrics: presentation only.
- Chart construction (plotly, matplotlib, seaborn, wordcloud): foreign rendering libraries.
- CSV reading, the CSV download, PNG saves, and the text-file and console output of the report: file I/O. The loaded table is an input.
- `@st.cache_data` caching: framework state.
- Date parsing (`pd.to_datetime(..., errors='coerce')`): a library call, taken as the parameter `parse`.
- Random sampling in the dashboard's other views: nondeterministic.
- Pearson correlations, `describe`, medians, column means and the missing-value percentages with their rounding: floating-point statistics.
- Number formatting (`/1e9`, `:.1f` and the like) and NaN means over empty frames: display code.
- The explorer's title search (`str.contains`, regex by default): regular-expression matching is not modelled. The explorer's `head(15)` display is not modelled either.
- The genre drill-down view and the other dashboard charts that only restate the aggregations above.
- Floating point: sums, means, ROI and percentages are exact reals. Comparisons such as `budget >= budget_range[0] * 1e6` are exact integer comparisons.
- Whitespace for `str.strip()` is the set of characters `str.isspace()` accepts. No other Unicode handling is modelled.
- NLargest, NSmallest, NLargestTiesInOrder: the rule that equal keys come out in input order (`keep='first'` and the tie-prefix clause) is what pandas does when n is smaller than the row count, where it selects with a stable sort. When n is at least the row count, pandas returns `sort_values(...).head(n)` with its default, unstable sort, so the order among ties is unspecified there; the model keeps input order in that case too. This affects `nlargest(200)` at app.py:651 and the 10-row rankings at app.py:718 and 731 on small filtered tables; their wrapper contracts claim no tie order.
- `title`, `budget`, `revenue`, `vote_average`, `vote_count` and `popularity` are not `Option`s: the model assumes these CSV cells are never empty. The `'count'` of `original_title` per genre (app.py:500) is therefore the genre's row count, and the mean of `vote_average` covers every row of the genre.
- `Analysis.TopProfit`: no tie order is claimed. `sort_values` uses an unstable sort by default, so the contract states only size, order, provenance and top-ness. The body breaks ties in table order.
- `Analysis.TopDirectors`: no tie order among equal director sums is claimed, for the same reason.
- `Dashboard.ExplorerOrder`: only permutation, missing-last and sortedness are claimed. The order among equal values is not.
- `Analysis.ValueCounts`: no tie order among equal counts is claimed, because pandas sorts the counts with an unstable sort. `most_common`, which is stable, has its tie order proved in `Analysis.MostCommonTiesFirstSeen`.
- `Dashboard.RevenueShares`: when the largest card revenue is 0, pandas produces NaN or an infinity. The model gives no percentage.
- Range validation: the code raises no error for a reversed year or budget range (the sliders cannot produce one). The model follows the code: such a range keeps no row (`Filters.ReversedRangeEmpty`). There is no `InvalidRange` error.
- The primary genre is not always a real label. A genres text that is empty or starts with '|' gives an empty primary genre, because the code takes the first piece of `split('|')` without checking it. The model follows the code (`Movies.PrimaryGenreEmpty`).
