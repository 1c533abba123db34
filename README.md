# Football match dashboard — data core in Dafny

The dashboard (`app.py`) loads a table of football matches and derives four
columns for each row: `Season`, `TotalGoals`, `TotalCorners` and
`Form5Difference`. The user picks one of ten charts. Each chart reshapes the
table with pandas (select rows, group, take means) and hands the result to
Plotly. This project models the preparation step and the reshaping behind
seven of the charts. Each reshaping is a pure function over a sequence of rows.
A missing cell (NaN/NaT) is an `Option`. A mean is a `real`: a sum divided
by a count.

Modules:

- `Wrappers` (wrappers.dfy): `Option`.
- `Ordering` (ordering.dfy): strict total orders, sorted insertion, and
  Python's string order. `groupby` returns its groups in key order.
- `Frames` (frames.dfy): the pandas operations in use. These are
  boolean-mask selection, dropping missing cells, `groupby` groups and
  sizes, the key order, and a NaN-skipping `mean`.
- `Matches` (matches.dfy): the match record, the prepared row, `load_data`.
- `SeasonTrend` (seasons.dfy): recipe 1.
- `Leagues` (leagues.dfy): recipes 2, 3 and 9.
- `ShotsAndCards` (shots_and_cards.dfy): recipes 6 and 8.
- `Calibration` (calibration.dfy): recipe 10.
- `Views` (views.dfy): the ten sidebar labels and the dispatch on them.

Behaviour worth noting:

- An aggregated group that has no value to average keeps its entry, with a
  missing mean, because pandas `mean` gives NaN for it. The entry is not
  dropped. This applies to recipes 1, 2 and 9.
- Recipe 10 groups on a categorical column. It therefore always yields all
  ten bins (pandas 2.x default `observed=False`), and an empty bin has
  missing means.
- Recipe 5 calls `sample(n=5000)` unguarded, so it raises on fewer than 5000
  rows. It does not fall back to all rows.

## Model

| member | source | states |
|---|---|---|
| Matches.Season | app.py:23 | the season of a date is the one whose span, August of the year before through July, contains the date |
| Matches.SeasonUnique | app.py:23 | no other season's span contains the date, so the season is determined by the August cut-over |
| Matches.AddOpt | app.py:24-25 | a sum of two cells is missing exactly when either cell is missing, and is their sum otherwise |
| Matches.SubOpt | app.py:26 | a difference of two cells is missing exactly when either cell is missing, and is their difference otherwise |
| Matches.PrepareRow | app.py:22-26 | a prepared row keeps the match and has a season exactly when its date parsed; TotalGoals, TotalCorners and Form5Difference are the sums / difference of their two source cells and are missing when either is |
| Matches.Prepare | app.py:22-27 | preparation keeps the row count and row order and prepares each row on its own |
| Matches.PrepareConcat | app.py:22-26 | no row's derived columns depend on another row: preparing stacked tables stacks the preparations |
| Matches.LoadData | app.py:14-27 | a missing file gives no table; otherwise the table is the match table prepared row by row: one prepared row per match, in order, carrying that match and its derived columns |
| Frames.Filter | app.py:91 | a boolean mask keeps exactly the rows that satisfy it and never adds rows |
| Frames.FilterMultiset | app.py:91 | a selected row is kept as many times as the table holds it |
| Frames.FilterConcat | app.py:167-170 | selection works row by row: selecting from stacked tables stacks the selections, so row order is kept |
| Frames.FilterSubsumed | app.py:75 | selecting by a mask after a weaker mask equals selecting by the stronger mask alone |
| Frames.Column | app.py:59 | a column has one cell per row, in row order, cell i holding row i's value |
| Frames.Present | app.py:59 | the values `mean` and `groupby` use are exactly the non-missing cells of the column, and all of them when none is missing |
| Frames.PresentMultiset | app.py:208-209 | dropping missing cells keeps each value exactly as many times as the column holds it, so a mean weighs every row |
| Frames.Group | app.py:59 | a `groupby` group holds exactly the rows with that key; rows with a missing key are in no group |
| Frames.Count | app.py:186 | a group's size is positive exactly when some row has that key, and at most the table's size |
| Frames.CountOccurrences | app.py:74 | a group's size (`size`, `value_counts`) is the number of rows whose key cell holds that key |
| Frames.Keys | app.py:59 | `groupby` keys come out strictly ascending and are exactly the keys of non-empty groups |
| Frames.Mean | app.py:208-209 | a mean is missing exactly when there are no values; otherwise the mean times the number of values is their sum |
| Frames.GroupMean | app.py:59 | a group mean is present exactly when some row of the group has the value, and only for non-empty groups |
| Frames.MeanInHalfOpen | app.py:208 | a mean of values in (lo, hi] lies in (lo, hi] |
| Frames.MeanInClosed | app.py:209 | a mean of values in [lo, hi] lies in [lo, hi] |
| Ordering.StrLessIsStrictTotal | app.py:76 | Python's string comparison, which orders the Division groups, is a strict total order |
| SeasonTrend.SeasonMeans | app.py:59 | one point per season some row has, ascending, each with that season's mean goals |
| SeasonTrend.GoalsBySeason | app.py:59-60 | the chart has exactly the seasons below 2025 that some row has, strictly ascending, each with the mean of its non-missing TotalGoals |
| SeasonTrend.SeasonlessRowsIgnored | app.py:59-60 | rows whose date did not parse change nothing in the chart |
| Leagues.QualifyingLeagues | app.py:74 | the leagues kept are exactly those with strictly more than 1000 rows |
| Leagues.RestrictKeepsGroups | app.py:75 | restricting to the qualifying leagues leaves each of those leagues' rows intact and leaves no other league |
| Leagues.LeagueMeans | app.py:76 | one entry per league present, in strictly ascending division order (so no league twice), each with that league's mean goals |
| Leagues.QualifyingMeans | app.py:74-76 | the grouped means cover exactly the qualifying leagues, with their means over the whole table |
| Leagues.NLargest | app.py:76 | at most n entries in rank order (larger mean first, missing last, ties by league); anything left out ranks below the last kept |
| Leagues.TopScoringLeagues | app.py:74-76 | at most 15 leagues, each with more than 1000 matches, mean goals non-increasing; a qualifying league is left out only when 15 are shown and the last shown has at least its mean |
| Leagues.TopFiveMatches | app.py:90-91 | keeps exactly the rows whose Division is E0, SP1, D1, I1 or F1, each as often as in the table |
| Leagues.TopFiveOutcomeCounts | app.py:91-94 | each (league, result) sector counts all of that league's matches with that result; leagues outside the five have none |
| Leagues.AllLeagueStats | app.py:183-187 | one row per league present, in division order, with its mean goals, mean corners and row count |
| Leagues.LeagueStats | app.py:183-188 | exactly the leagues with more than 1000 matches (the recipe 2 cutoff), in division order, with MatchCount the league's row count and its means |
| ShotsAndCards.ShotEfficiency | app.py:136 | keeps exactly the rows with 0 < HomeShots < 40 and HomeTarget > 0; a row with either cell missing is dropped |
| ShotsAndCards.StackedFouls | app.py:167 | the stacked fouls have length 2n: home fouls at i, away fouls at n+i |
| ShotsAndCards.StackedYellows | app.py:168 | the stacked yellows have length 2n: home yellows at i, away yellows at n+i |
| ShotsAndCards.Zip | app.py:169 | the two series side by side, one (fouls, yellows) cell pair per position |
| ShotsAndCards.CompletePairs | app.py:169 | a pair survives `dropna` exactly when both cells at its position are present |
| ShotsAndCards.CompletePairsMultiset | app.py:169 | `dropna` keeps each (fouls, yellows) pair as many times as positions of the two series hold it, so duplicates are not merged |
| ShotsAndCards.CompletePairsConcat | app.py:169 | pairing works position by position, so stacked series pair up as their pairings stacked |
| ShotsAndCards.FoulsVsCards | app.py:167-170 | at most 2n pairs; a (fouls, yellows) pair is in the sample exactly when fouls < 40 and some side of some match recorded both counts, and it occurs once for each home or away side that recorded it (none at 40 fouls or more) |
| ShotsAndCards.FoulsVsCardsStacksSides | app.py:167-170 | the sample is the home sides' kept pairs in match order followed by the away sides' |
| Calibration.ImpliedProb | app.py:203 | the implied probability times the odds is 1; zero odds give no probability |
| Calibration.ActualResult | app.py:204 | the indicator is 1 exactly when FTResult is "H", otherwise 0 |
| Calibration.ProbBin | app.py:205 | a probability gets a bin exactly when 0 < p <= 1, namely the k with k/10 < p <= (k+1)/10 |
| Calibration.BinsPartition | app.py:205 | the ten intervals do not overlap: a probability in bin k's interval is given bin k |
| Calibration.ToOddsRow | app.py:203-205 | a row's bin is the bin of its implied probability and its indicator says whether the home side won |
| Calibration.OddsTable | app.py:202-205 | one well-formed row per match with both odds and result, in order |
| Calibration.BinPointBounded | app.py:207-210 | a bin has a point exactly when a row falls in it; the mean implied probability lies in the bin, the win rate in [0, 1] |
| Calibration.Calibrate | app.py:207-210 | ten points, point k for bin k, present exactly for non-empty bins; its x value is the mean implied probability of bin k's matches and lies in (k/10, (k+1)/10]; its win rate is the bin's mean indicator, in [0, 1] |
| Views.Number | app.py:40-51 | each view's number is between 1 and 10 |
| Views.Parse | app.py:57-200 | a label selects a view exactly when it is one of the ten choices, and then the view whose label it is |
| Views.ChoicesDistinct | app.py:40-51 | the ten labels are pairwise distinct |
| Views.ParseLabel | app.py:38-57 | selecting a view's label draws that view |

## Left out

- Streamlit page chrome, sidebar widget, `st.error` message and `@st.cache_data` memoisation: these are UI and framework plumbing.
- CSV reading and `pd.to_datetime`: the parsed date is an input `Option<Date>`, and a missing file is a `None` source. The day of the month is not kept because nothing derived uses it.
- A missing column: `app.py` does not check for one, so the first access to it raises `KeyError` (for example `df['FTHome']` at app.py:24). The `Match` record always has every column, so that failure is not represented.
- Columns no modelled chart transforms (team names, Elo ratings and others) are not in the record.
- All Plotly construction: the sunburst, violin, box and scatter plots, the 20×20 heatmap binning, the identity line, colours and titles.
- Recipe 4 (app.py:104-117) and recipe 7 (app.py:151-156) pass raw columns to the plot with no transformation.
- Recipe 5 (app.py:122-126) draws an unseeded random sample and fits a lowess trend inside the plotting library. Recipe 9's OLS trendline is left out for the same reason.
- Floating point: means and probabilities are exact `real`s. The bin edges are exactly k/10, not `np.arange`'s rounded values. Odds of 0, which give an infinite implied probability in no bin, are modelled as a missing probability.
- Leagues.NLargest: ties are ordered by division, as pandas' stable fast path does. With 15 or fewer leagues, pandas sorts with an unstable sort and does not fix the order of ties.
- Leagues.TopFiveMatches: its contract states membership and multiplicity only. Row order is given by Frames.FilterConcat.
