/**
 * The match table and its preparation (`load_data`): each row gets a
 * `Season`, and three derived columns whose value is missing as soon as one
 * operand is missing, the way pandas arithmetic propagates NaN.
 */
module Matches {
  import opened Wrappers

  type Month = m: int | 1 <= m <= 12 witness 1

  /** A parsed `MatchDate`; the day of the month plays no part in anything derived from it. */
  datatype Date = Date(year: int, month: Month)

  /** One row of the CSV file as read, with the columns the dashboard uses. */
  datatype Match = Match(
    date: Option<Date>,
    division: Option<string>,
    ftHome: Option<int>,
    ftAway: Option<int>,
    ftResult: Option<string>,
    homeShots: Option<int>,
    homeTarget: Option<int>,
    homeCorners: Option<int>,
    awayCorners: Option<int>,
    homeFouls: Option<int>,
    awayFouls: Option<int>,
    homeYellow: Option<int>,
    awayYellow: Option<int>,
    form5Home: Option<int>,
    form5Away: Option<int>,
    oddHome: Option<real>)

  /** A prepared row: the match with the four columns `load_data` adds. */
  datatype Row = Row(
    raw: Match,
    season: Option<int>,
    totalGoals: Option<int>,
    totalCorners: Option<int>,
    form5Difference: Option<int>)

  /** Months counted from January of year 0, so that month arithmetic is linear. */
  function MonthIndex(year: int, month: Month): int {
    12 * year + month - 1
  }

  /** A season runs from August of the year before it through July of its own year. */
  function Season(d: Date): (s: int)
    ensures MonthIndex(s - 1, 8) <= MonthIndex(d.year, d.month) <= MonthIndex(s, 7)
  {
    if d.month < 8 then d.year else d.year + 1
  }

  /** The season is the only one whose span holds the date. */
  lemma SeasonUnique(d: Date, s: int)
    requires MonthIndex(s - 1, 8) <= MonthIndex(d.year, d.month) <= MonthIndex(s, 7)
    ensures Season(d) == s
  {
  }

  function AddOpt(a: Option<int>, b: Option<int>): (r: Option<int>)
    ensures r.Some? <==> a.Some? && b.Some?
    ensures r.Some? ==> r.value == a.value + b.value
  {
    if a.Some? && b.Some? then Some(a.value + b.value) else None
  }

  function SubOpt(a: Option<int>, b: Option<int>): (r: Option<int>)
    ensures r.Some? <==> a.Some? && b.Some?
    ensures r.Some? ==> r.value == a.value - b.value
  {
    if a.Some? && b.Some? then Some(a.value - b.value) else None
  }

  /** The derived columns of one row; an unparsable date gives a missing season. */
  function PrepareRow(m: Match): (r: Row)
    ensures r.raw == m
    ensures r.season.Some? <==> m.date.Some?
    ensures r.season.Some? ==> MonthIndex(r.season.value - 1, 8) <= MonthIndex(m.date.value.year, m.date.value.month) <= MonthIndex(r.season.value, 7)
    ensures r.totalGoals.Some? <==> m.ftHome.Some? && m.ftAway.Some?
    ensures r.totalGoals.Some? ==> r.totalGoals.value == m.ftHome.value + m.ftAway.value
    ensures r.totalCorners.Some? <==> m.homeCorners.Some? && m.awayCorners.Some?
    ensures r.totalCorners.Some? ==> r.totalCorners.value == m.homeCorners.value + m.awayCorners.value
    ensures r.form5Difference.Some? <==> m.form5Home.Some? && m.form5Away.Some?
    ensures r.form5Difference.Some? ==> r.form5Difference.value == m.form5Home.value - m.form5Away.value
  {
    Row(
      m,
      match m.date { case Some(d) => Some(Season(d)) case None => None },
      AddOpt(m.ftHome, m.ftAway),
      AddOpt(m.homeCorners, m.awayCorners),
      SubOpt(m.form5Home, m.form5Away))
  }

  /** Column assignment over the whole table: same rows, same order, one prepared row per match. */
  function Prepare(t: seq<Match>): (r: seq<Row>)
    ensures |r| == |t|
    ensures forall i :: 0 <= i < |t| ==> r[i] == PrepareRow(t[i])
  {
    seq(|t|, i requires 0 <= i < |t| => PrepareRow(t[i]))
  }

  /** Preparation has no cross-row dependency: preparing two stacked tables is stacking their preparations. */
  lemma PrepareConcat(a: seq<Match>, b: seq<Match>)
    ensures Prepare(a + b) == Prepare(a) + Prepare(b)
  {
  }

  /** `load_data`: no table when the file is missing, otherwise the prepared table. */
  function LoadData(source: Option<seq<Match>>): (r: Option<seq<Row>>)
    ensures r.None? <==> source.None?
    ensures r.Some? ==> r.value == Prepare(source.value)
  {
    match source
    case None => None
    case Some(t) => Some(Prepare(t))
  }

  // Column selectors, used as grouping keys and aggregated values.

  function SeasonOf(r: Row): Option<int> {
    r.season
  }

  function DivisionOf(r: Row): Option<string> {
    r.raw.division
  }

  function AsReal(v: Option<int>): Option<real> {
    match v
    case Some(n) => Some(n as real)
    case None => None
  }

  function GoalsOf(r: Row): Option<real> {
    AsReal(r.totalGoals)
  }

  function CornersOf(r: Row): Option<real> {
    AsReal(r.totalCorners)
  }
}
