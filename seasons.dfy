/** Recipe 1, "Evolution of Goals Over Seasons": mean goals per season, seasons before 2025. */
module SeasonTrend {
  import opened Wrappers
  import opened Ordering
  import opened Frames
  import opened Matches

  /** The first season the chart leaves out (it was still being played). */
  const SeasonCutoff: int := 2025

  datatype SeasonPoint = SeasonPoint(season: int, avgGoals: Option<real>)

  /** Mean `TotalGoals` of the rows of season `s`, over the rows where it is present. */
  function AvgGoalsInSeason(t: seq<Row>, s: int): Option<real> {
    GroupMean(t, SeasonOf, s, GoalsOf)
  }

  predicate SeasonPrecedes(a: SeasonPoint, b: SeasonPoint) {
    a.season < b.season
  }

  predicate BeforeCutoff(p: SeasonPoint) {
    p.season < SeasonCutoff
  }

  /** `df.groupby('Season')['TotalGoals'].mean().reset_index()`. */
  function SeasonMeans(t: seq<Row>): (r: seq<SeasonPoint>)
    ensures StrictlySorted(r, SeasonPrecedes)
    ensures forall p :: p in r ==> Count(t, SeasonOf, p.season) > 0 && p.avgGoals == AvgGoalsInSeason(t, p.season)
    ensures forall s :: Count(t, SeasonOf, s) > 0 ==> SeasonPoint(s, AvgGoalsInSeason(t, s)) in r
  {
    IntLessIsStrictTotal();
    var ks := Keys(t, SeasonOf, IntLess);
    var r := seq(|ks|, i requires 0 <= i < |ks| => SeasonPoint(ks[i], AvgGoalsInSeason(t, ks[i])));
    assert forall s :: s in ks ==> SeasonPoint(s, AvgGoalsInSeason(t, s)) in r by {
      forall s | s in ks ensures SeasonPoint(s, AvgGoalsInSeason(t, s)) in r {
        var i :| 0 <= i < |ks| && ks[i] == s;
        assert r[i] == SeasonPoint(s, AvgGoalsInSeason(t, s));
      }
    }
    r
  }

  /**
   * The points of the chart: one per season some row has, before 2025, in
   * ascending season order, each with that season's mean goals.
   */
  function GoalsBySeason(t: seq<Row>): (r: seq<SeasonPoint>)
    ensures forall i, j :: 0 <= i < j < |r| ==> r[i].season < r[j].season
    ensures forall p :: p in r ==> p.season < SeasonCutoff && Count(t, SeasonOf, p.season) > 0
    ensures forall p :: p in r ==> p.avgGoals == AvgGoalsInSeason(t, p.season)
    ensures forall s :: s < SeasonCutoff && Count(t, SeasonOf, s) > 0 ==> SeasonPoint(s, AvgGoalsInSeason(t, s)) in r
  {
    var all := SeasonMeans(t);
    FilterKeepsSorted(all, BeforeCutoff, SeasonPrecedes);
    var r := Filter(all, BeforeCutoff);
    assert forall i, j :: 0 <= i < j < |r| ==> SeasonPrecedes(r[i], r[j]);
    r
  }

  predicate HasSeason(r: Row) {
    r.season.Some?
  }

  lemma {:induction false} PresentIgnoresMissing<T(!new), V(!new)>(s: seq<T>, f: T -> Option<V>, p: T -> bool)
    requires forall x :: f(x).Some? ==> p(x)
    ensures Present(Filter(s, p), f) == Present(s, f)
  {
    if s != [] {
      PresentIgnoresMissing(s[1..], f, p);
      if p(s[0]) {
        var u := [s[0]] + Filter(s[1..], p);
        assert u[0] == s[0] && u[1..] == Filter(s[1..], p);
      } else {
        assert Filter(s, p) == Filter(s[1..], p);
      }
    }
  }

  /** Rows whose date did not parse (missing season) change nothing in the chart. */
  lemma SeasonlessRowsIgnored(t: seq<Row>)
    ensures GoalsBySeason(Filter(t, HasSeason)) == GoalsBySeason(t)
  {
    var f := Filter(t, HasSeason);
    PresentIgnoresMissing(t, SeasonOf, HasSeason);
    assert Keys(f, SeasonOf, IntLess) == Keys(t, SeasonOf, IntLess);
    forall s ensures AvgGoalsInSeason(f, s) == AvgGoalsInSeason(t, s) {
      FilterSubsumed(t, HasSeason, HasKey(SeasonOf, s));
    }
    assert SeasonMeans(f) == SeasonMeans(t);
  }
}
