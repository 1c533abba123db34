/**
 * The league views: recipe 2 ("Top 15 High-Scoring Leagues"), recipe 3
 * ("Match Outcomes in Top 5 Leagues") and recipe 9 ("Corners vs. Goals by
 * League").  Recipes 2 and 9 only chart leagues with more than 1000 matches.
 */
module Leagues {
  import opened Wrappers
  import opened Ordering
  import opened Frames
  import opened Matches

  /** A league is charted by recipes 2 and 9 only with strictly more matches than this. */
  const MinMatches: nat := 1000
  /** How many leagues recipe 2 keeps (`nlargest(15)`). */
  const TopCount: nat := 15
  /** The five major leagues of recipe 3: England, Spain, Germany, Italy, France. */
  const TopFiveCodes: seq<string> := ["E0", "SP1", "D1", "I1", "F1"]

  /** Mean `TotalGoals` of a league, over its rows where it is present. */
  function AvgGoals(t: seq<Row>, d: string): Option<real> {
    GroupMean(t, DivisionOf, d, GoalsOf)
  }

  function AvgCorners(t: seq<Row>, d: string): Option<real> {
    GroupMean(t, DivisionOf, d, CornersOf)
  }

  // ---------------------------------------------------------------------------
  // Recipe 2

  datatype LeagueMean = LeagueMean(division: string, avgGoals: Option<real>)

  /** A mean is at least another one; a missing mean is below every present one. */
  predicate AtLeast(a: Option<real>, b: Option<real>) {
    b.Some? ==> a.Some? && a.value >= b.value
  }

  /**
   * `a` is listed before `b` by `nlargest`: the larger mean first, missing
   * means after all present ones, equal means in the groups' division order.
   */
  predicate Outranks(a: LeagueMean, b: LeagueMean) {
    match (a.avgGoals, b.avgGoals)
    case (Some(x), Some(y)) => x > y || (x == y && StrLess(a.division, b.division))
    case (Some(_), None) => true
    case (None, Some(_)) => false
    case (None, None) => StrLess(a.division, b.division)
  }

  lemma OutranksIsStrictTotal()
    ensures StrictTotalOrder(Outranks)
  {
    StrLessIsStrictTotal();
  }

  lemma OutranksAtLeast(a: LeagueMean, b: LeagueMean)
    requires Outranks(a, b)
    ensures AtLeast(a.avgGoals, b.avgGoals)
  {
  }

  /** `df['Division'].value_counts() > 1000`: the leagues with more than 1000 rows. */
  function QualifyingLeagues(t: seq<Row>): (ls: seq<string>)
    ensures forall d :: d in ls <==> Count(t, DivisionOf, d) > MinMatches
  {
    StrLessIsStrictTotal();
    Filter(Keys(t, DivisionOf, StrLess), d => Count(t, DivisionOf, d) > MinMatches)
  }

  /** The mask `df['Division'].isin(leagues)`; a missing division is in no list. */
  function InLeagues(leagues: seq<string>): Row -> bool {
    r => DivisionOf(r).Some? && DivisionOf(r).value in leagues
  }

  /** Restricting the table to some leagues leaves each of those leagues' rows as they were. */
  lemma RestrictKeepsGroups(t: seq<Row>, leagues: seq<string>, d: string)
    ensures d in leagues ==> Group(Filter(t, InLeagues(leagues)), DivisionOf, d) == Group(t, DivisionOf, d)
    ensures Count(Filter(t, InLeagues(leagues)), DivisionOf, d) > 0 ==> d in leagues
  {
    if d in leagues {
      FilterSubsumed(t, InLeagues(leagues), HasKey(DivisionOf, d));
    }
  }

  /** `groupby('Division')['TotalGoals'].mean()`, in division order. */
  function LeagueMeans(t: seq<Row>): (ms: seq<LeagueMean>)
    ensures forall i, j :: 0 <= i < j < |ms| ==> StrLess(ms[i].division, ms[j].division)
    ensures forall m :: m in ms ==> Count(t, DivisionOf, m.division) > 0 && m.avgGoals == AvgGoals(t, m.division)
    ensures forall d :: Count(t, DivisionOf, d) > 0 ==> LeagueMean(d, AvgGoals(t, d)) in ms
  {
    StrLessIsStrictTotal();
    var ks := Keys(t, DivisionOf, StrLess);
    var ms := seq(|ks|, i requires 0 <= i < |ks| => LeagueMean(ks[i], AvgGoals(t, ks[i])));
    assert forall d :: d in ks ==> LeagueMean(d, AvgGoals(t, d)) in ms by {
      forall d | d in ks ensures LeagueMean(d, AvgGoals(t, d)) in ms {
        var i :| 0 <= i < |ks| && ks[i] == d;
        assert ms[i] == LeagueMean(d, AvgGoals(t, d));
      }
    }
    ms
  }

  /** `nlargest(n)`: the first `n` entries in `Outranks` order. */
  function NLargest(ms: seq<LeagueMean>, n: nat): (r: seq<LeagueMean>)
    ensures |r| <= n
    ensures StrictlySorted(r, Outranks)
    ensures forall m :: m in r ==> m in ms
    ensures forall m :: m in ms && m !in r ==> |r| == n && (n > 0 ==> Outranks(r[n - 1], m))
  {
    OutranksIsStrictTotal();
    var sorted := SortedDistinct(ms, Outranks);
    if |sorted| <= n then sorted
    else
      var r := sorted[..n];
      assert forall m :: m in ms && m !in r ==> n > 0 ==> Outranks(r[n - 1], m) by {
        forall m | m in ms && m !in r && n > 0 ensures Outranks(r[n - 1], m) {
          SortedSplit(sorted, Outranks, n, m);
        }
      }
      r
  }

  /** Lines 74-76 up to `nlargest`: mean goals of each league with more than 1000 matches. */
  function QualifyingMeans(t: seq<Row>): (ms: seq<LeagueMean>)
    ensures forall m :: m in ms ==> Count(t, DivisionOf, m.division) > MinMatches && m.avgGoals == AvgGoals(t, m.division)
    ensures forall d :: Count(t, DivisionOf, d) > MinMatches ==> LeagueMean(d, AvgGoals(t, d)) in ms
  {
    var leagues := QualifyingLeagues(t);
    var f := Filter(t, InLeagues(leagues));
    var ms := LeagueMeans(f);
    assert forall m :: m in ms ==> Count(t, DivisionOf, m.division) > MinMatches && m.avgGoals == AvgGoals(t, m.division) by {
      assert forall m :: m in ms ==> Count(f, DivisionOf, m.division) > 0 && m.avgGoals == AvgGoals(f, m.division);
      forall m | m in ms ensures Count(t, DivisionOf, m.division) > MinMatches && m.avgGoals == AvgGoals(t, m.division) {
        RestrictKeepsGroups(t, leagues, m.division);
      }
    }
    assert forall d :: Count(t, DivisionOf, d) > MinMatches ==> LeagueMean(d, AvgGoals(t, d)) in ms by {
      forall d | Count(t, DivisionOf, d) > MinMatches ensures LeagueMean(d, AvgGoals(t, d)) in ms {
        RestrictKeepsGroups(t, leagues, d);
        assert Count(f, DivisionOf, d) > 0;
      }
    }
    ms
  }

  /**
   * The bars of recipe 2: at most 15 leagues, each with more than 1000
   * matches and its mean goals over the whole table, largest mean first; a
   * qualifying league is left out only when 15 are shown and the last of
   * them does not rank below it.
   */
  function TopScoringLeagues(t: seq<Row>): (r: seq<LeagueMean>)
    ensures |r| <= TopCount
    ensures StrictlySorted(r, Outranks)
    ensures forall i, j :: 0 <= i < j < |r| ==> AtLeast(r[i].avgGoals, r[j].avgGoals)
    ensures forall m :: m in r ==> Count(t, DivisionOf, m.division) > MinMatches && m.avgGoals == AvgGoals(t, m.division)
    ensures forall d :: Count(t, DivisionOf, d) > MinMatches && LeagueMean(d, AvgGoals(t, d)) !in r ==>
      |r| == TopCount && Outranks(r[TopCount - 1], LeagueMean(d, AvgGoals(t, d))) && AtLeast(r[TopCount - 1].avgGoals, AvgGoals(t, d))
  {
    var ms := QualifyingMeans(t);
    var r := NLargest(ms, TopCount);
    assert forall i, j :: 0 <= i < j < |r| ==> AtLeast(r[i].avgGoals, r[j].avgGoals) by {
      forall i, j | 0 <= i < j < |r| ensures AtLeast(r[i].avgGoals, r[j].avgGoals) {
        OutranksAtLeast(r[i], r[j]);
      }
    }
    assert forall m :: m in r ==> Count(t, DivisionOf, m.division) > MinMatches && m.avgGoals == AvgGoals(t, m.division);
    assert forall d :: Count(t, DivisionOf, d) > MinMatches && LeagueMean(d, AvgGoals(t, d)) !in r ==>
        |r| == TopCount && Outranks(r[TopCount - 1], LeagueMean(d, AvgGoals(t, d))) && AtLeast(r[TopCount - 1].avgGoals, AvgGoals(t, d)) by {
      forall d | Count(t, DivisionOf, d) > MinMatches && LeagueMean(d, AvgGoals(t, d)) !in r
        ensures |r| == TopCount && Outranks(r[TopCount - 1], LeagueMean(d, AvgGoals(t, d))) && AtLeast(r[TopCount - 1].avgGoals, AvgGoals(t, d))
      {
        var m := LeagueMean(d, AvgGoals(t, d));
        assert m in ms;
        OutranksAtLeast(r[TopCount - 1], m);
      }
    }
    r
  }

  // ---------------------------------------------------------------------------
  // Recipe 3

  /** The rows of the five major leagues, every one of them, in table order. */
  function TopFiveMatches(t: seq<Row>): (r: seq<Row>)
    ensures forall x :: x in r <==> x in t && x.raw.division in {Some("E0"), Some("SP1"), Some("D1"), Some("I1"), Some("F1")}
    ensures forall x :: x in r ==> multiset(r)[x] == multiset(t)[x]
  {
    var r := Filter(t, InLeagues(TopFiveCodes));
    assert forall x :: x in r ==> multiset(r)[x] == multiset(t)[x] by {
      forall x | x in r ensures multiset(r)[x] == multiset(t)[x] {
        FilterMultiset(t, InLeagues(TopFiveCodes), x);
      }
    }
    r
  }

  /** The sunburst's (league, result) key; a row missing either has no sector. */
  function DivisionAndResult(r: Row): Option<(string, string)> {
    match (r.raw.division, r.raw.ftResult)
    case (Some(d), Some(res)) => Some((d, res))
    case _ => None
  }

  /** Each sector of the sunburst counts all of its league's matches with that result, and only the five leagues have sectors. */
  lemma TopFiveOutcomeCounts(t: seq<Row>, d: string, res: string)
    ensures Count(TopFiveMatches(t), DivisionAndResult, (d, res)) ==
      if d in TopFiveCodes then Count(t, DivisionAndResult, (d, res)) else 0
  {
    var q := HasKey(DivisionAndResult, (d, res));
    assert forall x :: q(x) ==> DivisionAndResult(x) == Some((d, res));
    if d in TopFiveCodes {
      FilterSubsumed(t, InLeagues(TopFiveCodes), q);
    } else {
      FilterNone(Filter(t, InLeagues(TopFiveCodes)), q);
    }
  }

  // ---------------------------------------------------------------------------
  // Recipe 9

  datatype LeagueStat = LeagueStat(division: string, avgGoals: Option<real>, avgCorners: Option<real>, matchCount: nat)

  /** One league's row of the `agg` table. */
  function Stat(t: seq<Row>, d: string): LeagueStat {
    LeagueStat(d, AvgGoals(t, d), AvgCorners(t, d), Count(t, DivisionOf, d))
  }

  predicate DivisionPrecedes(a: LeagueStat, b: LeagueStat) {
    StrLess(a.division, b.division)
  }

  predicate IsBigLeague(s: LeagueStat) {
    s.matchCount > MinMatches
  }

  /** `groupby('Division').agg(AvgGoals, AvgCorners, MatchCount=size)`, in division order. */
  function AllLeagueStats(t: seq<Row>): (r: seq<LeagueStat>)
    ensures StrictlySorted(r, DivisionPrecedes)
    ensures forall s :: s in r ==> s == Stat(t, s.division) && s.matchCount > 0
    ensures forall d :: Count(t, DivisionOf, d) > 0 ==> Stat(t, d) in r
  {
    StrLessIsStrictTotal();
    var ks := Keys(t, DivisionOf, StrLess);
    var r := seq(|ks|, i requires 0 <= i < |ks| => Stat(t, ks[i]));
    assert forall d :: d in ks ==> Stat(t, d) in r by {
      forall d | d in ks ensures Stat(t, d) in r {
        var i :| 0 <= i < |ks| && ks[i] == d;
        assert r[i] == Stat(t, d);
      }
    }
    r
  }

  /**
   * The points of recipe 9: exactly the leagues with more than 1000 matches,
   * in division order, each with its match count and its mean goals and
   * corners over the whole table.
   */
  function LeagueStats(t: seq<Row>): (r: seq<LeagueStat>)
    ensures forall i, j :: 0 <= i < j < |r| ==> StrLess(r[i].division, r[j].division)
    ensures forall s :: s in r ==> s.matchCount == Count(t, DivisionOf, s.division) && s.matchCount > MinMatches
    ensures forall s :: s in r ==> s.avgGoals == AvgGoals(t, s.division) && s.avgCorners == AvgCorners(t, s.division)
    ensures forall d :: Count(t, DivisionOf, d) > MinMatches ==> Stat(t, d) in r
  {
    var all := AllLeagueStats(t);
    var r := Filter(all, IsBigLeague);
    assert forall i, j :: 0 <= i < j < |r| ==> StrLess(r[i].division, r[j].division) by {
      FilterKeepsSorted(all, IsBigLeague, DivisionPrecedes);
    }
    assert forall s :: s in r ==> s == Stat(t, s.division) && s.matchCount > MinMatches;
    assert forall d :: Count(t, DivisionOf, d) > MinMatches ==> Stat(t, d) in r by {
      forall d | Count(t, DivisionOf, d) > MinMatches ensures Stat(t, d) in r {
        assert Stat(t, d) in all && IsBigLeague(Stat(t, d));
      }
    }
    r
  }
}
