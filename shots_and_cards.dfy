/**
 * Recipe 6 ("Shots vs. Goals Efficiency"): the home sides with a plausible
 * shot count and at least one shot on target.  Recipe 8 ("Fouls vs. Yellow
 * Cards"): home and away sides stacked into one (fouls, yellow cards)
 * sample for the density heatmap.
 */
module ShotsAndCards {
  import opened Wrappers
  import opened Frames
  import opened Matches

  /** Recipe 6 keeps shot counts strictly below this. */
  const MaxShots: int := 40
  /** Recipe 8 keeps foul counts strictly below this. */
  const MaxFouls: int := 40

  // ---------------------------------------------------------------------------
  // Recipe 6

  /** The mask of line 136; a comparison with a missing cell is false. */
  predicate ShotsInRange(r: Row) {
    match (r.raw.homeShots, r.raw.homeTarget)
    case (Some(shots), Some(target)) => shots > 0 && target > 0 && shots < MaxShots
    case _ => false
  }

  /** Exactly the rows with 0 < HomeShots < 40 and HomeTarget > 0, each as often as in the table. */
  function ShotEfficiency(t: seq<Row>): (r: seq<Row>)
    ensures forall x :: x in r <==>
      && x in t
      && x.raw.homeShots.Some? && 0 < x.raw.homeShots.value < MaxShots
      && x.raw.homeTarget.Some? && x.raw.homeTarget.value > 0
    ensures forall x :: x in r ==> multiset(r)[x] == multiset(t)[x]
  {
    var r := Filter(t, ShotsInRange);
    assert forall x :: x in r ==> multiset(r)[x] == multiset(t)[x] by {
      forall x | x in r ensures multiset(r)[x] == multiset(t)[x] {
        FilterMultiset(t, ShotsInRange, x);
      }
    }
    r
  }

  // ---------------------------------------------------------------------------
  // Recipe 8

  datatype FoulCard = FoulCard(fouls: int, yellows: int)

  // The four columns recipe 8 reads.

  function HomeFouls(r: Row): Option<int> {
    r.raw.homeFouls
  }

  function AwayFouls(r: Row): Option<int> {
    r.raw.awayFouls
  }

  function HomeYellow(r: Row): Option<int> {
    r.raw.homeYellow
  }

  function AwayYellow(r: Row): Option<int> {
    r.raw.awayYellow
  }

  /** `pd.concat([df['HomeFouls'], df['AwayFouls']])`: home sides first, then away sides. */
  function StackedFouls(t: seq<Row>): (f: seq<Option<int>>)
    ensures |f| == 2 * |t|
    ensures forall i :: 0 <= i < |t| ==> f[i] == t[i].raw.homeFouls && f[|t| + i] == t[i].raw.awayFouls
  {
    Column(t, HomeFouls) + Column(t, AwayFouls)
  }

  /** `pd.concat([df['HomeYellow'], df['AwayYellow']])`, aligned with `StackedFouls`. */
  function StackedYellows(t: seq<Row>): (y: seq<Option<int>>)
    ensures |y| == 2 * |t|
    ensures forall i :: 0 <= i < |t| ==> y[i] == t[i].raw.homeYellow && y[|t| + i] == t[i].raw.awayYellow
  {
    Column(t, HomeYellow) + Column(t, AwayYellow)
  }

  /** `pd.concat([fouls, yellows], axis=1)`: the two series side by side, one cell pair per position. */
  function Zip(fouls: seq<Option<int>>, yellows: seq<Option<int>>): (z: seq<(Option<int>, Option<int>)>)
    requires |fouls| == |yellows|
    ensures |z| == |fouls|
    ensures forall i :: 0 <= i < |fouls| ==> z[i] == (fouls[i], yellows[i])
  {
    seq(|fouls|, i requires 0 <= i < |fouls| => (fouls[i], yellows[i]))
  }

  /**
   * `pd.concat([fouls, yellows], axis=1).dropna()`: the two series side by
   * side, keeping the positions where both are present, in order; a pair
   * occurs as often as positions hold it.
   */
  function CompletePairs(fouls: seq<Option<int>>, yellows: seq<Option<int>>): (r: seq<FoulCard>)
    requires |fouls| == |yellows|
    ensures |r| <= |fouls|
    ensures forall c :: c in r <==> exists i :: 0 <= i < |fouls| && fouls[i] == Some(c.fouls) && yellows[i] == Some(c.yellows)
  {
    if fouls == [] then []
    else
      var rest := CompletePairs(fouls[1..], yellows[1..]);
      assert forall c: FoulCard, i :: 1 <= i < |fouls| && fouls[i] == Some(c.fouls) && yellows[i] == Some(c.yellows) ==>
        fouls[1..][i - 1] == Some(c.fouls) && yellows[1..][i - 1] == Some(c.yellows);
      if fouls[0].Some? && yellows[0].Some? then [FoulCard(fouls[0].value, yellows[0].value)] + rest else rest
  }

  /** A pair occurs in the result as often as positions of the two series hold it. */
  lemma {:induction false} CompletePairsMultiset(fouls: seq<Option<int>>, yellows: seq<Option<int>>, c: FoulCard)
    requires |fouls| == |yellows|
    ensures multiset(CompletePairs(fouls, yellows))[c] == multiset(Zip(fouls, yellows))[(Some(c.fouls), Some(c.yellows))]
  {
    if fouls != [] {
      assert Zip(fouls, yellows) == [(fouls[0], yellows[0])] + Zip(fouls[1..], yellows[1..]);
      CompletePairsMultiset(fouls[1..], yellows[1..], c);
    }
  }

  /** Pairing works position by position, so stacked series pair up as their pairings stacked. */
  lemma {:induction false} CompletePairsConcat(f1: seq<Option<int>>, y1: seq<Option<int>>, f2: seq<Option<int>>, y2: seq<Option<int>>)
    requires |f1| == |y1| && |f2| == |y2|
    ensures CompletePairs(f1 + f2, y1 + y2) == CompletePairs(f1, y1) + CompletePairs(f2, y2)
  {
    if f1 == [] {
      assert f1 + f2 == f2 && y1 + y2 == y2;
    } else {
      assert (f1 + f2)[0] == f1[0] && (y1 + y2)[0] == y1[0];
      assert (f1 + f2)[1..] == f1[1..] + f2 && (y1 + y2)[1..] == y1[1..] + y2;
      CompletePairsConcat(f1[1..], y1[1..], f2, y2);
    }
  }

  predicate FoulsBelowCap(c: FoulCard) {
    c.fouls < MaxFouls
  }

  /** One side of match `x` recorded exactly the fouls and yellow cards of `c`. */
  predicate SideHas(x: Row, c: FoulCard) {
    || (x.raw.homeFouls == Some(c.fouls) && x.raw.homeYellow == Some(c.yellows))
    || (x.raw.awayFouls == Some(c.fouls) && x.raw.awayYellow == Some(c.yellows))
  }

  /** The home sides' (fouls, yellow cards) cells, one per match. */
  function HomeSides(t: seq<Row>): seq<(Option<int>, Option<int>)> {
    Zip(Column(t, HomeFouls), Column(t, HomeYellow))
  }

  /** The away sides' (fouls, yellow cards) cells, one per match. */
  function AwaySides(t: seq<Row>): seq<(Option<int>, Option<int>)> {
    Zip(Column(t, AwayFouls), Column(t, AwayYellow))
  }

  /** How many sides, home or away, of the matches in `t` recorded exactly the counts of `c`. */
  function SideCount(t: seq<Row>, c: FoulCard): nat {
    multiset(HomeSides(t))[(Some(c.fouls), Some(c.yellows))] + multiset(AwaySides(t))[(Some(c.fouls), Some(c.yellows))]
  }

  /**
   * The heatmap's sample: a (fouls, yellows) pair occurs in it exactly when
   * some side of some match had both counts recorded, with fewer than 40
   * fouls, and as many times as sides recorded it.
   */
  function FoulsVsCards(t: seq<Row>): (r: seq<FoulCard>)
    ensures |r| <= 2 * |t|
    ensures forall c :: c in r <==> c.fouls < MaxFouls && exists x :: x in t && SideHas(x, c)
    ensures forall c :: multiset(r)[c] == (if c.fouls < MaxFouls then SideCount(t, c) else 0)
  {
    var fouls := StackedFouls(t);
    var yellows := StackedYellows(t);
    var pairs := CompletePairs(fouls, yellows);
    var r := Filter(pairs, FoulsBelowCap);
    assert forall c :: multiset(r)[c] == (if c.fouls < MaxFouls then SideCount(t, c) else 0) by {
      assert Zip(fouls, yellows) == HomeSides(t) + AwaySides(t);
      forall c ensures multiset(r)[c] == (if c.fouls < MaxFouls then SideCount(t, c) else 0) {
        FilterMultiset(pairs, FoulsBelowCap, c);
        CompletePairsMultiset(fouls, yellows, c);
      }
    }
    assert forall c :: c in pairs <==> exists x :: x in t && SideHas(x, c) by {
      forall c | c in pairs ensures exists x :: x in t && SideHas(x, c) {
        var i :| 0 <= i < |fouls| && fouls[i] == Some(c.fouls) && yellows[i] == Some(c.yellows);
        if i < |t| {
          assert t[i] in t && SideHas(t[i], c);
        } else {
          assert t[i - |t|] in t && SideHas(t[i - |t|], c);
        }
      }
      forall c, x | x in t && SideHas(x, c) ensures c in pairs {
        var i :| 0 <= i < |t| && t[i] == x;
        if x.raw.homeFouls == Some(c.fouls) && x.raw.homeYellow == Some(c.yellows) {
          assert fouls[i] == Some(c.fouls) && yellows[i] == Some(c.yellows);
        } else {
          assert fouls[|t| + i] == Some(c.fouls) && yellows[|t| + i] == Some(c.yellows);
        }
      }
    }
    r
  }

  /**
   * The sample is the home sides' complete pairs under the cap, in match
   * order, followed by the away sides' — every side is counted once.
   */
  lemma FoulsVsCardsStacksSides(t: seq<Row>)
    ensures FoulsVsCards(t) ==
      Filter(CompletePairs(Column(t, HomeFouls), Column(t, HomeYellow)), FoulsBelowCap) +
      Filter(CompletePairs(Column(t, AwayFouls), Column(t, AwayYellow)), FoulsBelowCap)
  {
    CompletePairsConcat(Column(t, HomeFouls), Column(t, HomeYellow), Column(t, AwayFouls), Column(t, AwayYellow));
    FilterConcat(CompletePairs(Column(t, HomeFouls), Column(t, HomeYellow)), CompletePairs(Column(t, AwayFouls), Column(t, AwayYellow)), FoulsBelowCap);
  }
}
