/**
 * Recipe 10, "Betting Odds vs. Reality": the home-win probability implied by
 * the closing odds, cut into ten bins of width 0.1, against how often the
 * home side actually won in each bin.
 */
module Calibration {
  import opened Wrappers
  import opened Frames
  import opened Matches

  /** `np.arange(0, 1.1, 0.1)` gives eleven edges, so ten bins (k/10, (k+1)/10]. */
  const BinCount: int := 10

  /** A row of `df_odds` once its three columns are assigned. */
  datatype OddsRow = OddsRow(impliedProb: Option<real>, actualResult: int, probBin: Option<int>)

  /** One point of the chart; a bin without rows has no point (both means missing). */
  datatype CalibrationPoint = CalibrationPoint(bin: int, avgImpliedProb: Option<real>, actualWinRate: Option<real>)

  /** `1 / OddHome`.  Odds of 0 give an infinite probability, which no bin holds; it is missing here. */
  function ImpliedProb(odds: real): (p: Option<real>)
    ensures p.Some? <==> odds != 0.0
    ensures p.Some? ==> p.value * odds == 1.0
  {
    if odds == 0.0 then None else Some(1.0 / odds)
  }

  /** `(FTResult == 'H').astype(int)`. */
  function ActualResult(result: string): (a: int)
    ensures a == 0 || a == 1
    ensures a == 1 <==> result == "H"
  {
    if result == "H" then 1 else 0
  }

  /**
   * `pd.cut` with right-closed bins: bin k holds (k/10, (k+1)/10], so 1.0
   * falls in the last bin and a probability at most 0 or above 1 in none.
   */
  function ProbBin(p: real): (b: Option<int>)
    ensures b.Some? <==> 0.0 < p <= 1.0
    ensures b.Some? ==> 0 <= b.value < BinCount && b.value as real / 10.0 < p <= (b.value + 1) as real / 10.0
  {
    if p <= 0.0 || p > 1.0 then None
    else
      var f := (10.0 * p).Floor;
      Some(if f as real == 10.0 * p then f - 1 else f)
  }

  /** The bins do not overlap: a probability in bin k's interval is given bin k and no other. */
  lemma BinsPartition(p: real, k: int)
    requires 0 <= k < BinCount && k as real / 10.0 < p <= (k + 1) as real / 10.0
    ensures ProbBin(p) == Some(k)
  {
  }

  predicate HasOddsAndResult(r: Row) {
    r.raw.oddHome.Some? && r.raw.ftResult.Some?
  }

  /** A row's probability bin is the bin of its implied probability, and the win indicator is 0 or 1. */
  predicate WellFormed(o: OddsRow) {
    && (o.probBin.Some? ==> o.impliedProb.Some? && ProbBin(o.impliedProb.value) == o.probBin)
    && (o.actualResult == 0 || o.actualResult == 1)
  }

  /** Lines 203-205 for one row that has both odds and a result. */
  function ToOddsRow(r: Row): (o: OddsRow)
    requires HasOddsAndResult(r)
    ensures WellFormed(o)
    ensures o.impliedProb == ImpliedProb(r.raw.oddHome.value)
    ensures o.probBin.Some? <==> o.impliedProb.Some? && 0.0 < o.impliedProb.value <= 1.0
    ensures o.actualResult == 1 <==> r.raw.ftResult == Some("H")
  {
    var p := ImpliedProb(r.raw.oddHome.value);
    OddsRow(p, ActualResult(r.raw.ftResult.value), match p { case Some(v) => ProbBin(v) case None => None })
  }

  /** `df[['OddHome', 'FTResult']].dropna()` with its three new columns: one row per kept match, in order. */
  function OddsTable(t: seq<Row>): (o: seq<OddsRow>)
    ensures |o| <= |t|
    ensures forall x :: x in o ==> WellFormed(x)
    ensures var kept := Filter(t, HasOddsAndResult);
      |o| == |kept| && forall i :: 0 <= i < |o| ==> o[i] == ToOddsRow(kept[i])
  {
    var kept := Filter(t, HasOddsAndResult);
    seq(|kept|, i requires 0 <= i < |kept| => ToOddsRow(kept[i]))
  }

  function BinOf(o: OddsRow): Option<int> {
    o.probBin
  }

  function ImpliedOf(o: OddsRow): Option<real> {
    o.impliedProb
  }

  function ActualOf(o: OddsRow): Option<real> {
    Some(o.actualResult as real)
  }

  /** Bin k's row of the `agg` table. */
  function BinPoint(o: seq<OddsRow>, k: int): CalibrationPoint {
    CalibrationPoint(k, GroupMean(o, BinOf, k, ImpliedOf), GroupMean(o, BinOf, k, ActualOf))
  }

  /**
   * A bin has a point exactly when some row falls in it; the point's mean
   * implied probability lies in the bin, and its win rate in [0, 1].
   */
  lemma BinPointBounded(o: seq<OddsRow>, k: int)
    requires forall x :: x in o ==> WellFormed(x)
    requires 0 <= k < BinCount
    ensures BinPoint(o, k).avgImpliedProb.Some? <==> Count(o, BinOf, k) > 0
    ensures BinPoint(o, k).actualWinRate.Some? <==> Count(o, BinOf, k) > 0
    ensures var m := BinPoint(o, k).avgImpliedProb;
      m.Some? ==> k as real / 10.0 < m.value <= (k + 1) as real / 10.0
    ensures var w := BinPoint(o, k).actualWinRate;
      w.Some? ==> 0.0 <= w.value <= 1.0
  {
    var g := Group(o, BinOf, k);
    if Count(o, BinOf, k) > 0 {
      var x :| x in o && BinOf(x) == Some(k);
      assert ImpliedOf(x).Some? && ActualOf(x).Some?;
    }
    forall v | v in Present(g, ImpliedOf) ensures k as real / 10.0 < v <= (k + 1) as real / 10.0 {
      var x :| x in g && ImpliedOf(x) == Some(v);
      assert ProbBin(v) == Some(k);
    }
    MeanInHalfOpen(Present(g, ImpliedOf), k as real / 10.0, (k + 1) as real / 10.0);
    MeanInClosed(Present(g, ActualOf), 0.0, 1.0);
  }

  /**
   * `groupby('ProbBin').agg(...)` over the ten bins: bin k's point has both
   * means exactly when some match falls in bin k; its mean implied
   * probability lies in (k/10, (k+1)/10] and its win rate, the share of
   * those matches the home side won, in [0, 1].
   */
  function Calibrate(t: seq<Row>): (c: seq<CalibrationPoint>)
    ensures |c| == BinCount
    ensures forall k :: 0 <= k < BinCount ==> c[k].bin == k
    ensures forall k :: 0 <= k < BinCount ==>
      && (c[k].avgImpliedProb.Some? <==> Count(OddsTable(t), BinOf, k) > 0)
      && (c[k].actualWinRate.Some? <==> Count(OddsTable(t), BinOf, k) > 0)
    ensures forall k :: 0 <= k < BinCount ==> c[k].avgImpliedProb == GroupMean(OddsTable(t), BinOf, k, ImpliedOf)
    ensures forall k :: 0 <= k < BinCount ==> c[k].actualWinRate == GroupMean(OddsTable(t), BinOf, k, ActualOf)
    ensures forall k :: 0 <= k < BinCount && c[k].avgImpliedProb.Some? ==>
      k as real / 10.0 < c[k].avgImpliedProb.value <= (k + 1) as real / 10.0
    ensures forall k :: 0 <= k < BinCount && c[k].actualWinRate.Some? ==> 0.0 <= c[k].actualWinRate.value <= 1.0
  {
    var o := OddsTable(t);
    var c := seq(BinCount, k requires 0 <= k < BinCount => BinPoint(o, k));
    assert forall k :: 0 <= k < BinCount ==>
      && (c[k].avgImpliedProb.Some? <==> Count(o, BinOf, k) > 0)
      && (c[k].actualWinRate.Some? <==> Count(o, BinOf, k) > 0)
      && (c[k].avgImpliedProb.Some? ==> k as real / 10.0 < c[k].avgImpliedProb.value <= (k + 1) as real / 10.0)
      && (c[k].actualWinRate.Some? ==> 0.0 <= c[k].actualWinRate.value <= 1.0)
    by {
      forall k | 0 <= k < BinCount
        ensures c[k].avgImpliedProb.Some? <==> Count(o, BinOf, k) > 0
        ensures c[k].actualWinRate.Some? <==> Count(o, BinOf, k) > 0
        ensures c[k].avgImpliedProb.Some? ==> k as real / 10.0 < c[k].avgImpliedProb.value <= (k + 1) as real / 10.0
        ensures c[k].actualWinRate.Some? ==> 0.0 <= c[k].actualWinRate.value <= 1.0
      {
        BinPointBounded(o, k);
      }
    }
    c
  }
}
