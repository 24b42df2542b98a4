/** The performance report of strategy_lab/backtest.go (printReport,
    calculateSharpeRatio, calculateMaxDrawdown) and the pipeline of its
    `main`: group and sort the records, run the backtest, report when there
    are trades. */
module Metrics {
  import opened Common
  import opened Prices
  import opened Engine

  // ---------------------------------------------------------------------------
  // Returns, wins and mean (backtest.go:290-302)

  function ReturnsOf(trades: seq<Trade>): seq<real> {
    seq(|trades|, i requires 0 <= i < |trades| => trades[i].ret)
  }

  /** The number of strictly positive returns, counted left to right. */
  function Wins(rs: seq<real>): nat
    decreases |rs|
  {
    if rs == [] then 0
    else Wins(rs[..|rs| - 1]) + (if rs[|rs| - 1] > 0.0 then 1 else 0)
  }

  /** The wins are at most all the returns; they are all of them exactly
      when every return is positive and none of them exactly when no return
      is. */
  lemma {:induction false} WinsBounds(rs: seq<real>)
    ensures Wins(rs) <= |rs|
    ensures Wins(rs) == |rs| <==> forall i :: 0 <= i < |rs| ==> rs[i] > 0.0
    ensures Wins(rs) == 0 <==> forall i :: 0 <= i < |rs| ==> rs[i] <= 0.0
    decreases |rs|
  {
    if rs != [] {
      var init := rs[..|rs| - 1];
      WinsBounds(init);
      assert forall i :: 0 <= i < |init| ==> init[i] == rs[i];
    }
  }

  /** Every return at least `lo` gives a sum at least `|rs| * lo`. */
  lemma {:induction false} SumAtLeast(rs: seq<real>, lo: real)
    requires forall i :: 0 <= i < |rs| ==> lo <= rs[i]
    ensures |rs| as real * lo <= Sum(rs)
    decreases |rs|
  {
    if rs != [] {
      var init := rs[..|rs| - 1];
      assert forall i :: 0 <= i < |init| ==> init[i] == rs[i];
      SumAtLeast(init, lo);
      assert |rs| as real * lo == |init| as real * lo + lo;
    }
  }

  /** Every return at most `hi` gives a sum at most `|rs| * hi`. */
  lemma {:induction false} SumAtMost(rs: seq<real>, hi: real)
    requires forall i :: 0 <= i < |rs| ==> rs[i] <= hi
    ensures Sum(rs) <= |rs| as real * hi
    decreases |rs|
  {
    if rs != [] {
      var init := rs[..|rs| - 1];
      assert forall i :: 0 <= i < |init| ==> init[i] == rs[i];
      SumAtMost(init, hi);
      assert |rs| as real * hi == |init| as real * hi + hi;
    }
  }

  // ---------------------------------------------------------------------------
  // Sharpe ratio (backtest.go:315-324)

  /** Mean over sample standard deviation, annualised by the square root of
      252 trading days; 0 for fewer than two returns or no spread. */
  function SharpeRatio(rs: seq<real>, stats: Statistics): real {
    if |rs| < 2 then 0.0
    else
      var sd := stats.stdDev(rs);
      if sd == 0.0 then 0.0 else Mean(rs) / sd * stats.sqrt(252.0)
  }

  /** The ratio has the sign of the summed return, and is 0 whenever there
      are fewer than two returns or they have no spread. */
  lemma SharpeSign(rs: seq<real>, stats: Statistics)
    requires stats.Valid()
    ensures SharpeRatio(rs, stats) > 0.0 <==> |rs| >= 2 && stats.stdDev(rs) != 0.0 && Sum(rs) > 0.0
    ensures SharpeRatio(rs, stats) < 0.0 <==> |rs| >= 2 && stats.stdDev(rs) != 0.0 && Sum(rs) < 0.0
    ensures |rs| < 2 || stats.stdDev(rs) == 0.0 ==> SharpeRatio(rs, stats) == 0.0
  {
    if |rs| >= 2 && stats.stdDev(rs) != 0.0 {
      var n, sd, root := |rs| as real, stats.stdDev(rs), stats.sqrt(252.0);
      assert sd > 0.0 && root > 0.0;
      var mean := Sum(rs) / n;
      QuotientSign(Sum(rs), n);
      QuotientSign(mean, sd);
      ProductSign(mean / sd, root);
    }
  }

  lemma QuotientSign(a: real, b: real)
    requires b > 0.0
    ensures a / b > 0.0 <==> a > 0.0
    ensures a / b < 0.0 <==> a < 0.0
  {
    assert a / b * b == a;
  }

  lemma ProductSign(a: real, b: real)
    requires b > 0.0
    ensures a * b > 0.0 <==> a > 0.0
    ensures a * b < 0.0 <==> a < 0.0
  {
  }

  // ---------------------------------------------------------------------------
  // Maximum drawdown (backtest.go:326-339)

  /** The running state of calculateMaxDrawdown: the highest portfolio value
      so far, the current value and the largest relative fall from a peak. */
  datatype Curve = Curve(peak: real, value: real, maxDrawdown: real)

  const Start := Curve(1.0, 1.0, 0.0)

  /** The relative fall of the current value from the peak. */
  function DrawdownOf(c: Curve): real {
    Quotient(c.peak - c.value, c.peak)
  }

  /** Compounds one return into the curve. */
  function Step(c: Curve, r: real): Curve {
    var value := c.value * (1.0 + r);
    var peak := if value > c.peak then value else c.peak;
    var next := Curve(peak, value, c.maxDrawdown);
    if DrawdownOf(next) > c.maxDrawdown then next.(maxDrawdown := DrawdownOf(next)) else next
  }

  /** The curve after compounding the returns in order from a value of 1. */
  function CurveAfter(rs: seq<real>): Curve
    decreases |rs|
  {
    if rs == [] then Start else Step(CurveAfter(rs[..|rs| - 1]), rs[|rs| - 1])
  }

  /** The value the source reports: the largest drawdown, negated. */
  function MaxDrawdown(rs: seq<real>): real {
    -CurveAfter(rs).maxDrawdown
  }

  /** One step keeps the peak at least 1 and at least the value, and the
      largest drawdown non-negative. */
  lemma StepWellFormed(c: Curve, r: real)
    requires c.peak >= 1.0 && c.value <= c.peak && c.maxDrawdown >= 0.0
    ensures Step(c, r).peak >= 1.0 && Step(c, r).value <= Step(c, r).peak
    ensures Step(c, r).maxDrawdown >= 0.0
  {
  }

  /** The peak never falls below the starting value of 1 nor below the
      current value, and the largest drawdown is never negative. */
  lemma {:induction false} CurveWellFormed(rs: seq<real>)
    ensures CurveAfter(rs).peak >= 1.0
    ensures CurveAfter(rs).value <= CurveAfter(rs).peak
    ensures CurveAfter(rs).maxDrawdown >= 0.0
    decreases |rs|
  {
    if rs != [] {
      CurveWellFormed(rs[..|rs| - 1]);
      StepWellFormed(CurveAfter(rs[..|rs| - 1]), rs[|rs| - 1]);
    }
  }

  /** The reported drawdown is never positive. */
  lemma MaxDrawdownNotPositive(rs: seq<real>)
    ensures MaxDrawdown(rs) <= 0.0
  {
    CurveWellFormed(rs);
  }

  /** One step keeps the largest drawdown so far or raises it to the new
      fall from the peak, whichever is larger. */
  lemma StepMaxDrawdown(c: Curve, r: real)
    ensures c.maxDrawdown <= Step(c, r).maxDrawdown
    ensures DrawdownOf(Step(c, r)) <= Step(c, r).maxDrawdown
    ensures Step(c, r).maxDrawdown == c.maxDrawdown || Step(c, r).maxDrawdown == DrawdownOf(Step(c, r))
  {
  }

  /** The largest drawdown is the maximum over every prefix of the returns of
      the fall from the peak reached after that prefix, and it is attained at
      one of them (the empty prefix has the fall 0). */
  lemma {:induction false} MaxDrawdownIsMaximum(rs: seq<real>)
    ensures forall k :: 0 <= k <= |rs| ==> DrawdownOf(CurveAfter(rs[..k])) <= CurveAfter(rs).maxDrawdown
    ensures exists k :: 0 <= k <= |rs| && DrawdownOf(CurveAfter(rs[..k])) == CurveAfter(rs).maxDrawdown
    decreases |rs|
  {
    if rs == [] {
      assert rs[..0] == rs;
    } else {
      var init := rs[..|rs| - 1];
      var before := CurveAfter(init);
      var after := CurveAfter(rs);
      MaxDrawdownIsMaximum(init);
      assert rs[..|rs|] == rs;
      assert after == Step(before, rs[|rs| - 1]);
      StepMaxDrawdown(before, rs[|rs| - 1]);
      forall k | 0 <= k <= |rs|
        ensures DrawdownOf(CurveAfter(rs[..k])) <= after.maxDrawdown
      {
        if k < |rs| {
          assert rs[..k] == init[..k];
        }
      }
      if after.maxDrawdown == before.maxDrawdown {
        var j :| 0 <= j <= |init| && DrawdownOf(CurveAfter(init[..j])) == before.maxDrawdown;
        assert rs[..j] == init[..j];
      }
    }
  }

  lemma MulNonNegative(a: real, b: real)
    requires a >= 0.0 && b >= 0.0
    ensures a * b >= 0.0
  {
  }

  lemma FallAtMostPeak(peak: real, value: real)
    requires peak >= 1.0 && value >= 0.0
    ensures Quotient(peak - value, peak) <= 1.0
  {
    assert (peak - value) / peak * peak == peak - value;
  }

  /** A return of at least -100% keeps the value non-negative and the
      largest drawdown at most 1. */
  lemma StepNonNegative(c: Curve, r: real)
    requires c.peak >= 1.0 && c.value >= 0.0 && c.maxDrawdown <= 1.0 && r >= -1.0
    ensures Step(c, r).value >= 0.0 && Step(c, r).maxDrawdown <= 1.0
  {
    var value := c.value * (1.0 + r);
    MulNonNegative(c.value, 1.0 + r);
    var peak := if value > c.peak then value else c.peak;
    FallAtMostPeak(peak, value);
  }

  /** If no return loses more than everything, the value stays non-negative
      and the drawdown is at most 100%. */
  lemma {:induction false} CurveValueNonNegative(rs: seq<real>)
    requires forall i :: 0 <= i < |rs| ==> rs[i] >= -1.0
    ensures CurveAfter(rs).value >= 0.0
    ensures CurveAfter(rs).maxDrawdown <= 1.0
    decreases |rs|
  {
    if rs != [] {
      var init := rs[..|rs| - 1];
      assert forall i :: 0 <= i < |init| ==> init[i] == rs[i];
      CurveValueNonNegative(init);
      CurveWellFormed(init);
      StepNonNegative(CurveAfter(init), rs[|rs| - 1]);
    }
  }

  lemma MaxDrawdownAtLeastTotalLoss(rs: seq<real>)
    requires forall i :: 0 <= i < |rs| ==> rs[i] >= -1.0
    ensures MaxDrawdown(rs) >= -1.0
  {
    CurveValueNonNegative(rs);
  }

  /** A non-negative return keeps the value at its (new) peak and the
      largest drawdown at 0. */
  lemma StepNoLoss(c: Curve, r: real)
    requires c.peak >= 1.0 && c.value == c.peak && c.maxDrawdown == 0.0 && r >= 0.0
    ensures Step(c, r).value == Step(c, r).peak && Step(c, r).maxDrawdown == 0.0
  {
    MulNonNegative(c.value, r);
    assert c.value * (1.0 + r) == c.value + c.value * r;
  }

  /** Without losing returns the value never falls below its peak, so the
      reported drawdown is 0. */
  lemma {:induction false} NoLossNoDrawdown(rs: seq<real>)
    requires forall i :: 0 <= i < |rs| ==> rs[i] >= 0.0
    ensures CurveAfter(rs).value == CurveAfter(rs).peak
    ensures MaxDrawdown(rs) == 0.0
    decreases |rs|
  {
    if rs != [] {
      var init := rs[..|rs| - 1];
      assert forall i :: 0 <= i < |init| ==> init[i] == rs[i];
      NoLossNoDrawdown(init);
      CurveWellFormed(init);
      StepNoLoss(CurveAfter(init), rs[|rs| - 1]);
    }
  }

  /** One pass of the source's loop body, from a peak of at least 1. */
  method UpdateCurve(peak: real, portfolioValue: real, maxDrawdown: real, r: real)
    returns (peak': real, portfolioValue': real, maxDrawdown': real)
    requires peak >= 1.0
    ensures Curve(peak', portfolioValue', maxDrawdown') == Step(Curve(peak, portfolioValue, maxDrawdown), r)
  {
    peak', maxDrawdown' := peak, maxDrawdown;
    portfolioValue' := portfolioValue * (1.0 + r);
    if portfolioValue' > peak' {
      peak' := portfolioValue';
    }
    var drawdown := (peak' - portfolioValue') / peak';
    if drawdown > maxDrawdown' {
      maxDrawdown' := drawdown;
    }
  }

  /** The source's loop, tied to the fold `CurveAfter`. */
  method CalculateMaxDrawdown(rets: seq<real>) returns (result: real)
    ensures result == MaxDrawdown(rets)
  {
    var peak, maxDrawdown, portfolioValue := 1.0, 0.0, 1.0;
    for i := 0 to |rets|
      invariant Curve(peak, portfolioValue, maxDrawdown) == CurveAfter(rets[..i])
    {
      CurveWellFormed(rets[..i]);
      assert rets[..i + 1][..i] == rets[..i];
      peak, portfolioValue, maxDrawdown := UpdateCurve(peak, portfolioValue, maxDrawdown, rets[i]);
    }
    assert rets[..|rets|] == rets;
    result := -maxDrawdown;
  }

  // ---------------------------------------------------------------------------
  // The report (backtest.go:290-313)

  datatype Report = Report(totalTrades: nat, meanReturn: real, winRate: real,
                           sharpeRatio: real, maxDrawdown: real)

  /** The figures printReport prints, as fractions (it prints them times 100). */
  function ReportOf(trades: seq<Trade>, stats: Statistics): Report
    requires |trades| > 0
  {
    var rs := ReturnsOf(trades);
    Report(|trades|, Sum(rs) / |trades| as real, Wins(rs) as real / |trades| as real,
           SharpeRatio(rs, stats), MaxDrawdown(rs))
  }

  /** The loop of printReport and the metrics it calls. The source is only
      reached with at least one trade; it divides by the trade count. */
  method ComputeReport(trades: seq<Trade>, stats: Statistics) returns (report: Report)
    requires |trades| > 0
    ensures report == ReportOf(trades, stats)
  {
    var totalReturn := 0.0;
    var winningTrades := 0;
    var rets: seq<real> := [];
    for i := 0 to |trades|
      invariant rets == ReturnsOf(trades)[..i]
      invariant totalReturn == Sum(rets)
      invariant winningTrades == Wins(rets)
    {
      var next := rets + [trades[i].ret];
      assert next[..|next| - 1] == rets;
      totalReturn := totalReturn + trades[i].ret;
      if trades[i].ret > 0.0 {
        winningTrades := winningTrades + 1;
      }
      rets := next;
    }
    assert rets == ReturnsOf(trades);
    var n := |trades| as real;
    var maxDrawdown := CalculateMaxDrawdown(rets);
    report := Report(|trades|, totalReturn / n, winningTrades as real / n,
                     SharpeRatio(rets, stats), maxDrawdown);
  }

  /** The win rate is a fraction: 1 exactly when every trade gained and 0
      exactly when none did. */
  lemma WinRateBounds(trades: seq<Trade>, stats: Statistics)
    requires |trades| > 0
    ensures 0.0 <= ReportOf(trades, stats).winRate <= 1.0
    ensures ReportOf(trades, stats).winRate == 1.0 <==> forall i :: 0 <= i < |trades| ==> trades[i].ret > 0.0
    ensures ReportOf(trades, stats).winRate == 0.0 <==> forall i :: 0 <= i < |trades| ==> trades[i].ret <= 0.0
  {
    var rs := ReturnsOf(trades);
    WinsBounds(rs);
    assert forall i :: 0 <= i < |trades| ==> rs[i] == trades[i].ret;
    FractionBounds(Wins(rs), |trades|);
  }

  lemma FractionBounds(w: nat, n: nat)
    requires 0 < n && w <= n
    ensures 0.0 <= w as real / n as real <= 1.0
    ensures w as real / n as real == 1.0 <==> w == n
    ensures w as real / n as real == 0.0 <==> w == 0
  {
    var q := w as real / n as real;
    assert q * n as real == w as real;
  }

  /** The mean return lies between the smallest and the largest return. */
  lemma MeanReturnBetween(trades: seq<Trade>, stats: Statistics, lo: real, hi: real)
    requires |trades| > 0
    requires forall i :: 0 <= i < |trades| ==> lo <= trades[i].ret <= hi
    ensures lo <= ReportOf(trades, stats).meanReturn <= hi
  {
    var rs := ReturnsOf(trades);
    assert forall i :: 0 <= i < |rs| ==> rs[i] == trades[i].ret;
    SumAtLeast(rs, lo);
    SumAtMost(rs, hi);
    QuotientBetween(Sum(rs), |rs| as real, lo, hi);
  }

  lemma QuotientBetween(s: real, n: real, lo: real, hi: real)
    requires n > 0.0 && n * lo <= s <= n * hi
    ensures lo <= s / n <= hi
  {
    assert s / n * n == s;
  }

  /** The reported drawdown lies in [-1, 0] when no trade lost more than its
      stake, and is 0 when no trade lost at all. */
  lemma ReportDrawdownBounds(trades: seq<Trade>, stats: Statistics)
    requires |trades| > 0
    ensures ReportOf(trades, stats).maxDrawdown <= 0.0
    ensures (forall i :: 0 <= i < |trades| ==> trades[i].ret >= -1.0) ==> ReportOf(trades, stats).maxDrawdown >= -1.0
    ensures (forall i :: 0 <= i < |trades| ==> trades[i].ret >= 0.0) ==> ReportOf(trades, stats).maxDrawdown == 0.0
  {
    var rs := ReturnsOf(trades);
    MaxDrawdownNotPositive(rs);
    if forall i :: 0 <= i < |trades| ==> trades[i].ret >= -1.0 {
      MaxDrawdownAtLeastTotalLoss(rs);
    }
    if forall i :: 0 <= i < |trades| ==> trades[i].ret >= 0.0 {
      NoLossNoDrawdown(rs);
    }
  }

  // ---------------------------------------------------------------------------
  // The pipeline of main (backtest.go:68-90)

  /** Groups and sorts the loaded records, runs the backtest and produces a
      report exactly when some trade was made. */
  method RunPipeline(records: seq<DailyData>, stats: Statistics)
    returns (m: map<string, seq<DailyData>>, trades: seq<Trade>, report: Option<Report>,
             ghost rankings: seq<seq<CorrelationData>>)
    ensures m.Keys == Tickers(records)
    ensures forall t :: t in m ==> IsSortingOf(m[t], RecordsOf(records, t), ByDate)
    ensures RankingsAreSorts(m, stats, rankings)
    ensures trades == TradesOf(Emitted(m, stats, rankings))
    ensures report.Some? <==> |trades| > 0
    ensures report.Some? ==> report.value == ReportOf(trades, stats)
  {
    m := GroupAndSort(records);
    trades, rankings := RunBacktest(m, stats);
    if |trades| > 0 {
      var r := ComputeReport(trades, stats);
      report := Some(r);
    } else {
      report := None;
    }
  }
}
