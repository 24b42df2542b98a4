/** The volume-price divergence rule of risk_sentinel/whale_tracker.go: a
    volume spike on a day whose close barely moved is read as a large
    holder quietly leaving. The daily chart is passed in as a value; the
    closes (shopspring decimals in Go) are reals. */
module WhaleTracker {
  import opened Common

  /** One daily bar of the chart: traded volume and closing price. */
  datatype Bar = Bar(volume: int, close: real)

  /** What the chart iterator delivered: the bars it yielded, and whether
      it ended in an error. */
  datatype Chart = Chart(bars: seq<Bar>, failed: bool)

  datatype VPDResult = VPDResult(ticker: string, volumeSpike: bool, priceStagnant: bool, alert: bool)

  /** A call either returns a result, or panics when the previous close is
      zero (decimal division by zero). */
  datatype Outcome = Detected(result: VPDResult) | DivisionByZero

  /** Go's integer division of `int`s, which truncates toward zero. */
  function GoDiv(a: int, b: int): int
    requires b > 0
  {
    if a >= 0 then a / b else -((-a) / b)
  }

  /** Truncating division: the remainder is smaller than the divisor and
      has the sign of the dividend. */
  lemma GoDivSpec(a: int, b: int)
    requires b > 0
    ensures var q, r := GoDiv(a, b), a - b * GoDiv(a, b);
      && -b < r < b
      && (a >= 0 ==> r >= 0 && q >= 0)
      && (a <= 0 ==> r <= 0 && q <= 0)
  {
  }

  /** Left-to-right integer sum. */
  function SumInt(xs: seq<int>): int
    decreases |xs|
  {
    if xs == [] then 0 else SumInt(xs[..|xs| - 1]) + xs[|xs| - 1]
  }

  function Volumes(bars: seq<Bar>): seq<int> {
    seq(|bars|, i requires 0 <= i < |bars| => bars[i].volume)
  }

  function Closes(bars: seq<Bar>): seq<real> {
    seq(|bars|, i requires 0 <= i < |bars| => bars[i].close)
  }

  /** The result that sets only the ticker. */
  function Quiet(ticker: string): VPDResult {
    VPDResult(ticker, false, false, false)
  }

  /** The mean volume of the five days before the last one, in integer
      arithmetic. */
  function AverageVolume(volumes: seq<int>): int
    requires |volumes| >= 6
  {
    GoDiv(SumInt(volumes[|volumes| - 6..|volumes| - 1]), 5)
  }

  /** Whether the last volume is above 150% of the average. */
  predicate VolumeSpike(volumes: seq<int>)
    requires |volumes| >= 6
  {
    volumes[|volumes| - 1] as real > AverageVolume(volumes) as real * 1.5
  }

  /** Whether the last close is within 2% of the one before (which is not
      zero). */
  predicate PriceStagnant(closes: seq<real>)
    requires |closes| >= 2 && closes[|closes| - 2] != 0.0
  {
    var previous, recent := closes[|closes| - 2], closes[|closes| - 1];
    Abs((recent - previous) / previous) < 0.02
  }

  /** What detectVPD returns for the chart. */
  function VPDOf(ticker: string, chart: Chart): Outcome {
    var volumes, closes := Volumes(chart.bars), Closes(chart.bars);
    if chart.failed || |volumes| < 6 then Detected(Quiet(ticker))
    else if closes[|closes| - 2] == 0.0 then DivisionByZero
    else
      var spike, stagnant := VolumeSpike(volumes), PriceStagnant(closes);
      Detected(VPDResult(ticker, spike, stagnant, spike && stagnant))
  }

  /** The detection, as the source performs it: collect volumes and closes
      bar by bar, then average the five volumes before the last. */
  method DetectVPD(ticker: string, chart: Chart) returns (outcome: Outcome)
    ensures outcome == VPDOf(ticker, chart)
  {
    var volumes: seq<int> := [];
    var closes: seq<real> := [];
    for i := 0 to |chart.bars|
      invariant volumes == Volumes(chart.bars[..i])
      invariant closes == Closes(chart.bars[..i])
    {
      volumes := volumes + [chart.bars[i].volume];
      closes := closes + [chart.bars[i].close];
    }
    assert chart.bars[..|chart.bars|] == chart.bars;
    if chart.failed || |volumes| < 6 {
      return Detected(Quiet(ticker));
    }
    var n := |volumes|;
    var avgVolume := 0;
    for i := n - 6 to n - 1
      invariant avgVolume == SumInt(volumes[n - 6..i])
    {
      assert volumes[n - 6..i + 1][..i - (n - 6)] == volumes[n - 6..i];
      avgVolume := avgVolume + volumes[i];
    }
    avgVolume := GoDiv(avgVolume, 5);
    var recentVolume, recentPrice, previousPrice := volumes[n - 1], closes[n - 1], closes[n - 2];
    var volumeSpike := recentVolume as real > avgVolume as real * 1.5;
    if previousPrice == 0.0 {
      return DivisionByZero;
    }
    var priceChange := (recentPrice - previousPrice) / previousPrice;
    var priceStagnant := Abs(priceChange) < 0.02;
    var alert := volumeSpike && priceStagnant;
    outcome := Detected(VPDResult(ticker, volumeSpike, priceStagnant, alert));
  }

  // ---------------------------------------------------------------------------
  // Properties

  /** A failed fetch, or fewer than six bars, gives the quiet result. */
  lemma QuietCases(ticker: string, chart: Chart)
    requires chart.failed || |chart.bars| < 6
    ensures VPDOf(ticker, chart) == Detected(VPDResult(ticker, false, false, false))
  {
  }

  /** Otherwise the call panics exactly when the previous close is zero, and
      an alert is raised exactly on a spike together with a stagnant price. */
  lemma DetectedCases(ticker: string, chart: Chart)
    requires !chart.failed && |chart.bars| >= 6
    ensures VPDOf(ticker, chart).DivisionByZero? <==> chart.bars[|chart.bars| - 2].close == 0.0
    ensures VPDOf(ticker, chart).Detected? ==>
      var r := VPDOf(ticker, chart).result;
      && r.ticker == ticker
      && (r.alert <==> r.volumeSpike && r.priceStagnant)
      && (r.volumeSpike <==> VolumeSpike(Volumes(chart.bars)))
      && (r.priceStagnant <==> PriceStagnant(Closes(chart.bars)))
  {
  }

  /** Only the last six bars are looked at. */
  lemma LastSixBars(ticker: string, earlier: seq<Bar>, bars: seq<Bar>, failed: bool)
    requires |bars| >= 6
    ensures VPDOf(ticker, Chart(earlier + bars, failed)) == VPDOf(ticker, Chart(bars, failed))
  {
    var all := earlier + bars;
    var n, m := |all|, |bars|;
    assert Volumes(all)[n - 6..n - 1] == Volumes(bars)[m - 6..m - 1];
    assert Volumes(all)[n - 1] == Volumes(bars)[m - 1];
    assert Closes(all)[n - 2] == Closes(bars)[m - 2];
    assert Closes(all)[n - 1] == Closes(bars)[m - 1];
  }

  /** A spike means twice the last volume exceeds three times the average. */
  lemma SpikeInIntegers(volumes: seq<int>)
    requires |volumes| >= 6
    ensures VolumeSpike(volumes) <==> 2 * volumes[|volumes| - 1] > 3 * AverageVolume(volumes)
  {
  }

  /** A stagnant price means the last move is under 2% of the previous
      close's size. */
  lemma StagnantAsMove(closes: seq<real>)
    requires |closes| >= 2 && closes[|closes| - 2] != 0.0
    ensures PriceStagnant(closes) <==>
      Abs(closes[|closes| - 1] - closes[|closes| - 2]) < 0.02 * Abs(closes[|closes| - 2])
  {
    RelativeMove(closes[|closes| - 1] - closes[|closes| - 2], closes[|closes| - 2]);
  }

  lemma RelativeMove(move: real, previous: real)
    requires previous != 0.0
    ensures Abs(move / previous) < 0.02 <==> Abs(move) < 0.02 * Abs(previous)
  {
    AbsBelow(move / previous, 0.02);
    AbsBelow(move, 0.02 * Abs(previous));
    if previous > 0.0 {
      DivBelow(move, previous, 0.02);
      DivAbove(move, previous, -0.02);
    } else {
      assert move / previous == (-move) / (-previous);
      DivBelow(-move, -previous, 0.02);
      DivAbove(-move, -previous, -0.02);
    }
  }

  lemma DivBelow(a: real, b: real, c: real)
    requires b > 0.0
    ensures a / b < c <==> a < c * b
  {
    assert (a / b) * b == a;
  }

  lemma DivAbove(a: real, b: real, c: real)
    requires b > 0.0
    ensures c < a / b <==> c * b < a
  {
    assert (a / b) * b == a;
  }

  lemma {:induction false} SumIntBounds(xs: seq<int>, lo: int, hi: int)
    requires forall i :: 0 <= i < |xs| ==> lo <= xs[i] <= hi
    ensures |xs| * lo <= SumInt(xs) <= |xs| * hi
    decreases |xs|
  {
    if xs != [] {
      SumIntBounds(xs[..|xs| - 1], lo, hi);
    }
  }

  /** When the five volumes before the last lie in [lo, hi] and are not
      negative, so does their integer average. */
  lemma AverageVolumeBounds(volumes: seq<int>, lo: int, hi: int)
    requires |volumes| >= 6 && 0 <= lo
    requires forall i :: |volumes| - 6 <= i < |volumes| - 1 ==> lo <= volumes[i] <= hi
    ensures lo <= AverageVolume(volumes) <= hi
  {
    var window := volumes[|volumes| - 6..|volumes| - 1];
    SumIntBounds(window, lo, hi);
    var s := SumInt(window);
    assert 5 * lo <= s <= 5 * hi;
    assert s >= 0;
    DivBetween(s, lo, hi);
  }

  lemma DivBetween(s: int, lo: int, hi: int)
    requires 5 * lo <= s <= 5 * hi && s >= 0
    ensures lo <= GoDiv(s, 5) <= hi
  {
  }
}
