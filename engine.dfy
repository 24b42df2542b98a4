/** The event-driven backtest of strategy_lab/backtest.go: the volatility
    trigger scan over the benchmark, the correlation ranking of the asset
    pool on each trigger date, and the fixed-horizon trade simulation. */
module Engine {
  import opened Common
  import opened Prices

  // Configuration constants (backtest.go:21-34).
  const BenchmarkTicker: string := "DX-Y.NYB"
  const VolatilityWindow: nat := 20
  const CorrelationWindow: nat := 30
  const HoldingPeriod: nat := 5
  const TriggerThreshold: real := 1.5
  const FrictionCost: real := 0.0015
  const NumAssetsToPick: nat := 3
  const AssetPool: seq<string> := ["600406.SS", "002028.SZ", "002270.SZ", "688676.SS", "159326.SZ"]

  datatype Trade = Trade(entryDate: string, exitDate: string, ticker: string,
                         entryPrice: real, exitPrice: real, ret: real)

  datatype CorrelationData = CorrelationData(ticker: string, value: real)

  lemma AssetPoolDistinct()
    ensures forall a, b :: 0 <= a < b < |AssetPool| ==> AssetPool[a] != AssetPool[b]
  {
    assert AssetPool[0][0] == '6' && AssetPool[1][0] == '0' && AssetPool[2][0] == '0';
    assert AssetPool[3][0] == '6' && AssetPool[4][0] == '1';
    assert AssetPool[1][4] == '2' && AssetPool[2][4] == '7';
    assert AssetPool[0][2] == '0' && AssetPool[3][2] == '8';
  }

  // ---------------------------------------------------------------------------
  // Trigger (backtest.go:204-213)

  /** Return index `i` of the benchmark triggers: it is past the first
      volatility window and its return exceeds 1.5 times the standard
      deviation of the 20 returns before it. */
  predicate IsTrigger(bench: seq<DailyData>, i: int, stats: Statistics) {
    var rets := DailyReturns(bench);
    VolatilityWindow <= i < |rets| &&
    rets[i] > TriggerThreshold * stats.stdDev(rets[i - VolatilityWindow..i])
  }

  /** The test is one-sided: only a rise can trigger, and the trigger is
      dated by the price that ends the rise, which exists. */
  lemma TriggerIsRise(bench: seq<DailyData>, i: int, stats: Statistics)
    requires stats.Valid() && IsTrigger(bench, i, stats)
    ensures DailyReturns(bench)[i] > 0.0
    ensures i + 1 < |bench|
  {
    var rets := DailyReturns(bench);
    assert stats.stdDev(rets[i - VolatilityWindow..i]) >= 0.0;
  }

  // ---------------------------------------------------------------------------
  // Correlation ranking (backtest.go:264-287)

  /** The benchmark side of a ranking: the window's first and last dates and
      the benchmark's returns over it. */
  datatype Window = Window(startDate: string, endDate: string, benchReturns: seq<real>)

  /** None when the trigger date is missing or fewer than 30 prices precede it. */
  function BenchmarkWindow(bench: seq<DailyData>, date: string): Option<Window> {
    var idx := IndexOfDate(bench, date);
    if idx < CorrelationWindow then None
    else
      var start := bench[idx - CorrelationWindow].date;
      Some(Window(start, date, DailyReturns(PriceSlice(bench, start, date))))
  }

  lemma BenchmarkWindowAt(bench: seq<DailyData>, date: string, idx: int)
    requires idx == IndexOfDate(bench, date) && idx >= CorrelationWindow
    ensures var start := bench[idx - CorrelationWindow].date;
      BenchmarkWindow(bench, date) == Some(Window(start, date, DailyReturns(PriceSlice(bench, start, date))))
  {
  }

  function AssetSlice(m: map<string, seq<DailyData>>, t: string, w: Window): seq<DailyData> {
    PriceSlice(Lookup(m, t), w.startDate, w.endDate)
  }

  /** A pool ticker is ranked when its slice has at least 30 prices and as
      many returns as the benchmark's window. Zero variance is not tested. */
  predicate Kept(m: map<string, seq<DailyData>>, t: string, w: Window) {
    |AssetSlice(m, t, w)| >= CorrelationWindow &&
    |DailyReturns(AssetSlice(m, t, w))| == |w.benchReturns|
  }

  function Score(m: map<string, seq<DailyData>>, t: string, w: Window, stats: Statistics): real {
    stats.correlation(DailyReturns(AssetSlice(m, t, w)), w.benchReturns)
  }

  /** The scores of the kept tickers among the first `n` of the pool. */
  function ScoresOver(m: map<string, seq<DailyData>>, w: Window, stats: Statistics, n: nat): seq<CorrelationData>
    requires n <= |AssetPool|
  {
    if n == 0 then []
    else
      var t := AssetPool[n - 1];
      ScoresOver(m, w, stats, n - 1) + (if Kept(m, t, w) then [CorrelationData(t, Score(m, t, w, stats))] else [])
  }

  function Correlations(m: map<string, seq<DailyData>>, bench: seq<DailyData>, date: string, stats: Statistics): seq<CorrelationData> {
    match BenchmarkWindow(bench, date)
    case None => []
    case Some(w) => ScoresOver(m, w, stats, |AssetPool|)
  }

  method CalculateCorrelations(date: string, m: map<string, seq<DailyData>>, bench: seq<DailyData>, stats: Statistics)
    returns (corrs: seq<CorrelationData>)
    ensures IndexOfDate(bench, date) < CorrelationWindow ==> corrs == []
    ensures corrs == Correlations(m, bench, date, stats)
  {
    corrs := [];
    var triggerIdx := FindDateIndex(bench, date);
    if triggerIdx < CorrelationWindow {
      return;
    }
    var corrStartDate := bench[triggerIdx - CorrelationWindow].date;
    var benchmarkSlice := PriceSlice(bench, corrStartDate, date);
    var benchmarkReturns := GetDailyReturns(benchmarkSlice);
    ghost var w := Window(corrStartDate, date, benchmarkReturns);
    BenchmarkWindowAt(bench, date, triggerIdx);
    for k := 0 to |AssetPool|
      invariant corrs == ScoresOver(m, w, stats, k)
    {
      var ticker := AssetPool[k];
      var assetSlice := PriceSlice(Lookup(m, ticker), corrStartDate, date);
      assert assetSlice == AssetSlice(m, ticker, w);
      if |assetSlice| >= CorrelationWindow {
        var assetReturns := GetDailyReturns(assetSlice);
        if |assetReturns| == |benchmarkReturns| {
          var corr := stats.correlation(assetReturns, benchmarkReturns);
          assert Kept(m, ticker, w) && corr == Score(m, ticker, w, stats);
          corrs := corrs + [CorrelationData(ticker, corr)];
        } else {
          assert !Kept(m, ticker, w);
        }
      } else {
        assert !Kept(m, ticker, w);
      }
    }
  }

  /** The pool positions of the kept tickers among the first `n`. */
  ghost function KeptPositions(m: map<string, seq<DailyData>>, w: Window, n: nat): seq<nat>
    requires n <= |AssetPool|
  {
    if n == 0 then []
    else KeptPositions(m, w, n - 1) + (if Kept(m, AssetPool[n - 1], w) then [n - 1] else [])
  }

  /** `r` holds, at the increasing pool positions `pos` (all below `n`),
      the kept pool tickers with their scores, and every kept ticker below
      `n` has its position in `pos`. */
  predicate PoolScores(m: map<string, seq<DailyData>>, w: Window, stats: Statistics, n: nat,
                       r: seq<CorrelationData>, pos: seq<nat>)
    requires n <= |AssetPool|
  {
    && |r| == |pos|
    && (forall j :: 0 <= j < |pos| ==>
          pos[j] < n && Kept(m, AssetPool[pos[j]], w) &&
          r[j] == CorrelationData(AssetPool[pos[j]], Score(m, AssetPool[pos[j]], w, stats)))
    && (forall j, l :: 0 <= j < l < |pos| ==> pos[j] < pos[l])
    && (forall p :: 0 <= p < n && Kept(m, AssetPool[p], w) ==> p in pos)
  }

  lemma PoolScoresAppend(m: map<string, seq<DailyData>>, w: Window, stats: Statistics, n: nat,
                         r: seq<CorrelationData>, pos: seq<nat>)
    requires n < |AssetPool| && PoolScores(m, w, stats, n, r, pos) && Kept(m, AssetPool[n], w)
    ensures var t := AssetPool[n];
      PoolScores(m, w, stats, n + 1, r + [CorrelationData(t, Score(m, t, w, stats))], pos + [n])
  {
    var t := AssetPool[n];
    var r', pos' := r + [CorrelationData(t, Score(m, t, w, stats))], pos + [n];
    forall j | 0 <= j < |pos'|
      ensures pos'[j] < n + 1 && Kept(m, AssetPool[pos'[j]], w) &&
              r'[j] == CorrelationData(AssetPool[pos'[j]], Score(m, AssetPool[pos'[j]], w, stats))
    {
      if j < |pos| {
        assert pos'[j] == pos[j] && r'[j] == r[j];
      } else {
        assert pos'[j] == n && r'[j] == CorrelationData(t, Score(m, t, w, stats));
      }
    }
    forall j, l | 0 <= j < l < |pos'|
      ensures pos'[j] < pos'[l]
    {
      if l < |pos| {
        assert pos'[j] == pos[j] && pos'[l] == pos[l];
      } else {
        assert pos'[j] == pos[j] && pos'[l] == n;
      }
    }
    forall p | 0 <= p < n + 1 && Kept(m, AssetPool[p], w)
      ensures p in pos'
    {
      if p < n {
        assert p in pos;
      } else {
        assert pos'[|pos|] == p;
      }
    }
  }

  lemma PoolScoresSkip(m: map<string, seq<DailyData>>, w: Window, stats: Statistics, n: nat,
                       r: seq<CorrelationData>, pos: seq<nat>)
    requires n < |AssetPool| && PoolScores(m, w, stats, n, r, pos) && !Kept(m, AssetPool[n], w)
    ensures PoolScores(m, w, stats, n + 1, r, pos)
  {
    forall p | 0 <= p < n + 1 && Kept(m, AssetPool[p], w)
      ensures p in pos
    {
      assert p < n;
    }
  }

  /** The ranked list holds, in pool order, exactly the kept pool tickers,
      each with its own score. */
  lemma {:induction false} ScoresInPoolOrder(m: map<string, seq<DailyData>>, w: Window, stats: Statistics, n: nat)
    requires n <= |AssetPool|
    ensures PoolScores(m, w, stats, n, ScoresOver(m, w, stats, n), KeptPositions(m, w, n))
  {
    if n > 0 {
      var k := n - 1;
      ScoresInPoolOrder(m, w, stats, k);
      var r, pos, t := ScoresOver(m, w, stats, k), KeptPositions(m, w, k), AssetPool[k];
      if Kept(m, t, w) {
        PoolScoresAppend(m, w, stats, k, r, pos);
        assert ScoresOver(m, w, stats, n) == r + [CorrelationData(t, Score(m, t, w, stats))];
        assert KeptPositions(m, w, n) == pos + [k];
      } else {
        PoolScoresSkip(m, w, stats, k, r, pos);
        assert ScoresOver(m, w, stats, n) == r;
        assert KeptPositions(m, w, n) == pos;
      }
    }
  }

  /** What a ranking on a trigger date contains: nothing when fewer than 30
      benchmark prices precede the date; otherwise distinct pool tickers,
      each with at least 30 prices in the window, exactly as many returns as
      the benchmark, and its correlation as value. */
  lemma CorrelationsSpec(m: map<string, seq<DailyData>>, bench: seq<DailyData>, date: string, stats: Statistics)
    ensures IndexOfDate(bench, date) < CorrelationWindow ==> Correlations(m, bench, date, stats) == []
    ensures var r := Correlations(m, bench, date, stats);
      && (forall j, l :: 0 <= j < l < |r| ==> r[j].ticker != r[l].ticker)
      && (forall j :: 0 <= j < |r| ==>
            var w := BenchmarkWindow(bench, date).value;
            BenchmarkWindow(bench, date).Some? && r[j].ticker in AssetPool &&
            |AssetSlice(m, r[j].ticker, w)| >= CorrelationWindow &&
            |DailyReturns(AssetSlice(m, r[j].ticker, w))| == |w.benchReturns| &&
            r[j].value == Score(m, r[j].ticker, w, stats))
  {
    if BenchmarkWindow(bench, date).Some? {
      var w := BenchmarkWindow(bench, date).value;
      ScoresInPoolOrder(m, w, stats, |AssetPool|);
      AssetPoolDistinct();
    }
  }

  /** With distinct benchmark dates, the window of the date at price `e`
      (from 30 prices on) is the 31 prices ending there, with 30 returns. */
  lemma WindowOfDistinctDates(bench: seq<DailyData>, e: nat)
    requires DistinctDates(bench) && CorrelationWindow <= e < |bench|
    ensures BenchmarkWindow(bench, bench[e].date) ==
              Some(Window(bench[e - CorrelationWindow].date, bench[e].date,
                          DailyReturns(bench[e - CorrelationWindow..e + 1])))
    ensures |DailyReturns(bench[e - CorrelationWindow..e + 1])| == CorrelationWindow
  {
    IndexOfOwnDate(bench, e);
    BenchmarkWindowAt(bench, bench[e].date, e);
    PriceSliceOfDistinctDates(bench, e - CorrelationWindow, e);
  }

  /** A kept ticker of a 30-return window has exactly 31 prices in it. */
  lemma KeptSliceLength(m: map<string, seq<DailyData>>, t: string, w: Window)
    requires |w.benchReturns| == CorrelationWindow && Kept(m, t, w)
    ensures |AssetSlice(m, t, w)| == CorrelationWindow + 1
  {
  }

  /** A trigger whose date has fewer than 30 prices before it ranks nothing. */
  lemma TriggerTooEarly(m: map<string, seq<DailyData>>, bench: seq<DailyData>, i: nat, stats: Statistics)
    requires DistinctDates(bench) && i + 1 < |bench| && i + 1 < CorrelationWindow
    ensures Correlations(m, bench, bench[i + 1].date, stats) == []
  {
    IndexOfOwnDate(bench, i + 1);
  }

  /** Every ticker ranked on a 30-return window has 31 prices in it. */
  lemma RankedSliceLengths(m: map<string, seq<DailyData>>, bench: seq<DailyData>, date: string, stats: Statistics)
    requires BenchmarkWindow(bench, date).Some? && |BenchmarkWindow(bench, date).value.benchReturns| == CorrelationWindow
    ensures forall c :: c in Correlations(m, bench, date, stats) ==>
              |AssetSlice(m, c.ticker, BenchmarkWindow(bench, date).value)| == CorrelationWindow + 1
  {
    var w := BenchmarkWindow(bench, date).value;
    var r := Correlations(m, bench, date, stats);
    CorrelationsSpec(m, bench, date, stats);
    forall c | c in r
      ensures |AssetSlice(m, c.ticker, w)| == CorrelationWindow + 1
    {
      var j :| 0 <= j < |r| && r[j] == c;
      KeptSliceLength(m, c.ticker, w);
    }
  }

  /** With distinct benchmark dates, a trigger at return index `i` is ranked
      over the 31 prices ending at price `i + 1` (30 returns), so every
      ranked asset slice also has exactly 31 prices; a trigger with
      `i + 1 < 30` ranks nothing. */
  lemma TriggerWindow(m: map<string, seq<DailyData>>, bench: seq<DailyData>, i: nat, stats: Statistics)
    requires DistinctDates(bench) && i + 1 < |bench|
    ensures i + 1 < CorrelationWindow ==> Correlations(m, bench, bench[i + 1].date, stats) == []
    ensures var e := i + 1;
      e >= CorrelationWindow ==>
      && BenchmarkWindow(bench, bench[e].date) ==
           Some(Window(bench[e - CorrelationWindow].date, bench[e].date,
                       DailyReturns(bench[e - CorrelationWindow..e + 1])))
      && |BenchmarkWindow(bench, bench[e].date).value.benchReturns| == CorrelationWindow
      && forall c :: c in Correlations(m, bench, bench[e].date, stats) ==>
           |AssetSlice(m, c.ticker, BenchmarkWindow(bench, bench[e].date).value)| == CorrelationWindow + 1
  {
    var e := i + 1;
    if e >= CorrelationWindow {
      WindowOfDistinctDates(bench, e);
      RankedSliceLengths(m, bench, bench[e].date, stats);
    } else {
      TriggerTooEarly(m, bench, i, stats);
    }
  }

  // ---------------------------------------------------------------------------
  // Ranking and picks (backtest.go:220-226)

  /** The comparison passed to `sort.Slice` in `runBacktest`. */
  const ByValue := (x: CorrelationData, y: CorrelationData) => x.value < y.value

  lemma ByValueIsStrictWeakOrder()
    ensures StrictWeakOrder(ByValue)
  {
  }

  /** `sort.Slice` on the correlations, ascending by value. */
  method SortByValue(corrs: seq<CorrelationData>) returns (ranked: seq<CorrelationData>)
    ensures IsSortingOf(ranked, corrs, ByValue)
  {
    ByValueIsStrictWeakOrder();
    ranked := SortedCopy(corrs, ByValue);
  }

  /** The first `numAssetsToPick` entries of the ranked list. */
  function Picks(ranked: seq<CorrelationData>): seq<CorrelationData> {
    ranked[..Min(NumAssetsToPick, |ranked|)]
  }

  /** After the ascending sort the picks are min(3, n) entries of the
      ranking, and no entry left out has a lower value than any pick. */
  lemma PicksAreLowest(ranked: seq<CorrelationData>, corrs: seq<CorrelationData>)
    requires IsSortingOf(ranked, corrs, ByValue)
    ensures |Picks(ranked)| == Min(NumAssetsToPick, |corrs|)
    ensures multiset(Picks(ranked)) <= multiset(corrs)
    ensures forall p, x :: p in Picks(ranked) && x in multiset(corrs) - multiset(Picks(ranked)) ==> p.value <= x.value
  {
    var k := Min(NumAssetsToPick, |ranked|);
    assert |corrs| == |ranked| by {
      assert |multiset(corrs)| == |multiset(ranked)|;
    }
    assert ranked == ranked[..k] + ranked[k..];
    assert multiset(ranked) == multiset(ranked[..k]) + multiset(ranked[k..]);
    forall p, x | p in Picks(ranked) && x in multiset(corrs) - multiset(Picks(ranked))
      ensures p.value <= x.value
    {
      assert x in multiset(ranked[k..]);
      var j :| 0 <= j < k && ranked[j] == p;
      var l :| 0 <= l < |ranked| - k && ranked[k..][l] == x;
      assert ranked[k + l] == x;
    }
  }

  // ---------------------------------------------------------------------------
  // Trade simulation (backtest.go:225-252)

  function TradeReturn(entryPrice: real, exitPrice: real): real {
    Quotient(exitPrice, entryPrice) - 1.0 - FrictionCost
  }

  /** The trade on `ticker` entered at the trigger date: none when the date
      is missing from its series or the exit falls past its end. */
  function TradeFor(m: map<string, seq<DailyData>>, ticker: string, date: string): Option<Trade> {
    var asset := Lookup(m, ticker);
    var entryIdx := IndexOfDate(asset, date);
    if entryIdx == -1 || entryIdx + HoldingPeriod >= |asset| then None
    else
      var exitIdx := entryIdx + HoldingPeriod;
      Some(Trade(date, asset[exitIdx].date, ticker, asset[entryIdx].close, asset[exitIdx].close,
                 TradeReturn(asset[entryIdx].close, asset[exitIdx].close)))
  }

  /** A trade entered at position `entry` of the ticker's series: the first
      position holding the date, an exit five positions later inside the
      series, and the return net of the friction cost. */
  predicate TradeAt(m: map<string, seq<DailyData>>, t: Trade, date: string, entry: int) {
    var asset := Lookup(m, t.ticker);
    && IsFirstIndex(asset, date, entry) && 0 <= entry && entry + HoldingPeriod < |asset|
    && t.entryDate == date && t.exitDate == asset[entry + HoldingPeriod].date
    && t.entryPrice == asset[entry].close && t.exitPrice == asset[entry + HoldingPeriod].close
    && (t.entryPrice != 0.0 ==> t.ret == t.exitPrice / t.entryPrice - 1.0 - FrictionCost)
  }

  lemma TradeForSpec(m: map<string, seq<DailyData>>, ticker: string, date: string, entry: int)
    requires IsFirstIndex(Lookup(m, ticker), date, entry)
    ensures TradeFor(m, ticker, date).Some? <==> entry != -1 && entry + HoldingPeriod < |Lookup(m, ticker)|
    ensures TradeFor(m, ticker, date).Some? ==>
              TradeFor(m, ticker, date).value.ticker == ticker &&
              TradeAt(m, TradeFor(m, ticker, date).value, date, entry)
  {
    IndexOfDateIsFirst(Lookup(m, ticker), date);
    FirstIndexUnique(Lookup(m, ticker), date, entry, IndexOfDate(Lookup(m, ticker), date));
  }

  // ---------------------------------------------------------------------------
  // The run (backtest.go:195-257)

  /** A trade together with the return index of its trigger and its rank
      among the picks. */
  datatype EmittedTrade = EmittedTrade(trigger: nat, rank: nat, trade: Trade)

  function TradesOf(es: seq<EmittedTrade>): seq<Trade> {
    seq(|es|, k requires 0 <= k < |es| => es[k].trade)
  }

  lemma TradesOfAppend(es: seq<EmittedTrade>, more: seq<EmittedTrade>)
    ensures TradesOf(es + more) == TradesOf(es) + TradesOf(more)
  {
  }

  /** The trades of the first `k` picks of the ranking at one trigger. */
  function BatchEmitted(m: map<string, seq<DailyData>>, trigger: nat, date: string,
                        ranked: seq<CorrelationData>, k: nat): seq<EmittedTrade>
    requires k <= |ranked|
  {
    if k == 0 then []
    else
      BatchEmitted(m, trigger, date, ranked, k - 1) +
      match TradeFor(m, ranked[k - 1].ticker, date)
      case None => []
      case Some(t) => [EmittedTrade(trigger, k - 1, t)]
  }

  /** The trades made on return index `i` from its sorted ranking: the
      first picks' trades if the index triggers, nothing otherwise. */
  function DayBatch(m: map<string, seq<DailyData>>, stats: Statistics, i: nat,
                    ranked: seq<CorrelationData>): seq<EmittedTrade>
  {
    var bench := Lookup(m, BenchmarkTicker);
    if IsTrigger(bench, i, stats)
    then BatchEmitted(m, i, bench[i + 1].date, ranked, Min(NumAssetsToPick, |ranked|))
    else []
  }

  /** The trades of a run in which `rankings[i]` is the sorted ranking made
      at return index `i` (entries at indices that do not trigger are unused). */
  function Emitted(m: map<string, seq<DailyData>>, stats: Statistics,
                   rankings: seq<seq<CorrelationData>>): seq<EmittedTrade>
    decreases |rankings|
  {
    if |rankings| <= VolatilityWindow then []
    else
      var init := rankings[..|rankings| - 1];
      Emitted(m, stats, init) + DayBatch(m, stats, |init|, rankings[|rankings| - 1])
  }

  /** The state of a run: every ranking made at a trigger is a sort of
      that trigger date's correlations. */
  ghost predicate RankingsAreSorts(m: map<string, seq<DailyData>>, stats: Statistics,
                                   rankings: seq<seq<CorrelationData>>) {
    var bench := Lookup(m, BenchmarkTicker);
    forall i :: 0 <= i < |rankings| && IsTrigger(bench, i, stats) ==>
      IsSortingOf(rankings[i], Correlations(m, bench, bench[i + 1].date, stats), ByValue)
  }

  /** One pick of the execution step: the trade on `ticker` entered at the
      trigger date, if its series holds that date and runs five more days. */
  method PickTrade(m: map<string, seq<DailyData>>, ticker: string, triggerDate: string)
    returns (t: Option<Trade>)
    ensures t == TradeFor(m, ticker, triggerDate)
  {
    var assetData := Lookup(m, ticker);
    var entryIdx := FindDateIndex(assetData, triggerDate);
    if entryIdx == -1 {
      return None;
    }
    var exitIdx := entryIdx + HoldingPeriod;
    if exitIdx < |assetData| {
      var entryPrice := assetData[entryIdx].close;
      var exitPrice := assetData[exitIdx].close;
      var tradeReturn := Quotient(exitPrice, entryPrice) - 1.0 - FrictionCost;
      return Some(Trade(triggerDate, assetData[exitIdx].date, ticker, entryPrice, exitPrice, tradeReturn));
    }
    return None;
  }

  /** The execution step for one trigger: a trade for each of the first
      `numAssetsToPick` ranked tickers whose series holds the trigger date
      and runs at least five more days. */
  method TradePicks(m: map<string, seq<DailyData>>, trigger: nat, triggerDate: string,
                    ranked: seq<CorrelationData>)
    returns (trades: seq<Trade>, ghost batch: seq<EmittedTrade>)
    ensures batch == BatchEmitted(m, trigger, triggerDate, ranked, Min(NumAssetsToPick, |ranked|))
    ensures trades == TradesOf(batch)
  {
    trades, batch := [], [];
    var k := 0;
    while k < NumAssetsToPick && k < |ranked|
      invariant 0 <= k <= Min(NumAssetsToPick, |ranked|)
      invariant batch == BatchEmitted(m, trigger, triggerDate, ranked, k)
      invariant trades == TradesOf(batch)
    {
      var picked := PickTrade(m, ranked[k].ticker, triggerDate);
      if picked.Some? {
        TradesOfAppend(batch, [EmittedTrade(trigger, k, picked.value)]);
        trades := trades + [picked.value];
        batch := batch + [EmittedTrade(trigger, k, picked.value)];
      }
      k := k + 1;
    }
  }

  /** Extending the rankings by the one made at return index `|rankings|`
      appends that day's batch to the run's trades. */
  lemma EmittedStep(m: map<string, seq<DailyData>>, stats: Statistics,
                    rankings: seq<seq<CorrelationData>>, ranked: seq<CorrelationData>)
    requires |rankings| >= VolatilityWindow
    ensures Emitted(m, stats, rankings + [ranked]) == Emitted(m, stats, rankings) + DayBatch(m, stats, |rankings|, ranked)
  {
    var next := rankings + [ranked];
    assert next[..|next| - 1] == rankings;
  }

  /** Appending a ranking that is a sort of its day's correlations, if the
      day triggers, keeps every ranking a sort. */
  lemma RankingsAreSortsStep(m: map<string, seq<DailyData>>, stats: Statistics,
                             rankings: seq<seq<CorrelationData>>, ranked: seq<CorrelationData>)
    requires RankingsAreSorts(m, stats, rankings)
    requires var i, bench := |rankings|, Lookup(m, BenchmarkTicker);
      IsTrigger(bench, i, stats) ==> IsSortingOf(ranked, Correlations(m, bench, bench[i + 1].date, stats), ByValue)
    ensures RankingsAreSorts(m, stats, rankings + [ranked])
  {
    var next := rankings + [ranked];
    var bench := Lookup(m, BenchmarkTicker);
    forall i | 0 <= i < |next| && IsTrigger(bench, i, stats)
      ensures IsSortingOf(next[i], Correlations(m, bench, bench[i + 1].date, stats), ByValue)
    {
      if i < |rankings| {
        assert next[i] == rankings[i];
      } else {
        assert i == |rankings| && next[i] == ranked;
      }
    }
  }

  /** One day of the scan at return index `i`: when it triggers, the
      pool ranked by ascending correlation and the trades of its picks;
      otherwise nothing. */
  method ScanDay(m: map<string, seq<DailyData>>, stats: Statistics,
                 benchmarkData: seq<DailyData>, benchmarkReturns: seq<real>, i: nat)
    returns (ranked: seq<CorrelationData>, picked: seq<Trade>, ghost batch: seq<EmittedTrade>)
    requires benchmarkData == Lookup(m, BenchmarkTicker) && benchmarkReturns == DailyReturns(benchmarkData)
    requires VolatilityWindow <= i < |benchmarkReturns|
    ensures IsTrigger(benchmarkData, i, stats) ==>
              IsSortingOf(ranked, Correlations(m, benchmarkData, benchmarkData[i + 1].date, stats), ByValue)
    ensures !IsTrigger(benchmarkData, i, stats) ==> ranked == []
    ensures batch == DayBatch(m, stats, i, ranked)
    ensures picked == TradesOf(batch)
  {
    var pastReturns := benchmarkReturns[i - VolatilityWindow..i];
    var volatility := stats.stdDev(pastReturns);
    ranked, picked, batch := [], [], [];
    if benchmarkReturns[i] > TriggerThreshold * volatility {
      var triggerDate := benchmarkData[i + 1].date;
      var correlations := CalculateCorrelations(triggerDate, m, benchmarkData, stats);
      ranked := SortByValue(correlations);
      picked, batch := TradePicks(m, i, triggerDate, ranked);
    }
  }

  method RunBacktest(m: map<string, seq<DailyData>>, stats: Statistics)
    returns (trades: seq<Trade>, ghost rankings: seq<seq<CorrelationData>>)
    ensures |rankings| == |DailyReturns(Lookup(m, BenchmarkTicker))|
    ensures RankingsAreSorts(m, stats, rankings)
    ensures trades == TradesOf(Emitted(m, stats, rankings))
  {
    trades := [];
    var benchmarkData := Lookup(m, BenchmarkTicker);
    var benchmarkReturns := GetDailyReturns(benchmarkData);
    rankings := seq(Min(VolatilityWindow, |benchmarkReturns|), _ => []);
    ghost var emitted: seq<EmittedTrade> := [];
    var i := VolatilityWindow;
    while i < |benchmarkReturns|
      invariant VolatilityWindow <= i
      invariant |rankings| == Min(i, |benchmarkReturns|)
      invariant RankingsAreSorts(m, stats, rankings)
      invariant emitted == Emitted(m, stats, rankings)
      invariant trades == TradesOf(emitted)
    {
      var ranked, picked, batch := ScanDay(m, stats, benchmarkData, benchmarkReturns, i);
      TradesOfAppend(emitted, batch);
      trades := trades + picked;
      EmittedStep(m, stats, rankings, ranked);
      RankingsAreSortsStep(m, stats, rankings, ranked);
      rankings := rankings + [ranked];
      emitted := emitted + batch;
      i := i + 1;
    }
  }

  // ---------------------------------------------------------------------------
  // Properties of a run

  /** The shape of the trades `es` of the first `k` picks of `ranked` at
      one trigger: each is tagged with the trigger and the rank of its pick,
      is that pick's trade, and the ranks ascend. */
  predicate IsBatch(m: map<string, seq<DailyData>>, trigger: nat, date: string,
                    ranked: seq<CorrelationData>, k: nat, es: seq<EmittedTrade>)
    requires k <= |ranked|
  {
    && (forall p :: 0 <= p < |es| ==>
          es[p].trigger == trigger && es[p].rank < k &&
          TradeFor(m, ranked[es[p].rank].ticker, date) == Some(es[p].trade) &&
          es[p].trade.ticker == ranked[es[p].rank].ticker)
    && (forall p, q :: 0 <= p < q < |es| ==> es[p].rank < es[q].rank)
  }

  lemma {:induction false} BatchSpec(m: map<string, seq<DailyData>>, trigger: nat, date: string,
                                     ranked: seq<CorrelationData>, k: nat)
    requires k <= |ranked|
    ensures IsBatch(m, trigger, date, ranked, k, BatchEmitted(m, trigger, date, ranked, k))
  {
    if k > 0 {
      BatchSpec(m, trigger, date, ranked, k - 1);
      var prev := BatchEmitted(m, trigger, date, ranked, k - 1);
      match TradeFor(m, ranked[k - 1].ticker, date)
      case None =>
        assert BatchEmitted(m, trigger, date, ranked, k) == prev;
      case Some(t) =>
        assert BatchEmitted(m, trigger, date, ranked, k) == prev + [EmittedTrade(trigger, k - 1, t)];
        IsBatchAppend(m, trigger, date, ranked, k - 1, prev, t);
    }
  }

  lemma IsBatchAppend(m: map<string, seq<DailyData>>, trigger: nat, date: string,
                      ranked: seq<CorrelationData>, k: nat, prev: seq<EmittedTrade>, t: Trade)
    requires k < |ranked| && IsBatch(m, trigger, date, ranked, k, prev)
    requires TradeFor(m, ranked[k].ticker, date) == Some(t)
    ensures IsBatch(m, trigger, date, ranked, k + 1, prev + [EmittedTrade(trigger, k, t)])
  {
    var es := prev + [EmittedTrade(trigger, k, t)];
    assert es[|prev|] == EmittedTrade(trigger, k, t);
    assert forall p :: 0 <= p < |prev| ==> es[p] == prev[p];
  }

  /** The trade `e` comes from a trigger of the run and one of that
      trigger's picks. */
  predicate FromPick(m: map<string, seq<DailyData>>, stats: Statistics,
                     rankings: seq<seq<CorrelationData>>, e: EmittedTrade)
  {
    var bench := Lookup(m, BenchmarkTicker);
    && e.trigger < |rankings| && IsTrigger(bench, e.trigger, stats)
    && e.rank < Min(NumAssetsToPick, |rankings[e.trigger]|)
    && e.trade.ticker == rankings[e.trigger][e.rank].ticker
    && TradeFor(m, e.trade.ticker, bench[e.trigger + 1].date) == Some(e.trade)
  }

  /** Ascending trigger index, then pick rank. */
  predicate InRunOrder(es: seq<EmittedTrade>) {
    forall p, q :: 0 <= p < q < |es| ==>
      es[p].trigger < es[q].trigger || (es[p].trigger == es[q].trigger && es[p].rank < es[q].rank)
  }

  predicate IsRun(m: map<string, seq<DailyData>>, stats: Statistics,
                  rankings: seq<seq<CorrelationData>>, es: seq<EmittedTrade>)
  {
    (forall p :: 0 <= p < |es| ==> FromPick(m, stats, rankings, es[p])) && InRunOrder(es)
  }

  /** A trade from a pick of a prefix of the rankings is one of the whole. */
  lemma FromPickWiden(m: map<string, seq<DailyData>>, stats: Statistics,
                      init: seq<seq<CorrelationData>>, rankings: seq<seq<CorrelationData>>, e: EmittedTrade)
    requires |init| <= |rankings| && init == rankings[..|init|]
    requires FromPick(m, stats, init, e)
    ensures FromPick(m, stats, rankings, e)
  {
    assert rankings[e.trigger] == init[e.trigger];
  }

  /** The run's trades followed by one more trigger's batch. */
  lemma IsRunAppend(m: map<string, seq<DailyData>>, stats: Statistics,
                    rankings: seq<seq<CorrelationData>>, prev: seq<EmittedTrade>, day: seq<EmittedTrade>, i: nat)
    requires IsRun(m, stats, rankings, prev) && forall p :: 0 <= p < |prev| ==> prev[p].trigger < i
    requires forall p :: 0 <= p < |day| ==> FromPick(m, stats, rankings, day[p]) && day[p].trigger == i
    requires forall p, q :: 0 <= p < q < |day| ==> day[p].rank < day[q].rank
    ensures IsRun(m, stats, rankings, prev + day)
  {
    var es := prev + day;
    forall p | 0 <= p < |es|
      ensures FromPick(m, stats, rankings, es[p])
    {
      if p < |prev| {
        assert es[p] == prev[p];
      } else {
        assert es[p] == day[p - |prev|];
      }
    }
    forall p, q | 0 <= p < q < |es|
      ensures es[p].trigger < es[q].trigger || (es[p].trigger == es[q].trigger && es[p].rank < es[q].rank)
    {
      if q < |prev| {
        assert es[p] == prev[p] && es[q] == prev[q];
      } else if p < |prev| {
        assert es[p] == prev[p] && es[q] == day[q - |prev|];
      } else {
        assert es[p] == day[p - |prev|] && es[q] == day[q - |prev|];
      }
    }
  }

  /** The batch of trigger `i`, read as trades of the run. */
  lemma DayBatchFromPicks(m: map<string, seq<DailyData>>, stats: Statistics,
                          rankings: seq<seq<CorrelationData>>, i: nat)
    requires i < |rankings|
    ensures var day := DayBatch(m, stats, i, rankings[i]);
      && (forall p :: 0 <= p < |day| ==> FromPick(m, stats, rankings, day[p]) && day[p].trigger == i)
      && (forall p, q :: 0 <= p < q < |day| ==> day[p].rank < day[q].rank)
  {
    var bench := Lookup(m, BenchmarkTicker);
    if IsTrigger(bench, i, stats) {
      var ranked := rankings[i];
      BatchSpec(m, i, bench[i + 1].date, ranked, Min(NumAssetsToPick, |ranked|));
    }
  }

  /** Every trade of a run comes from a trigger and one of that trigger's
      picks, and trades are in ascending trigger index, then pick rank. */
  lemma {:induction false} EmittedSpec(m: map<string, seq<DailyData>>, stats: Statistics,
                                       rankings: seq<seq<CorrelationData>>)
    ensures IsRun(m, stats, rankings, Emitted(m, stats, rankings))
    decreases |rankings|
  {
    if |rankings| > VolatilityWindow {
      var i := |rankings| - 1;
      var init := rankings[..i];
      EmittedSpec(m, stats, init);
      var prev := Emitted(m, stats, init);
      forall p | 0 <= p < |prev|
        ensures FromPick(m, stats, rankings, prev[p]) && prev[p].trigger < i
      {
        FromPickWiden(m, stats, init, rankings, prev[p]);
      }
      DayBatchFromPicks(m, stats, rankings, i);
      IsRunAppend(m, stats, rankings, prev, DayBatch(m, stats, i, rankings[i]), i);
    }
  }

  /** Every pick among the first `k` that has data is traded in the batch. */
  lemma {:induction false} BatchComplete(m: map<string, seq<DailyData>>, trigger: nat, date: string,
                                         ranked: seq<CorrelationData>, k: nat, j: nat, t: Trade)
    requires j < k <= |ranked| && TradeFor(m, ranked[j].ticker, date) == Some(t)
    ensures EmittedTrade(trigger, j, t) in BatchEmitted(m, trigger, date, ranked, k)
    decreases k
  {
    var prev := BatchEmitted(m, trigger, date, ranked, k - 1);
    var last := match TradeFor(m, ranked[k - 1].ticker, date)
      case None => []
      case Some(u) => [EmittedTrade(trigger, k - 1, u)];
    assert BatchEmitted(m, trigger, date, ranked, k) == prev + last;
    InAppend(prev, last, EmittedTrade(trigger, j, t));
    if j < k - 1 {
      BatchComplete(m, trigger, date, ranked, k - 1, j, t);
    }
  }

  /** Every pick of a trigger that has data is traded in that day's batch. */
  lemma DayBatchComplete(m: map<string, seq<DailyData>>, stats: Statistics, i: nat,
                         ranked: seq<CorrelationData>, j: nat, t: Trade)
    requires IsTrigger(Lookup(m, BenchmarkTicker), i, stats)
    requires j < Min(NumAssetsToPick, |ranked|)
    requires TradeFor(m, ranked[j].ticker, Lookup(m, BenchmarkTicker)[i + 1].date) == Some(t)
    ensures EmittedTrade(i, j, t) in DayBatch(m, stats, i, ranked)
  {
    var bench := Lookup(m, BenchmarkTicker);
    BatchComplete(m, i, bench[i + 1].date, ranked, Min(NumAssetsToPick, |ranked|), j, t);
  }

  lemma InAppend<T>(a: seq<T>, b: seq<T>, x: T)
    ensures x in a + b <==> x in a || x in b
  {
    if x in a + b {
      var k :| 0 <= k < |a + b| && (a + b)[k] == x;
      if k >= |a| {
        assert b[k - |a|] == x;
      }
    }
    if x in a {
      var k :| 0 <= k < |a| && a[k] == x;
      assert (a + b)[k] == x;
    }
    if x in b {
      var k :| 0 <= k < |b| && b[k] == x;
      assert (a + b)[|a| + k] == x;
    }
  }

  /** Every pick of a trigger that has data is traded in the run. */
  lemma {:induction false} EmittedComplete(m: map<string, seq<DailyData>>, stats: Statistics,
                                           rankings: seq<seq<CorrelationData>>, i: nat, j: nat, t: Trade)
    requires i < |rankings| && IsTrigger(Lookup(m, BenchmarkTicker), i, stats)
    requires j < Min(NumAssetsToPick, |rankings[i]|)
    requires TradeFor(m, rankings[i][j].ticker, Lookup(m, BenchmarkTicker)[i + 1].date) == Some(t)
    ensures EmittedTrade(i, j, t) in Emitted(m, stats, rankings)
    decreases |rankings|
  {
    var n := |rankings| - 1;
    var init := rankings[..n];
    var prev := Emitted(m, stats, init);
    var day := DayBatch(m, stats, n, rankings[n]);
    assert |rankings| > VolatilityWindow;
    assert Emitted(m, stats, rankings) == prev + day;
    InAppend(prev, day, EmittedTrade(i, j, t));
    if i == n {
      DayBatchComplete(m, stats, i, rankings[i], j, t);
    } else {
      assert init[i] == rankings[i];
      EmittedComplete(m, stats, init, i, j, t);
    }
  }

  /** The run emits a tagged trade exactly when it is the trade of a pick of
      a trigger. */
  lemma EmittedExactly(m: map<string, seq<DailyData>>, stats: Statistics,
                       rankings: seq<seq<CorrelationData>>, e: EmittedTrade)
    ensures e in Emitted(m, stats, rankings) <==> FromPick(m, stats, rankings, e)
  {
    if e in Emitted(m, stats, rankings) {
      EmittedSpec(m, stats, rankings);
    }
    if FromPick(m, stats, rankings, e) {
      EmittedComplete(m, stats, rankings, e.trigger, e.rank, e.trade);
    }
  }

  /** An entry of a sorted ranking is a kept pool ticker of that window. */
  lemma RankedIsKept(m: map<string, seq<DailyData>>, bench: seq<DailyData>, date: string, stats: Statistics,
                     ranked: seq<CorrelationData>, r: nat)
    requires IsSortingOf(ranked, Correlations(m, bench, date, stats), ByValue) && r < |ranked|
    ensures ranked[r].ticker in AssetPool
    ensures BenchmarkWindow(bench, date).Some?
    ensures Kept(m, ranked[r].ticker, BenchmarkWindow(bench, date).value)
  {
    var corrs := Correlations(m, bench, date, stats);
    assert ranked[r] in multiset(corrs) by {
      assert ranked[r] in multiset(ranked);
    }
    var j :| 0 <= j < |corrs| && corrs[j] == ranked[r];
    CorrelationsSpec(m, bench, date, stats);
  }

  /** What `TradeFor` returning a trade says about it. */
  lemma TradeForSome(m: map<string, seq<DailyData>>, t: Trade, date: string)
    requires TradeFor(m, t.ticker, date) == Some(t)
    ensures t.entryDate == date
    ensures TradeAt(m, t, date, IndexOfDate(Lookup(m, t.ticker), date))
  {
    IndexOfDateIsFirst(Lookup(m, t.ticker), date);
    TradeForSpec(m, t.ticker, date, IndexOfDate(Lookup(m, t.ticker), date));
  }

  /** Every trade a run emits: its trigger fired at return index `i`, it is
      dated by benchmark price `i + 1`, its ticker is one of the lowest-valued
      picks of a pool ticker kept for that window, it enters at the first
      position holding the date, exits five positions later inside the
      series, and returns exit/entry - 1 - 0.0015. */
  lemma BacktestTrades(m: map<string, seq<DailyData>>, stats: Statistics,
                       rankings: seq<seq<CorrelationData>>, p: nat)
    requires RankingsAreSorts(m, stats, rankings)
    requires p < |Emitted(m, stats, rankings)|
    ensures var e, bench := Emitted(m, stats, rankings)[p], Lookup(m, BenchmarkTicker);
      && IsTrigger(bench, e.trigger, stats)
      && e.trigger < |rankings| && e.rank < |rankings[e.trigger]|
      && e.trade.entryDate == bench[e.trigger + 1].date
      && e.trade.ticker in AssetPool
      && BenchmarkWindow(bench, e.trade.entryDate).Some?
      && Kept(m, e.trade.ticker, BenchmarkWindow(bench, e.trade.entryDate).value)
      && TradeAt(m, e.trade, e.trade.entryDate, IndexOfDate(Lookup(m, e.trade.ticker), e.trade.entryDate))
      && rankings[e.trigger][e.rank] in Picks(rankings[e.trigger])
  {
    EmittedSpec(m, stats, rankings);
    var e, bench := Emitted(m, stats, rankings)[p], Lookup(m, BenchmarkTicker);
    assert FromPick(m, stats, rankings, e);
    var date := bench[e.trigger + 1].date;
    var ranked := rankings[e.trigger];
    TradeForSome(m, e.trade, date);
    RankedIsKept(m, bench, date, stats, ranked, e.rank);
    assert ranked[e.rank] == Picks(ranked)[e.rank];
  }
}
