/** The rule helpers of the IronCore auditor (sentinel/ironcore/main.go):
    classifying symbols, joining return series on their dates, the 3-sigma
    move, the HS300 market status, the VIX/DXY liquidity warning, the quiet
    half hour after 9:00 Beijing time, the alert decision, and the memory
    of last audit's 30-day correlations kept by the auditor. */
module IronCore {
  import opened Common

  const GlobalAssets: seq<string> := ["SRVR", "SLV", "USO", "GLD", "IWY"]
  const ChinaPowerAssets: seq<string> := ["600406.SS", "002028.SZ", "002270.SZ", "688676.SS", "159326.SZ"]
  const HS300: string := "000300.SS"
  const DXY: string := "DX-Y.NYB"
  const VIX: string := "^VIX"

  /** One day of a fetched series: its date (YYYY-MM-DD) and the return
      into that day. The fetcher builds `returns` and `dates` in the same
      loop, so they are kept here as one sequence of pairs. */
  datatype Obs = Obs(date: string, ret: real)

  /** A successful fetch: at least one return (two prices or more). A failed
      fetch is `None`. */
  type Series = s: seq<Obs> | |s| > 0 witness [Obs("", 0.0)]

  function Returns(s: seq<Obs>): seq<real> {
    seq(|s|, i requires 0 <= i < |s| => s[i].ret)
  }

  /** The last `n` elements. */
  function Last(xs: seq<real>, n: nat): seq<real>
    requires n <= |xs|
  {
    xs[|xs| - n..]
  }

  // ---------------------------------------------------------------------------
  // Symbol classification and names (main.go:416-438)

  predicate HasSuffix(s: string, suffix: string) {
    |suffix| <= |s| && s[|s| - |suffix|..] == suffix
  }

  /** `strings.HasSuffix` holds exactly when the string is some prefix
      followed by the suffix. */
  lemma HasSuffixIff(s: string, suffix: string)
    ensures HasSuffix(s, suffix) <==> exists p :: s == p + suffix
  {
    if HasSuffix(s, suffix) {
      assert s == s[..|s| - |suffix|] + suffix;
    }
    if p :| s == p + suffix {
      assert s[|s| - |suffix|..] == suffix;
    }
  }

  const China: string := "china"
  const Global: string := "global"

  /** Shanghai (.SS) and Shenzhen (.SZ) listings are "china", all other
      symbols "global". */
  function AssetTypeOf(symbol: string): string {
    if HasSuffix(symbol, ".SS") || HasSuffix(symbol, ".SZ") then China else Global
  }

  lemma AssetTypeBySuffix(symbol: string)
    ensures AssetTypeOf(symbol) == China <==> exists p :: symbol == p + ".SS" || symbol == p + ".SZ"
    ensures AssetTypeOf(symbol) == Global <==> AssetTypeOf(symbol) != China
  {
    HasSuffixIff(symbol, ".SS");
    HasSuffixIff(symbol, ".SZ");
  }

  const Names: map<string, string> := map[
    "SRVR" := "全球数据中心REIT",
    "SLV" := "白银ETF",
    "USO" := "原油ETF",
    "GLD" := "黄金ETF",
    "IWY" := "纳斯达克科技ETF",
    "600406.SS" := "国电南瑞",
    "002028.SZ" := "思源电气",
    "002270.SZ" := "华明装备",
    "688676.SS" := "金盘科技",
    "159326.SZ" := "电网设备ETF"]

  /** The display name; Go's map lookup gives "" for an unknown symbol. */
  function NameOf(symbol: string): string {
    if symbol in Names then Names[symbol] else ""
  }

  // ---------------------------------------------------------------------------
  // Date maps and the date-keyed join (main.go:309-340, 449-460, 505-513)

  /** The map `m[date] = return` built over a series in order: a later
      observation of a date overwrites an earlier one. */
  function DateMap(s: seq<Obs>): map<string, real>
    decreases |s|
  {
    if s == [] then map[] else DateMap(s[..|s| - 1])[s[|s| - 1].date := s[|s| - 1].ret]
  }

  /** The map of a fetch, empty when the fetch failed. */
  function DateMapOf(f: Option<Series>): map<string, real> {
    if f.Some? then DateMap(f.value) else map[]
  }

  method BuildDateMap(f: Option<Series>) returns (m: map<string, real>)
    ensures m == DateMapOf(f)
  {
    m := map[];
    if f.Some? {
      var s := f.value;
      for i := 0 to |s|
        invariant m == DateMap(s[..i])
      {
        assert s[..i + 1][..i] == s[..i];
        m := m[s[i].date := s[i].ret];
      }
      assert s[..|s|] == s;
    }
  }

  /** The keys are exactly the dates of the series. */
  lemma {:induction false} DateMapKeys(s: seq<Obs>)
    ensures forall d :: d in DateMap(s) <==> exists i :: 0 <= i < |s| && s[i].date == d
    decreases |s|
  {
    if s != [] {
      var init := s[..|s| - 1];
      DateMapKeys(init);
      assert forall i :: 0 <= i < |init| ==> init[i] == s[i];
    }
  }

  /** Each date maps to the return of its last observation. */
  lemma {:induction false} DateMapLast(s: seq<Obs>, i: nat)
    requires i < |s|
    requires forall j :: i < j < |s| ==> s[j].date != s[i].date
    ensures s[i].date in DateMap(s) && DateMap(s)[s[i].date] == s[i].ret
    decreases |s|
  {
    var init := s[..|s| - 1];
    if i < |s| - 1 {
      assert forall j :: i < j < |init| ==> init[j] == s[j];
      DateMapLast(init, i);
    }
  }

  /** An observation the join keeps: its date is in the other map and both
      returns pass the NaN/Inf filter. */
  predicate Matches(o: Obs, other: map<string, real>, finite: real -> bool) {
    o.date in other && finite(o.ret) && finite(other[o.date])
  }

  /** The two aligned arrays: `xs` from the iterated series, `ys` from the
      map, appended together. */
  datatype Pairs = Pairs(xs: seq<real>, ys: seq<real>)

  function Aligned(s: seq<Obs>, other: map<string, real>, finite: real -> bool): (r: Pairs)
    ensures |r.xs| == |r.ys| <= |s|
    decreases |s|
  {
    if s == [] then Pairs([], [])
    else
      var p, o := Aligned(s[..|s| - 1], other, finite), s[|s| - 1];
      if Matches(o, other, finite) then Pairs(p.xs + [o.ret], p.ys + [other[o.date]]) else p
  }

  /** The positions of the series that the join keeps. */
  ghost function AlignedPositions(s: seq<Obs>, other: map<string, real>, finite: real -> bool): seq<nat>
    decreases |s|
  {
    if s == [] then []
    else
      var pos := AlignedPositions(s[..|s| - 1], other, finite);
      if Matches(s[|s| - 1], other, finite) then pos + [|s| - 1] else pos
  }

  /** `p` pairs, position by position of `pos`, the series' return with the
      map's return for the same date; `pos` ascends and holds every matching
      position of the first `n` observations and no other. */
  ghost predicate IsAlignment(s: seq<Obs>, other: map<string, real>, finite: real -> bool,
                              n: nat, p: Pairs, pos: seq<nat>)
    requires n <= |s|
  {
    && |p.xs| == |pos| && |p.ys| == |pos|
    && (forall k :: 0 <= k < |pos| ==>
          pos[k] < n && Matches(s[pos[k]], other, finite)
          && p.xs[k] == s[pos[k]].ret && p.ys[k] == other[s[pos[k]].date])
    && (forall k, l :: 0 <= k < l < |pos| ==> pos[k] < pos[l])
    && (forall i :: 0 <= i < n && Matches(s[i], other, finite) ==> i in pos)
  }

  lemma AlignmentKeep(s: seq<Obs>, other: map<string, real>, finite: real -> bool,
                      n: nat, p: Pairs, pos: seq<nat>)
    requires n < |s| && IsAlignment(s, other, finite, n, p, pos) && Matches(s[n], other, finite)
    ensures IsAlignment(s, other, finite, n + 1,
                        Pairs(p.xs + [s[n].ret], p.ys + [other[s[n].date]]), pos + [n])
  {
  }

  lemma AlignmentSkip(s: seq<Obs>, other: map<string, real>, finite: real -> bool,
                      n: nat, p: Pairs, pos: seq<nat>)
    requires n < |s| && IsAlignment(s, other, finite, n, p, pos) && !Matches(s[n], other, finite)
    ensures IsAlignment(s, other, finite, n + 1, p, pos)
  {
  }

  /** The join keeps, in the series' own order, exactly the observations
      whose date the map holds and whose two returns are finite, pairing
      each with the map's return for its date. */
  lemma {:induction false} AlignedSpec(s: seq<Obs>, other: map<string, real>, finite: real -> bool)
    ensures IsAlignment(s, other, finite, |s|, Aligned(s, other, finite), AlignedPositions(s, other, finite))
    decreases |s|
  {
    if s != [] {
      var init := s[..|s| - 1];
      AlignedSpec(init, other, finite);
      AlignmentPrefix(s, other, finite);
      if Matches(s[|s| - 1], other, finite) {
        AlignmentKeep(s, other, finite, |s| - 1, Aligned(init, other, finite), AlignedPositions(init, other, finite));
      } else {
        AlignmentSkip(s, other, finite, |s| - 1, Aligned(init, other, finite), AlignedPositions(init, other, finite));
      }
    }
  }

  /** An alignment of the prefix `s[..|s|-1]` is one of the first `|s|-1`
      observations of `s`. */
  lemma AlignmentPrefix(s: seq<Obs>, other: map<string, real>, finite: real -> bool)
    requires s != []
    requires var init := s[..|s| - 1];
      IsAlignment(init, other, finite, |init|, Aligned(init, other, finite), AlignedPositions(init, other, finite))
    ensures var init := s[..|s| - 1];
      IsAlignment(s, other, finite, |init|, Aligned(init, other, finite), AlignedPositions(init, other, finite))
  {
    var init := s[..|s| - 1];
    assert forall i :: 0 <= i < |init| ==> init[i] == s[i];
  }

  /** The join loop: iterate the series, look each date up in the map and
      append both returns when both are finite. */
  method Align(s: seq<Obs>, other: map<string, real>, finite: real -> bool)
    returns (xs: seq<real>, ys: seq<real>)
    ensures Pairs(xs, ys) == Aligned(s, other, finite)
  {
    xs, ys := [], [];
    for i := 0 to |s|
      invariant Pairs(xs, ys) == Aligned(s[..i], other, finite)
    {
      assert s[..i + 1][..i] == s[..i];
      if s[i].date in other {
        var v := other[s[i].date];
        if finite(s[i].ret) && finite(v) {
          xs := xs + [s[i].ret];
          ys := ys + [v];
        }
      }
    }
    assert s[..|s|] == s;
  }

  // ---------------------------------------------------------------------------
  // Zero variance, mean and population sigma (main.go:469-479, 795-806)

  /** Fewer than two values, or all equal to the first. */
  predicate ZeroVariance(data: seq<real>) {
    |data| < 2 || forall i :: 0 <= i < |data| ==> data[i] == data[0]
  }

  method HasZeroVariance(data: seq<real>) returns (zero: bool)
    ensures zero == ZeroVariance(data)
  {
    if |data| < 2 {
      return true;
    }
    var first := data[0];
    for i := 1 to |data|
      invariant forall k :: 0 <= k < i ==> data[k] == first
    {
      if data[i] != first {
        return false;
      }
    }
    return true;
  }

  /** The sum of squared deviations from `mean`, added left to right. */
  function SquaredDeviations(xs: seq<real>, mean: real): real
    decreases |xs|
  {
    if xs == [] then 0.0
    else
      var d := xs[|xs| - 1] - mean;
      SquaredDeviations(xs[..|xs| - 1], mean) + d * d
  }

  /** The population standard deviation (variance over n, not n - 1). */
  function Sigma(xs: seq<real>, stats: Statistics): real {
    stats.sqrt(Quotient(SquaredDeviations(xs, Mean(xs)), |xs| as real))
  }

  /** The two accumulator loops over the recent returns. */
  method Moments(recent: seq<real>, stats: Statistics) returns (mean: real, sigma: real)
    requires |recent| > 0
    ensures mean == Mean(recent) && sigma == Sigma(recent, stats)
  {
    var sum := 0.0;
    for i := 0 to |recent|
      invariant sum == Sum(recent[..i])
    {
      assert recent[..i + 1][..i] == recent[..i];
      sum := sum + recent[i];
    }
    assert recent[..|recent|] == recent;
    mean := sum / |recent| as real;
    var variance := 0.0;
    for i := 0 to |recent|
      invariant variance == SquaredDeviations(recent[..i], mean)
    {
      assert recent[..i + 1][..i] == recent[..i];
      var diff := recent[i] - mean;
      variance := variance + diff * diff;
    }
    assert recent[..|recent|] == recent;
    sigma := stats.sqrt(variance / |recent| as real);
  }

  /** The squared deviations vanish when every value is the mean. */
  lemma {:induction false} SquaredDeviationsOfMean(xs: seq<real>, mean: real)
    requires forall i :: 0 <= i < |xs| ==> xs[i] == mean
    ensures SquaredDeviations(xs, mean) == 0.0
    decreases |xs|
  {
    if xs != [] {
      var init := xs[..|xs| - 1];
      assert forall i :: 0 <= i < |init| ==> init[i] == xs[i];
      SquaredDeviationsOfMean(init, mean);
    }
  }

  /** A sequence of copies of `c` sums to `|xs| * c`. */
  lemma {:induction false} SumOfConstant(xs: seq<real>, c: real)
    requires forall i :: 0 <= i < |xs| ==> xs[i] == c
    ensures Sum(xs) == |xs| as real * c
    decreases |xs|
  {
    if xs != [] {
      var init := xs[..|xs| - 1];
      assert forall i :: 0 <= i < |init| ==> init[i] == xs[i];
      SumOfConstant(init, c);
    }
  }

  /** Values that hasZeroVariance calls flat have a sigma of 0. */
  lemma FlatSigmaZero(xs: seq<real>, stats: Statistics)
    requires stats.Valid() && |xs| > 0 && ZeroVariance(xs)
    ensures Mean(xs) == xs[0] && Sigma(xs, stats) == 0.0
  {
    var n := |xs| as real;
    SumOfConstant(xs, xs[0]);
    assert Sum(xs) / n == xs[0];
    SquaredDeviationsOfMean(xs, xs[0]);
  }

  // ---------------------------------------------------------------------------
  // The status of one asset (main.go:415-497)

  datatype AssetStatus = AssetStatus(
    symbol: string, name: string, currentPrice: real, volume: real, latestReturn: real,
    corr6m: real, corr30d: real, sigma: real, mean: real, isCritical: bool,
    alertZ: Option<real>, hs300Corr: real, correlationStatus: string, marketStatus: string)

  /** The status before any data is looked at: symbol, name and type. */
  function InitialStatus(symbol: string): AssetStatus {
    AssetStatus(symbol, NameOf(symbol), 0.0, 0.0, 0.0, 0.0, 0.0, 0.0, 0.0, false, None, 0.0,
                AssetTypeOf(symbol), "")
  }

  /** The z-score of the latest return against the last 30 returns, when it
      is beyond three sigmas outside the silent period. */
  function CriticalZ(rets: seq<real>, silent: bool, stats: Statistics): Option<real> {
    if |rets| < 30 then None
    else
      var recent := Last(rets, 30);
      var mean, sigma := Mean(recent), Sigma(recent, stats);
      if sigma > 0.0 && Abs((rets[|rets| - 1] - mean) / sigma) > 3.0 && !silent
      then Some((rets[|rets| - 1] - mean) / sigma)
      else None
  }

  /** The correlations with the DXY over the joined days: over all of them
      from 20 days on, over the last 30 from 30 days on. */
  function Corr6mOf(p: Pairs, stats: Statistics): real
    requires |p.xs| == |p.ys|
  {
    if |p.xs| >= 20 then stats.correlation(p.xs, p.ys) else 0.0
  }

  function Corr30dOf(p: Pairs, stats: Statistics): real
    requires |p.xs| == |p.ys|
  {
    if |p.xs| >= 30 then stats.correlation(Last(p.xs, 30), Last(p.ys, 30)) else 0.0
  }

  /** The mean and population sigma of the last 30 returns, 0 for shorter
      series. */
  function RecentMean(rets: seq<real>): real {
    if |rets| >= 30 then Mean(Last(rets, 30)) else 0.0
  }

  function RecentSigma(rets: seq<real>, stats: Statistics): real {
    if |rets| >= 30 then Sigma(Last(rets, 30), stats) else 0.0
  }

  /** What calculateAssetStatus returns for `symbol`, given the DXY date map,
      the symbol's fetch and whether the clock is in the silent period. */
  function AssetStatusOf(symbol: string, dxyMap: map<string, real>, fetched: Option<Series>,
                         silent: bool, stats: Statistics): AssetStatus
  {
    var init := InitialStatus(symbol);
    if fetched.None? then init
    else
      var rets := Returns(fetched.value);
      var last := rets[|rets| - 1];
      var p := Aligned(fetched.value, dxyMap, stats.isFinite);
      var z := CriticalZ(rets, silent, stats);
      init.(currentPrice := 100.0 * (1.0 + last), latestReturn := last * 100.0,
            corr6m := Corr6mOf(p, stats), corr30d := Corr30dOf(p, stats),
            mean := RecentMean(rets), sigma := RecentSigma(rets, stats),
            isCritical := z.Some?, alertZ := z)
  }

  /** The correlation block of calculateAssetStatus. */
  method DxyCorrelations(s: seq<Obs>, dxyMap: map<string, real>, stats: Statistics)
    returns (corr6m: real, corr30d: real)
    ensures var p := Aligned(s, dxyMap, stats.isFinite);
      corr6m == Corr6mOf(p, stats) && corr30d == Corr30dOf(p, stats)
  {
    corr6m, corr30d := 0.0, 0.0;
    var validAsset, validDXY := Align(s, dxyMap, stats.isFinite);
    if |validAsset| >= 20 {
      corr6m := stats.correlation(validAsset, validDXY);
      if |validAsset| >= 30 {
        corr30d := stats.correlation(Last(validAsset, 30), Last(validDXY, 30));
      }
    }
  }

  /** The 3-sigma block of calculateAssetStatus. */
  method ThreeSigma(rets: seq<real>, silent: bool, stats: Statistics)
    returns (mean: real, sigma: real, z: Option<real>)
    ensures mean == RecentMean(rets) && sigma == RecentSigma(rets, stats)
    ensures z == CriticalZ(rets, silent, stats)
  {
    mean, sigma, z := 0.0, 0.0, None;
    if |rets| >= 30 {
      var recent := Last(rets, 30);
      mean, sigma := Moments(recent, stats);
      if |rets| >= 2 {
        var latestReturn := rets[|rets| - 1];
        if sigma > 0.0 {
          var zScore := (latestReturn - mean) / sigma;
          if Abs(zScore) > 3.0 && !silent {
            z := Some(zScore);
          }
        }
      }
    }
  }

  /** The source's procedure. Its `assetType` argument is overwritten by
      the suffix test before it is read, so the result does not depend on
      it. */
  method CalculateAssetStatus(symbol: string, dxyMap: map<string, real>, assetType: string,
                              fetched: Option<Series>, silent: bool, stats: Statistics)
    returns (status: AssetStatus)
    ensures status == AssetStatusOf(symbol, dxyMap, fetched, silent, stats)
  {
    var kind := if HasSuffix(symbol, ".SS") || HasSuffix(symbol, ".SZ") then China else Global;
    status := AssetStatus(symbol, NameOf(symbol), 0.0, 0.0, 0.0, 0.0, 0.0, 0.0, 0.0, false, None, 0.0,
                          kind, "");
    if fetched.None? {
      return;
    }
    var rets := Returns(fetched.value);
    var last := rets[|rets| - 1];
    var corr6m, corr30d := DxyCorrelations(fetched.value, dxyMap, stats);
    var mean, sigma, z := ThreeSigma(rets, silent, stats);
    status := status.(currentPrice := 100.0 * (1.0 + last), latestReturn := last * 100.0,
                      corr6m := corr6m, corr30d := corr30d, mean := mean, sigma := sigma,
                      isCritical := z.Some?, alertZ := z);
  }

  /** The 3-sigma rule: an asset is critical exactly when it has at least 30
      returns, the last 30 have a positive population sigma, the latest return
      is more than three sigmas from their mean, and the clock is outside the
      silent period; the alert then reports that z-score. */
  lemma CriticalRule(symbol: string, dxyMap: map<string, real>, fetched: Option<Series>,
                     silent: bool, stats: Statistics)
    ensures var st := AssetStatusOf(symbol, dxyMap, fetched, silent, stats);
      st.isCritical <==>
        && fetched.Some? && |fetched.value| >= 30 && !silent
        && var rets := Returns(fetched.value);
           var recent := Last(rets, 30);
           Sigma(recent, stats) > 0.0 && Abs((rets[|rets| - 1] - Mean(recent)) / Sigma(recent, stats)) > 3.0
    ensures var st := AssetStatusOf(symbol, dxyMap, fetched, silent, stats);
      st.isCritical ==> st.sigma > 0.0 && st.alertZ.Some? && Abs(st.alertZ.value) > 3.0
    ensures var st := AssetStatusOf(symbol, dxyMap, fetched, silent, stats);
      st.isCritical ==>
        var rets := Returns(fetched.value);
        st.alertZ == Some((rets[|rets| - 1] - st.mean) / st.sigma)
  {
  }

  /** Thirty equal latest returns never make an asset critical. */
  lemma FlatReturnsNotCritical(symbol: string, dxyMap: map<string, real>, fetched: Option<Series>,
                               silent: bool, stats: Statistics)
    requires stats.Valid() && fetched.Some? && |fetched.value| >= 30
    requires ZeroVariance(Last(Returns(fetched.value), 30))
    ensures !AssetStatusOf(symbol, dxyMap, fetched, silent, stats).isCritical
  {
    FlatSigmaZero(Last(Returns(fetched.value), 30), stats);
  }

  /** Symbol, name and type come from the symbol alone; a failed fetch leaves
      every figure at zero; the 6-month correlation needs 20 joined days, the
      30-day one 30, and uses the last 30 of them. */
  lemma StatusFields(symbol: string, dxyMap: map<string, real>, fetched: Option<Series>,
                     silent: bool, stats: Statistics)
    ensures var st := AssetStatusOf(symbol, dxyMap, fetched, silent, stats);
      && st.symbol == symbol && st.name == NameOf(symbol) && st.correlationStatus == AssetTypeOf(symbol)
      && st.marketStatus == "" && st.hs300Corr == 0.0 && st.volume == 0.0
      && (fetched.None? ==> st == InitialStatus(symbol) && !st.isCritical && st.corr30d == 0.0)
      && (fetched.Some? ==>
            var p := Aligned(fetched.value, dxyMap, stats.isFinite);
            && (|p.xs| < 20 ==> st.corr6m == 0.0)
            && (|p.xs| < 30 ==> st.corr30d == 0.0)
            && (|p.xs| >= 20 ==> st.corr6m == stats.correlation(p.xs, p.ys))
            && (|p.xs| >= 30 ==> st.corr30d == stats.correlation(Last(p.xs, 30), Last(p.ys, 30))))
  {
  }

  // ---------------------------------------------------------------------------
  // HS300 correlation and market status (main.go:359-372, 499-520)

  function HS300CorrOf(hs300Map: map<string, real>, fetched: Option<Series>, stats: Statistics): real {
    if fetched.None? || |hs300Map| == 0 then 0.0
    else
      var p := Aligned(fetched.value, hs300Map, stats.isFinite);
      if |p.xs| >= 20 then stats.correlation(p.xs, p.ys) else 0.0
  }

  method CalculateHS300Corr(hs300Map: map<string, real>, fetched: Option<Series>, stats: Statistics)
    returns (corr: real)
    ensures corr == HS300CorrOf(hs300Map, fetched, stats)
  {
    if fetched.None? || |hs300Map| == 0 {
      return 0.0;
    }
    var validAsset, validHS := Align(fetched.value, hs300Map, stats.isFinite);
    if |validAsset| >= 20 {
      return stats.correlation(validAsset, validHS);
    }
    return 0.0;
  }

  /** Fewer than 20 days joined with the HS300 give a correlation of 0. */
  lemma HS300NeedsOverlap(hs300Map: map<string, real>, fetched: Option<Series>, stats: Statistics)
    requires fetched.None? || |Aligned(fetched.value, hs300Map, stats.isFinite).xs| < 20
    ensures HS300CorrOf(hs300Map, fetched, stats) == 0.0
  {
  }

  const FollowsMarket: string := "跟随大盘内卷"
  const IndependentlyStrong: string := "独立走强"
  const WeaklyFollows: string := "弱跟随"

  function MarketStatusOf(corr: real): string {
    if corr > 0.6 then FollowsMarket
    else if corr < 0.3 then IndependentlyStrong
    else WeaklyFollows
  }

  /** Above 0.6 the asset follows the market, below 0.3 it is independently
      strong, in between it weakly follows: exactly one of the three. */
  lemma MarketStatusThresholds(corr: real)
    ensures MarketStatusOf(corr) == FollowsMarket <==> corr > 0.6
    ensures MarketStatusOf(corr) == IndependentlyStrong <==> corr < 0.3
    ensures MarketStatusOf(corr) == WeaklyFollows <==> 0.3 <= corr <= 0.6
  {
    assert FollowsMarket[0] != IndependentlyStrong[0] && FollowsMarket[0] != WeaklyFollows[0];
    assert IndependentlyStrong[0] != WeaklyFollows[0];
  }

  /** A China asset's status: the common status, then, when the HS300 map is
      not empty, its HS300 correlation and market status. */
  function ChinaStatusOf(symbol: string, dxyMap: map<string, real>, hs300Map: map<string, real>,
                         fetched: Option<Series>, silent: bool, stats: Statistics): AssetStatus
  {
    var st := AssetStatusOf(symbol, dxyMap, fetched, silent, stats);
    if |hs300Map| > 0 then
      var corr := HS300CorrOf(hs300Map, fetched, stats);
      st.(hs300Corr := corr, marketStatus := MarketStatusOf(corr))
    else st
  }

  // ---------------------------------------------------------------------------
  // The VIX/DXY liquidity warning (main.go:324-350)

  datatype VixDxy = VixDxy(corr: real, warning: bool)

  /** The correlation of the last 30 joined VIX and DXY returns (the DXY
      series iterated, VIX looked up by date), and the warning. */
  function VixDxyOf(dxy: Option<Series>, vix: Option<Series>, stats: Statistics): VixDxy {
    if dxy.None? || vix.None? then VixDxy(0.0, false)
    else
      var p := Aligned(dxy.value, DateMap(vix.value), stats.isFinite);
      var corr := if |p.xs| >= 30 then stats.correlation(Last(p.ys, 30), Last(p.xs, 30)) else 0.0;
      VixDxy(corr, corr > 0.5 && dxy.value[|dxy.value| - 1].ret > 0.0)
  }

  method CheckVixDxy(dxy: Option<Series>, vix: Option<Series>, stats: Statistics)
    returns (vixDxyCorr: real, vixWarning: bool)
    ensures VixDxy(vixDxyCorr, vixWarning) == VixDxyOf(dxy, vix, stats)
  {
    vixDxyCorr, vixWarning := 0.0, false;
    if dxy.Some? && vix.Some? {
      var vixMap := BuildDateMap(vix);
      var alignedDxy, alignedVix := Align(dxy.value, vixMap, stats.isFinite);
      if |alignedVix| >= 30 {
        vixDxyCorr := stats.correlation(Last(alignedVix, 30), Last(alignedDxy, 30));
      }
      var dxyReturns := dxy.value;
      if vixDxyCorr > 0.5 && dxyReturns[|dxyReturns| - 1].ret > 0.0 {
        vixWarning := true;
      }
    }
  }

  /** The warning needs both series, at least 30 joined days, a correlation
      above 0.5 and a rising dollar on the last day. */
  lemma VixWarningConditions(dxy: Option<Series>, vix: Option<Series>, stats: Statistics)
    ensures VixDxyOf(dxy, vix, stats).warning <==>
      dxy.Some? && vix.Some? && VixDxyOf(dxy, vix, stats).corr > 0.5 && dxy.value[|dxy.value| - 1].ret > 0.0
    ensures VixDxyOf(dxy, vix, stats).warning ==>
      |Aligned(dxy.value, DateMap(vix.value), stats.isFinite).xs| >= 30
  {
  }

  // ---------------------------------------------------------------------------
  // The silent period and the alert decision (main.go:534-566)

  /** 9:00 to 9:29 Beijing time, before the A-share market opens. */
  function IsSilentPeriod(hour: int, minute: int): bool {
    hour == 9 && minute < 30
  }

  /** On a clock with minutes 0 to 59, the silent period is the half hour of
      minutes-of-day 540 to 569. */
  lemma SilentPeriodWindow(hour: int, minute: int)
    requires 0 <= minute < 60
    ensures IsSilentPeriod(hour, minute) <==> 540 <= hour * 60 + minute < 570
  {
    if 540 <= hour * 60 + minute < 570 {
      assert hour == 9;
    }
  }

  /** Some asset is at a three-sigma breach. */
  predicate AnyCritical(assets: seq<AssetStatus>) {
    exists k :: 0 <= k < |assets| && assets[k].isCritical
  }

  /** When an alert email goes out: outside the silent period, on a VIX
      warning or a critical asset, and with SMTP credentials configured. */
  predicate AlertDue(vixWarning: bool, assets: seq<AssetStatus>, silent: bool,
                     smtpUser: string, smtpPass: string)
  {
    !silent && (vixWarning || AnyCritical(assets)) && smtpUser != "" && smtpPass != ""
  }

  /** The email goes out exactly when the clock is outside the silent
      period, the VIX warning is on or some asset is critical, and SMTP
      credentials are set. */
  method CheckAndSendAlert(vixWarning: bool, assets: seq<AssetStatus>, hour: int, minute: int,
                           smtpUser: string, smtpPass: string)
    returns (sent: bool)
    ensures sent <==> AlertDue(vixWarning, assets, IsSilentPeriod(hour, minute), smtpUser, smtpPass)
  {
    if IsSilentPeriod(hour, minute) {
      return false;
    }
    var shouldAlert := vixWarning;
    var i := 0;
    while i < |assets|
      invariant 0 <= i <= |assets|
      invariant shouldAlert <==> vixWarning || AnyCritical(assets[..i])
    {
      assert assets[..i + 1][i] == assets[i];
      assert forall k :: 0 <= k < i ==> assets[..i + 1][k] == assets[..i][k];
      if assets[i].isCritical {
        shouldAlert := true;
        break;
      }
      i := i + 1;
    }
    assert !shouldAlert ==> i == |assets| && assets[..i] == assets;
    sent := shouldAlert && smtpUser != "" && smtpPass != "";
  }

  // ---------------------------------------------------------------------------
  // Correlation acceleration (main.go:522-532)

  /** The auditor's memory of the 30-day correlations, with the change of
      each since the last audit. */
  datatype Memory = Memory(last: map<string, real>, acceleration: map<string, real>)

  /** One asset: its change is recorded when its symbol was remembered, and
      its 30-day correlation is remembered in any case. */
  function Remember(mem: Memory, a: AssetStatus): Memory {
    Memory(mem.last[a.symbol := a.corr30d],
           if a.symbol in mem.last then mem.acceleration[a.symbol := a.corr30d - mem.last[a.symbol]]
           else mem.acceleration)
  }

  /** The assets processed in order, from memory `last` and no changes. */
  function RememberAll(last: map<string, real>, assets: seq<AssetStatus>): Memory
    decreases |assets|
  {
    if assets == [] then Memory(last, map[])
    else Remember(RememberAll(last, assets[..|assets| - 1]), assets[|assets| - 1])
  }

  function Symbols(assets: seq<AssetStatus>): set<string> {
    set i | 0 <= i < |assets| :: assets[i].symbol
  }

  predicate DistinctSymbols(assets: seq<AssetStatus>) {
    forall i, j :: 0 <= i < j < |assets| ==> assets[i].symbol != assets[j].symbol
  }

  lemma SymbolsOfPrefix(assets: seq<AssetStatus>)
    requires assets != []
    ensures Symbols(assets) == Symbols(assets[..|assets| - 1]) + {assets[|assets| - 1].symbol}
  {
    var init := assets[..|assets| - 1];
    assert forall i :: 0 <= i < |init| ==> init[i] == assets[i];
  }

  /** Afterwards the memory holds the old symbols and the audited ones. */
  lemma {:induction false} RememberedKeys(last: map<string, real>, assets: seq<AssetStatus>)
    ensures RememberAll(last, assets).last.Keys == last.Keys + Symbols(assets)
    decreases |assets|
  {
    if assets != [] {
      RememberedKeys(last, assets[..|assets| - 1]);
      SymbolsOfPrefix(assets);
    }
  }

  /** A symbol that was not audited keeps its remembered correlation. */
  lemma {:induction false} RememberedUnaudited(last: map<string, real>, assets: seq<AssetStatus>, s: string)
    requires s !in Symbols(assets)
    ensures s in RememberAll(last, assets).last <==> s in last
    ensures s in last ==> RememberAll(last, assets).last[s] == last[s]
    decreases |assets|
  {
    if assets != [] {
      SymbolsOfPrefix(assets);
      RememberedUnaudited(last, assets[..|assets| - 1], s);
    }
  }

  /** An audited symbol holds the 30-day correlation of its last occurrence. */
  lemma {:induction false} RememberedLastOccurrence(last: map<string, real>, assets: seq<AssetStatus>, k: int)
    requires 0 <= k < |assets|
    requires forall l :: k < l < |assets| ==> assets[l].symbol != assets[k].symbol
    ensures assets[k].symbol in RememberAll(last, assets).last
    ensures RememberAll(last, assets).last[assets[k].symbol] == assets[k].corr30d
    decreases |assets|
  {
    if k < |assets| - 1 {
      var init := assets[..|assets| - 1];
      assert init[k] == assets[k];
      assert forall l :: k < l < |init| ==> init[l] == assets[l];
      RememberedLastOccurrence(last, init, k);
    }
  }

  lemma DistinctPrefix(assets: seq<AssetStatus>)
    requires assets != [] && DistinctSymbols(assets)
    ensures DistinctSymbols(assets[..|assets| - 1])
    ensures assets[|assets| - 1].symbol !in Symbols(assets[..|assets| - 1])
  {
    var init := assets[..|assets| - 1];
    assert forall i :: 0 <= i < |init| ==> init[i] == assets[i];
  }

  /** With distinct symbols, a change is recorded for exactly the audited
      symbols that were remembered. */
  lemma {:induction false} AccelerationKeys(last: map<string, real>, assets: seq<AssetStatus>, s: string)
    requires DistinctSymbols(assets)
    ensures s in RememberAll(last, assets).acceleration <==> s in last && s in Symbols(assets)
    decreases |assets|
  {
    if assets != [] {
      var init := assets[..|assets| - 1];
      var a := assets[|assets| - 1];
      DistinctPrefix(assets);
      SymbolsOfPrefix(assets);
      AccelerationKeys(last, init, s);
      RememberedUnaudited(last, init, a.symbol);
    }
  }

  /** With distinct symbols, the change recorded for an asset is its new
      30-day correlation minus the remembered one. */
  lemma {:induction false} AccelerationValue(last: map<string, real>, assets: seq<AssetStatus>, k: int)
    requires DistinctSymbols(assets) && 0 <= k < |assets| && assets[k].symbol in last
    ensures assets[k].symbol in RememberAll(last, assets).acceleration
    ensures RememberAll(last, assets).acceleration[assets[k].symbol] == assets[k].corr30d - last[assets[k].symbol]
    decreases |assets|
  {
    var init := assets[..|assets| - 1];
    var a := assets[|assets| - 1];
    DistinctPrefix(assets);
    if k < |assets| - 1 {
      assert init[k] == assets[k];
      AccelerationValue(last, init, k);
    } else {
      RememberedUnaudited(last, init, a.symbol);
    }
  }

  datatype AuditStatus = AuditStatus(assets: seq<AssetStatus>, vixDxyCorr: real, vixWarning: bool,
                                     silentPeriod: bool, corrAcceleration: map<string, real>)

  /** The status of each symbol, in the order given. */
  function StatusesOf(symbols: seq<string>, statusOf: string -> AssetStatus): (r: seq<AssetStatus>)
    ensures |r| == |symbols|
    ensures forall i :: 0 <= i < |symbols| ==> r[i] == statusOf(symbols[i])
    decreases |symbols|
  {
    if symbols == [] then []
    else StatusesOf(symbols[..|symbols| - 1], statusOf) + [statusOf(symbols[|symbols| - 1])]
  }

  function GlobalStatusOf(dxyMap: map<string, real>, fetch: string -> Option<Series>, silent: bool,
                          stats: Statistics): string -> AssetStatus
  {
    s => AssetStatusOf(s, dxyMap, fetch(s), silent, stats)
  }

  function ChinaStatusOfFetched(dxyMap: map<string, real>, hs300Map: map<string, real>,
                                fetch: string -> Option<Series>, silent: bool,
                                stats: Statistics): string -> AssetStatus
  {
    s => ChinaStatusOf(s, dxyMap, hs300Map, fetch(s), silent, stats)
  }

  /** Every asset of one audit, global ones first. */
  function AuditAssets(fetch: string -> Option<Series>, silent: bool, stats: Statistics): seq<AssetStatus> {
    var dxyMap := DateMapOf(fetch(DXY));
    StatusesOf(GlobalAssets, GlobalStatusOf(dxyMap, fetch, silent, stats))
      + StatusesOf(ChinaPowerAssets, ChinaStatusOfFetched(dxyMap, DateMapOf(fetch(HS300)), fetch, silent, stats))
  }

  /** The status an audit publishes, from the remembered correlations. */
  function AuditOf(last: map<string, real>, fetch: string -> Option<Series>, silent: bool,
                   stats: Statistics): AuditStatus
  {
    var assets := AuditAssets(fetch, silent, stats);
    var v := VixDxyOf(fetch(DXY), fetch(VIX), stats);
    AuditStatus(assets, v.corr, v.warning, silent, RememberAll(last, assets).acceleration)
  }

  /** The ten audited symbols, global ones first. */
  const AuditedSymbols: seq<string> := GlobalAssets + ChinaPowerAssets

  lemma AuditedSymbolsDistinct()
    ensures |AuditedSymbols| == 10
    ensures forall i, j :: 0 <= i < j < |AuditedSymbols| ==> AuditedSymbols[i] != AuditedSymbols[j]
  {
  }

  /** The China branch keeps the symbol and the 3-sigma verdict. */
  lemma ChinaStatusKeeps(symbol: string, dxyMap: map<string, real>, hs300Map: map<string, real>,
                         fetched: Option<Series>, silent: bool, stats: Statistics)
    ensures ChinaStatusOf(symbol, dxyMap, hs300Map, fetched, silent, stats).symbol == symbol
    ensures ChinaStatusOf(symbol, dxyMap, hs300Map, fetched, silent, stats).isCritical
        == AssetStatusOf(symbol, dxyMap, fetched, silent, stats).isCritical
  {
  }

  /** An audit reports the ten symbols in order, each once. */
  lemma AuditSymbols(fetch: string -> Option<Series>, silent: bool, stats: Statistics)
    ensures |AuditAssets(fetch, silent, stats)| == |AuditedSymbols|
    ensures forall i :: 0 <= i < |AuditedSymbols| ==> AuditAssets(fetch, silent, stats)[i].symbol == AuditedSymbols[i]
    ensures DistinctSymbols(AuditAssets(fetch, silent, stats))
  {
    var assets := AuditAssets(fetch, silent, stats);
    var dxyMap := DateMapOf(fetch(DXY));
    var hs300Map := DateMapOf(fetch(HS300));
    forall i | 0 <= i < |AuditedSymbols|
      ensures assets[i].symbol == AuditedSymbols[i]
    {
      if i < |GlobalAssets| {
        StatusFields(GlobalAssets[i], dxyMap, fetch(GlobalAssets[i]), silent, stats);
      } else {
        ChinaStatusKeeps(ChinaPowerAssets[i - 5], dxyMap, hs300Map, fetch(ChinaPowerAssets[i - 5]), silent, stats);
      }
    }
    AuditedSymbolsDistinct();
  }

  /** No asset is critical during the silent period. */
  lemma SilentAuditHasNoCritical(fetch: string -> Option<Series>, stats: Statistics)
    ensures !AnyCritical(AuditAssets(fetch, true, stats))
  {
    var assets := AuditAssets(fetch, true, stats);
    var dxyMap := DateMapOf(fetch(DXY));
    var hs300Map := DateMapOf(fetch(HS300));
    forall i | 0 <= i < |assets|
      ensures !assets[i].isCritical
    {
      if i < |GlobalAssets| {
        CriticalRule(GlobalAssets[i], dxyMap, fetch(GlobalAssets[i]), true, stats);
      } else {
        ChinaStatusKeeps(ChinaPowerAssets[i - 5], dxyMap, hs300Map, fetch(ChinaPowerAssets[i - 5]), true, stats);
        CriticalRule(ChinaPowerAssets[i - 5], dxyMap, fetch(ChinaPowerAssets[i - 5]), true, stats);
      }
    }
  }

  /** The acceleration an audit publishes has an entry for exactly the
      audited symbols remembered from the previous audit, holding the
      change of the 30-day correlation since then. */
  lemma AuditAcceleration(last: map<string, real>, fetch: string -> Option<Series>, silent: bool,
                          stats: Statistics, k: int)
    requires 0 <= k < |AuditedSymbols|
    ensures var st := AuditOf(last, fetch, silent, stats);
      AuditedSymbols[k] in st.corrAcceleration <==> AuditedSymbols[k] in last
    ensures var st := AuditOf(last, fetch, silent, stats);
      AuditedSymbols[k] in last ==>
        st.corrAcceleration[AuditedSymbols[k]] == st.assets[k].corr30d - last[AuditedSymbols[k]]
  {
    var assets := AuditAssets(fetch, silent, stats);
    AuditSymbols(fetch, silent, stats);
    assert assets[k].symbol == AuditedSymbols[k];
    AccelerationKeys(last, assets, AuditedSymbols[k]);
    if AuditedSymbols[k] in last {
      AccelerationValue(last, assets, k);
    }
  }

  /** Symbols outside the audit never get an acceleration entry. */
  lemma AuditAccelerationOnlyAudited(last: map<string, real>, fetch: string -> Option<Series>, silent: bool,
                                     stats: Statistics, s: string)
    requires s !in AuditedSymbols
    ensures s !in AuditOf(last, fetch, silent, stats).corrAcceleration
  {
    var assets := AuditAssets(fetch, silent, stats);
    AuditSymbols(fetch, silent, stats);
    AccelerationKeys(last, assets, s);
  }

  /** The auditor's state: the correlations remembered from the previous
      audit and the status of the last one. */
  class Auditor {
    var lastCorrMap: map<string, real>
    var globalStatus: AuditStatus

    constructor ()
      ensures lastCorrMap == map[]
      ensures globalStatus == AuditStatus([], 0.0, false, false, map[])
    {
      lastCorrMap := map[];
      globalStatus := AuditStatus([], 0.0, false, false, map[]);
    }

    /** Records the change of every remembered 30-day correlation and
        remembers the new ones. */
    method CalculateCorrelationAcceleration(assets: seq<AssetStatus>)
      returns (acceleration: map<string, real>)
      modifies this
      ensures lastCorrMap == RememberAll(old(lastCorrMap), assets).last
      ensures acceleration == RememberAll(old(lastCorrMap), assets).acceleration
      ensures globalStatus == old(globalStatus)
    {
      acceleration := map[];
      for i := 0 to |assets|
        invariant Memory(lastCorrMap, acceleration) == RememberAll(old(lastCorrMap), assets[..i])
        invariant globalStatus == old(globalStatus)
      {
        assert assets[..i + 1][..i] == assets[..i];
        var a := assets[i];
        if a.symbol in lastCorrMap {
          var delta := a.corr30d - lastCorrMap[a.symbol];
          acceleration := acceleration[a.symbol := delta];
        }
        lastCorrMap := lastCorrMap[a.symbol := a.corr30d];
      }
      assert assets[..|assets|] == assets;
    }

    /** One audit at Beijing time `hour:minute`, with `fetch` standing for
        the market data fetcher: publishes the new status, updates the
        remembered correlations and reports whether an alert email is sent. */
    method PerformAudit(fetch: string -> Option<Series>, hour: int, minute: int,
                        smtpUser: string, smtpPass: string, stats: Statistics)
      returns (alertSent: bool)
      modifies this
      ensures globalStatus == AuditOf(old(lastCorrMap), fetch, IsSilentPeriod(hour, minute), stats)
      ensures lastCorrMap == RememberAll(old(lastCorrMap), globalStatus.assets).last
      ensures alertSent <==> AlertDue(globalStatus.vixWarning, globalStatus.assets, globalStatus.silentPeriod,
                                      smtpUser, smtpPass)
    {
      var vixDxyCorr, vixWarning := CheckVixDxy(fetch(DXY), fetch(VIX), stats);
      var silentPeriod := IsSilentPeriod(hour, minute);
      var assetStatuses := Survey(fetch, silentPeriod, stats);
      var acceleration := CalculateCorrelationAcceleration(assetStatuses);
      globalStatus := AuditStatus(assetStatuses, vixDxyCorr, vixWarning, silentPeriod, acceleration);
      alertSent := CheckAndSendAlert(vixWarning, assetStatuses, hour, minute, smtpUser, smtpPass);
    }
  }

  /** Builds the DXY and HS300 date maps and the status of every asset
      (main.go:309-322, 356-373). */
  method Survey(fetch: string -> Option<Series>, silent: bool, stats: Statistics)
    returns (assets: seq<AssetStatus>)
    ensures assets == AuditAssets(fetch, silent, stats)
  {
    var dxyMap := BuildDateMap(fetch(DXY));
    var hs300Map := BuildDateMap(fetch(HS300));
    var globals := CollectGlobal(GlobalAssets, dxyMap, fetch, silent, stats);
    var chinas := CollectChina(ChinaPowerAssets, dxyMap, hs300Map, fetch, silent, stats);
    assets := globals + chinas;
  }

  /** The loop over the global assets. */
  method CollectGlobal(symbols: seq<string>, dxyMap: map<string, real>, fetch: string -> Option<Series>,
                       silent: bool, stats: Statistics)
    returns (statuses: seq<AssetStatus>)
    ensures statuses == StatusesOf(symbols, GlobalStatusOf(dxyMap, fetch, silent, stats))
  {
    statuses := [];
    for i := 0 to |symbols|
      invariant statuses == StatusesOf(symbols[..i], GlobalStatusOf(dxyMap, fetch, silent, stats))
    {
      assert symbols[..i + 1][..i] == symbols[..i];
      var symbol := symbols[i];
      var status := CalculateAssetStatus(symbol, dxyMap, Global, fetch(symbol), silent, stats);
      statuses := statuses + [status];
    }
    assert symbols[..|symbols|] == symbols;
  }

  /** The loop over the China assets, adding the HS300 correlation and the
      market status when the HS300 map is not empty. */
  method CollectChina(symbols: seq<string>, dxyMap: map<string, real>, hs300Map: map<string, real>,
                      fetch: string -> Option<Series>, silent: bool, stats: Statistics)
    returns (statuses: seq<AssetStatus>)
    ensures statuses == StatusesOf(symbols, ChinaStatusOfFetched(dxyMap, hs300Map, fetch, silent, stats))
  {
    statuses := [];
    for i := 0 to |symbols|
      invariant statuses == StatusesOf(symbols[..i], ChinaStatusOfFetched(dxyMap, hs300Map, fetch, silent, stats))
    {
      assert symbols[..i + 1][..i] == symbols[..i];
      var symbol := symbols[i];
      var status := ChinaAssetStatus(symbol, dxyMap, hs300Map, fetch(symbol), silent, stats);
      statuses := statuses + [status];
    }
    assert symbols[..|symbols|] == symbols;
  }

  /** One China asset: its status, with the HS300 correlation and the market
      status when the HS300 map is not empty (main.go:361-373). */
  method ChinaAssetStatus(symbol: string, dxyMap: map<string, real>, hs300Map: map<string, real>,
                          fetched: Option<Series>, silent: bool, stats: Statistics)
    returns (status: AssetStatus)
    ensures status == ChinaStatusOf(symbol, dxyMap, hs300Map, fetched, silent, stats)
  {
    status := CalculateAssetStatus(symbol, dxyMap, China, fetched, silent, stats);
    if |hs300Map| > 0 {
      var corr := CalculateHS300Corr(hs300Map, fetched, stats);
      status := status.(hs300Corr := corr, marketStatus := MarketStatusOf(corr));
    }
  }
}
