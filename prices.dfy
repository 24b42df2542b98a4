/** Price records of the backtest (strategy_lab/backtest.go): grouping the
    loaded table by ticker, ordering by date, daily returns, date search
    and date-bounded slices. */
module Prices {
  import opened Common

  /** One row of the price table: an ISO date string, a ticker and a close. */
  datatype DailyData = DailyData(date: string, ticker: string, close: real)

  // ---------------------------------------------------------------------------
  // Date order: Go's `<` on strings compares bytes lexicographically. A date
  // string's UTF-8 bytes compare in the same order as its code points.

  predicate DateLess(a: string, b: string)
    decreases |a|
  {
    if |a| == 0 then |b| > 0
    else if |b| == 0 then false
    else if a[0] != b[0] then a[0] < b[0]
    else DateLess(a[1..], b[1..])
  }

  lemma {:induction false} DateLessAsymmetric(a: string, b: string)
    requires DateLess(a, b)
    ensures !DateLess(b, a)
    decreases |a|
  {
    if |a| > 0 && |b| > 0 && a[0] == b[0] {
      DateLessAsymmetric(a[1..], b[1..]);
    }
  }

  lemma {:induction false} DateNotLessTransitive(a: string, b: string, c: string)
    requires !DateLess(a, b) && !DateLess(b, c)
    ensures !DateLess(a, c)
    decreases |a|
  {
    if |a| > 0 && |b| > 0 && |c| > 0 && a[0] == b[0] && b[0] == c[0] {
      DateNotLessTransitive(a[1..], b[1..], c[1..]);
    }
  }

  /** The comparison passed to `sort.Slice` in `main` (backtest.go:75-77). */
  const ByDate := (x: DailyData, y: DailyData) => DateLess(x.date, y.date)

  lemma ByDateIsStrictWeakOrder()
    ensures StrictWeakOrder(ByDate)
  {
    forall x: DailyData, y: DailyData | ByDate(x, y)
      ensures !ByDate(y, x)
    {
      DateLessAsymmetric(x.date, y.date);
    }
    forall x: DailyData, y: DailyData, z: DailyData | !ByDate(x, y) && !ByDate(y, z)
      ensures !ByDate(x, z)
    {
      DateNotLessTransitive(x.date, y.date, z.date);
    }
  }

  /** No date occurs twice: what the backtest's input contract assumes. */
  predicate DistinctDates(data: seq<DailyData>) {
    forall j, k :: 0 <= j < k < |data| ==> data[j].date != data[k].date
  }

  // ---------------------------------------------------------------------------
  // Daily returns (backtest.go:342-352)

  /** The return of the step from price `i` to price `i + 1`, with the
      source's guard: 0 when the earlier close is 0. */
  function StepReturn(data: seq<DailyData>, i: nat): real
    requires i + 1 < |data|
  {
    if data[i].close != 0.0 then data[i + 1].close / data[i].close - 1.0 else 0.0
  }

  function DailyReturns(data: seq<DailyData>): seq<real> {
    seq(if |data| == 0 then 0 else |data| - 1, i requires 0 <= i < |data| - 1 => StepReturn(data, i))
  }

  method GetDailyReturns(data: seq<DailyData>) returns (rets: seq<real>)
    ensures |rets| == if |data| == 0 then 0 else |data| - 1
    ensures forall i :: 0 <= i < |rets| ==>
              rets[i] == if data[i].close != 0.0 then data[i + 1].close / data[i].close - 1.0 else 0.0
    ensures rets == DailyReturns(data)
  {
    rets := [];
    var i := 1;
    while i < |data|
      invariant 1 <= i <= |data| || (|data| == 0 && i == 1)
      invariant |rets| == i - 1
      invariant forall k :: 0 <= k < i - 1 ==> rets[k] == StepReturn(data, k)
    {
      if data[i - 1].close != 0.0 {
        rets := rets + [(data[i].close / data[i - 1].close) - 1.0];
      } else {
        rets := rets + [0.0];
      }
      i := i + 1;
    }
  }

  /** A return series and its prices determine each other: compounding the
      return at `i` onto a non-zero close gives the next close. */
  lemma ReturnsCompound(data: seq<DailyData>, i: nat)
    requires i + 1 < |data| && data[i].close != 0.0
    ensures data[i].close * (1.0 + DailyReturns(data)[i]) == data[i + 1].close
  {
    var r := DailyReturns(data)[i];
    assert r == data[i + 1].close / data[i].close - 1.0;
    calc {
      data[i].close * (1.0 + r);
      data[i].close * (data[i + 1].close / data[i].close);
      data[i + 1].close;
    }
  }

  /** The returns of a slice are the matching slice of the returns. */
  lemma ReturnsOfSlice(data: seq<DailyData>, s: nat, e: nat)
    requires s <= e < |data|
    ensures DailyReturns(data[s..e + 1]) == DailyReturns(data)[s..e]
  {
    var lhs, rhs := DailyReturns(data[s..e + 1]), DailyReturns(data)[s..e];
    assert |lhs| == |rhs| == e - s;
    forall k | 0 <= k < e - s
      ensures lhs[k] == rhs[k]
    {
      assert data[s..e + 1][k] == data[s + k] && data[s..e + 1][k + 1] == data[s + k + 1];
    }
  }

  // ---------------------------------------------------------------------------
  // Date search (backtest.go:354-361)

  /** `e` is the first position holding `date`, or -1 when none does. */
  predicate IsFirstIndex(data: seq<DailyData>, date: string, e: int) {
    if e == -1 then forall j :: 0 <= j < |data| ==> data[j].date != date
    else 0 <= e < |data| && data[e].date == date && forall j :: 0 <= j < e ==> data[j].date != date
  }

  function IndexOfDate(data: seq<DailyData>, date: string): (r: int)
    ensures -1 <= r < |data|
    decreases |data|
  {
    if |data| == 0 then -1
    else if data[0].date == date then 0
    else
      var rest := IndexOfDate(data[1..], date);
      if rest == -1 then -1 else rest + 1
  }

  lemma {:induction false} IndexOfDateIsFirst(data: seq<DailyData>, date: string)
    ensures IsFirstIndex(data, date, IndexOfDate(data, date))
    decreases |data|
  {
    if |data| > 0 && data[0].date != date {
      IndexOfDateIsFirst(data[1..], date);
      var rest := IndexOfDate(data[1..], date);
      if rest != -1 {
        forall j | 0 <= j < rest + 1
          ensures data[j].date != date
        {
          if j > 0 {
            assert data[j] == data[1..][j - 1];
          }
        }
      } else {
        forall j | 0 <= j < |data|
          ensures data[j].date != date
        {
          if j > 0 {
            assert data[j] == data[1..][j - 1];
          }
        }
      }
    }
  }

  /** There is only one first index. */
  lemma FirstIndexUnique(data: seq<DailyData>, date: string, e1: int, e2: int)
    requires IsFirstIndex(data, date, e1) && IsFirstIndex(data, date, e2)
    ensures e1 == e2
  {
  }

  /** With distinct dates, the index of the date stored at `k` is `k`. */
  lemma IndexOfOwnDate(data: seq<DailyData>, k: nat)
    requires DistinctDates(data) && k < |data|
    ensures IndexOfDate(data, data[k].date) == k
  {
    IndexOfDateIsFirst(data, data[k].date);
    var r := IndexOfDate(data, data[k].date);
    assert r != -1 by { assert data[k].date == data[k].date; }
    assert data[r].date == data[k].date;
  }

  method FindDateIndex(data: seq<DailyData>, date: string) returns (r: int)
    ensures r == -1 <==> forall j :: 0 <= j < |data| ==> data[j].date != date
    ensures r != -1 ==> 0 <= r < |data| && data[r].date == date
    ensures forall j :: 0 <= j < r ==> data[j].date != date
    ensures r == IndexOfDate(data, date)
  {
    var i := 0;
    while i < |data|
      invariant 0 <= i <= |data|
      invariant forall j :: 0 <= j < i ==> data[j].date != date
    {
      if data[i].date == date {
        IndexOfDateIsFirst(data, date);
        FirstIndexUnique(data, date, i, IndexOfDate(data, date));
        return i;
      }
      i := i + 1;
    }
    IndexOfDateIsFirst(data, date);
    FirstIndexUnique(data, date, -1, IndexOfDate(data, date));
    return -1;
  }

  // ---------------------------------------------------------------------------
  // Price slice (backtest.go:363-369)

  function PriceSlice(data: seq<DailyData>, startDate: string, endDate: string): seq<DailyData> {
    var s, e := IndexOfDate(data, startDate), IndexOfDate(data, endDate);
    if s != -1 && e != -1 && s <= e then
      data[s..e + 1]
    else
      []
  }

  /** The slice is empty exactly when a date is missing or they are out of
      order; otherwise it runs from the first occurrence of the start date to
      the first occurrence of the end date, inclusive. */
  lemma PriceSliceBounds(data: seq<DailyData>, startDate: string, endDate: string, s: int, e: int)
    requires IsFirstIndex(data, startDate, s) && IsFirstIndex(data, endDate, e)
    ensures PriceSlice(data, startDate, endDate) == [] <==> (s == -1 || e == -1 || s > e)
    ensures s != -1 && e != -1 && s <= e ==>
              |PriceSlice(data, startDate, endDate)| == e - s + 1 &&
              PriceSlice(data, startDate, endDate) == data[s..e + 1] &&
              PriceSlice(data, startDate, endDate)[0].date == startDate &&
              PriceSlice(data, startDate, endDate)[e - s].date == endDate
  {
    IndexOfDateIsFirst(data, startDate);
    IndexOfDateIsFirst(data, endDate);
    FirstIndexUnique(data, startDate, s, IndexOfDate(data, startDate));
    FirstIndexUnique(data, endDate, e, IndexOfDate(data, endDate));
  }

  /** With distinct dates, the slice between the dates stored at `a` and `b`
      is exactly the positions `a` to `b`. */
  lemma PriceSliceOfDistinctDates(data: seq<DailyData>, a: nat, b: nat)
    requires DistinctDates(data) && a <= b < |data|
    ensures PriceSlice(data, data[a].date, data[b].date) == data[a..b + 1]
  {
    IndexOfOwnDate(data, a);
    IndexOfOwnDate(data, b);
  }

  // ---------------------------------------------------------------------------
  // Grouping and sorting the loaded table (backtest.go:70-78)

  /** The records of ticker `t`, in table order. */
  function RecordsOf(records: seq<DailyData>, t: string): seq<DailyData>
    decreases |records|
  {
    if records == [] then []
    else
      var last := records[|records| - 1];
      RecordsOf(records[..|records| - 1], t) + (if last.ticker == t then [last] else [])
  }

  /** Go's read of a missing map key: the zero value, an empty slice. */
  function Lookup(m: map<string, seq<DailyData>>, t: string): seq<DailyData> {
    if t in m then m[t] else []
  }

  function Tickers(records: seq<DailyData>): set<string> {
    set r | r in records :: r.ticker
  }

  method GroupByTicker(records: seq<DailyData>) returns (m: map<string, seq<DailyData>>)
    ensures m.Keys == Tickers(records)
    ensures forall t :: Lookup(m, t) == RecordsOf(records, t)
  {
    m := map[];
    for i := 0 to |records|
      invariant m.Keys == Tickers(records[..i])
      invariant forall t :: Lookup(m, t) == RecordsOf(records[..i], t)
    {
      var record := records[i];
      assert records[..i + 1][..i] == records[..i];
      assert Tickers(records[..i + 1]) == Tickers(records[..i]) + {record.ticker};
      m := m[record.ticker := Lookup(m, record.ticker) + [record]];
    }
    assert records[..|records|] == records;
  }

  /** Every record of ticker `t` carries ticker `t`. */
  lemma {:induction false} RecordsOfTicker(records: seq<DailyData>, t: string)
    ensures forall k :: 0 <= k < |RecordsOf(records, t)| ==> RecordsOf(records, t)[k].ticker == t
    ensures multiset(RecordsOf(records, t)) <= multiset(records)
    decreases |records|
  {
    if records != [] {
      var init := records[..|records| - 1];
      RecordsOfTicker(init, t);
      assert records == init + [records[|records| - 1]];
    }
  }

  /** `sort.Slice` on one ticker's records, by date. */
  method SortByDate(data: seq<DailyData>) returns (sorted: seq<DailyData>)
    ensures IsSortingOf(sorted, data, ByDate)
  {
    ByDateIsStrictWeakOrder();
    sorted := SortedCopy(data, ByDate);
  }

  /** Sorts every group of `groups` by date, one ticker at a time. */
  method SortGroups(groups: map<string, seq<DailyData>>) returns (m: map<string, seq<DailyData>>)
    ensures m.Keys == groups.Keys
    ensures forall t :: t in m ==> IsSortingOf(m[t], groups[t], ByDate)
  {
    m := groups;
    var todo := m.Keys;
    while todo != {}
      invariant m.Keys == groups.Keys && todo <= m.Keys
      invariant forall t :: t in todo ==> m[t] == groups[t]
      invariant forall t :: t in m && t !in todo ==> IsSortingOf(m[t], groups[t], ByDate)
      decreases |todo|
    {
      var t :| t in todo;
      var sorted := SortByDate(m[t]);
      m := m[t := sorted];
      todo := todo - {t};
    }
  }

  /** The grouping and sorting in `main`: each ticker's records, as a
      date-ordered permutation. */
  method GroupAndSort(records: seq<DailyData>) returns (m: map<string, seq<DailyData>>)
    ensures m.Keys == Tickers(records)
    ensures forall t :: t in m ==> IsSortingOf(m[t], RecordsOf(records, t), ByDate)
  {
    var groups := GroupByTicker(records);
    m := SortGroups(groups);
    forall t | t in m
      ensures IsSortingOf(m[t], RecordsOf(records, t), ByDate)
    {
      assert groups[t] == Lookup(groups, t);
    }
  }
}
