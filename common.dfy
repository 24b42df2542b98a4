/** Shared vocabulary: optional values, the statistics the programs take from
    gonum's `stat` package and Go's `math` package, sums, and the ordering
    that `sort.Slice` is asked to establish. */
module Common {

  datatype Option<T> = None | Some(value: T)

  /** The numerical library routines the programs call, kept uninterpreted.
      `stdDev` is gonum's unweighted sample standard deviation, `correlation`
      its Pearson coefficient, `sqrt` Go's math.Sqrt and `isFinite` the
      filter `!math.IsNaN(x) && !math.IsInf(x, 0)`. */
  datatype Statistics = Statistics(
    stdDev: seq<real> -> real,
    correlation: (seq<real>, seq<real>) -> real,
    sqrt: real -> real,
    isFinite: real -> bool)
  {
    /** The only facts about the library that the model relies on. */
    ghost predicate Valid() {
      && (forall xs: seq<real> :: stdDev(xs) >= 0.0)
      && sqrt(0.0) == 0.0
      && (forall x: real :: x > 0.0 ==> sqrt(x) > 0.0)
    }
  }

  /** Left-to-right sum, the order in which the source's `+=` loops add. */
  function Sum(xs: seq<real>): real
    decreases |xs|
  {
    if xs == [] then 0.0 else Sum(xs[..|xs| - 1]) + xs[|xs| - 1]
  }

  /** Division, with the quotient by zero (an IEEE infinity or NaN in Go)
      replaced by 0. */
  function Quotient(a: real, b: real): real {
    if b == 0.0 then 0.0 else a / b
  }

  /** The arithmetic mean: gonum's `stat.Mean` with no weights, and the
      `sum / float64(len(...))` the programs write out. */
  function Mean(xs: seq<real>): real {
    Quotient(Sum(xs), |xs| as real)
  }

  /** Go's `math.Abs`, and the `abs` helper of risk_sentinel/whale_tracker.go. */
  function Abs(x: real): real {
    if x < 0.0 then -x else x
  }

  lemma AbsSpec(x: real)
    ensures Abs(x) >= 0.0
    ensures Abs(x) == x || Abs(x) == -x
    ensures Abs(x) == Abs(-x)
  {
  }

  /** A size below `bound` is a value strictly between `-bound` and `bound`. */
  lemma AbsBelow(x: real, bound: real)
    ensures Abs(x) < bound <==> -bound < x < bound
  {
  }

  function Min(a: int, b: int): int {
    if a <= b then a else b
  }

  /** A comparison `less` that `sort.Slice` can sort by: asymmetric, and its
      negation is transitive. */
  ghost predicate StrictWeakOrder<T(!new)>(less: (T, T) -> bool) {
    && (forall x: T, y: T :: less(x, y) ==> !less(y, x))
    && (forall x: T, y: T, z: T :: !less(x, y) && !less(y, z) ==> !less(x, z))
  }

  /** No later element is `less` than an earlier one. */
  predicate SortedBy<T>(s: seq<T>, less: (T, T) -> bool) {
    forall i, j :: 0 <= i < j < |s| ==> !less(s[j], s[i])
  }

  /** What `sort.Slice(s, less)` promises: `sorted` is a permutation of `s`
      ordered by `less`. Nothing is said about the order of equal elements,
      since Go's sort.Slice is not stable. */
  ghost predicate IsSortingOf<T>(sorted: seq<T>, s: seq<T>, less: (T, T) -> bool) {
    SortedBy(sorted, less) && multiset(sorted) == multiset(s)
  }

  /** In-place sort of an array, standing for `sort.Slice`. */
  method SortBy<T(!new)>(a: array<T>, less: (T, T) -> bool)
    requires StrictWeakOrder(less)
    modifies a
    ensures IsSortingOf(a[..], old(a[..]), less)
  {
    for i := 0 to a.Length
      invariant SortedBy(a[..i], less)
      invariant multiset(a[..]) == multiset(old(a[..]))
    {
      InsertAt(a, less, i);
    }
    assert a[..a.Length] == a[..];
  }

  /** Moves `a[i]` down into the sorted prefix `a[..i]` by swaps. */
  method InsertAt<T(!new)>(a: array<T>, less: (T, T) -> bool, i: int)
    requires StrictWeakOrder(less) && 0 <= i < a.Length && SortedBy(a[..i], less)
    modifies a
    ensures SortedBy(a[..i + 1], less)
    ensures multiset(a[..]) == multiset(old(a[..]))
  {
    var j := i;
    while j > 0 && less(a[j], a[j - 1])
      invariant 0 <= j <= i
      invariant forall k, l :: 0 <= k < l <= i && k != j && l != j ==> !less(a[l], a[k])
      invariant forall l :: j < l <= i ==> !less(a[l], a[j])
      invariant multiset(a[..]) == multiset(old(a[..]))
    {
      Swap(a, j - 1, j);
      j := j - 1;
    }
  }

  method Swap<T>(a: array<T>, i: int, j: int)
    requires 0 <= i < a.Length && 0 <= j < a.Length
    modifies a
    ensures a[i] == old(a[j]) && a[j] == old(a[i])
    ensures forall k :: 0 <= k < a.Length && k != i && k != j ==> a[k] == old(a[k])
    ensures multiset(a[..]) == multiset(old(a[..]))
  {
    a[i], a[j] := a[j], a[i];
  }

  /** Copies a sequence into a fresh array, sorts it in place and returns the
      result: the shape of `sort.Slice` applied to a slice. */
  method SortedCopy<T(!new)>(s: seq<T>, less: (T, T) -> bool) returns (r: seq<T>)
    requires StrictWeakOrder(less)
    ensures IsSortingOf(r, s, less)
  {
    var a := new T[|s|](i requires 0 <= i < |s| => s[i]);
    assert a[..] == s;
    SortBy(a, less);
    r := a[..];
  }
}
