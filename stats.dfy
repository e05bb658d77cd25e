/**
 * Sample statistics shared by the recommendation engine and the workload
 * classifier: sums, the arithmetic mean, the sample standard deviation, the
 * in-place sort both analyzers apply to a copy of their samples, and the
 * interpolated percentile.
 *
 * Samples are exact reals: IEEE-754 rounding is not part of this model.
 * math.Sqrt is supplied by the caller as a SqrtFn, of which only the sign
 * of the result is known.
 */
module Stats {
  import opened Common

  /** math.Sqrt on the values it is applied to: an oracle whose only known property is that it is non-negative. */
  type SqrtFn = f: real -> real | forall x :: 0.0 <= f(x) witness (x: real) => 0.0

  // ---------------------------------------------------------------
  // Specification functions
  // ---------------------------------------------------------------

  function Sum(s: seq<real>): real
    decreases |s|
  {
    if s == [] then 0.0 else Sum(s[..|s| - 1]) + s[|s| - 1]
  }

  /** The arithmetic mean, 0 for no samples. */
  function Mean(s: seq<real>): real
  {
    if |s| == 0 then 0.0 else Sum(s) / (|s| as real)
  }

  function SumSquaredDiff(s: seq<real>, mean: real): real
    decreases |s|
  {
    if s == [] then 0.0
    else SumSquaredDiff(s[..|s| - 1], mean) + (s[|s| - 1] - mean) * (s[|s| - 1] - mean)
  }

  /** The sample standard deviation around `mean`, 0 for fewer than two samples. */
  function StdDev(s: seq<real>, mean: real, sqrt: SqrtFn): real
  {
    if |s| < 2 then 0.0 else sqrt(SumSquaredDiff(s, mean) / ((|s| - 1) as real))
  }

  predicate AllWithin(s: seq<real>, lo: real, hi: real)
  {
    forall i :: 0 <= i < |s| ==> lo <= s[i] <= hi
  }

  lemma {:induction false} SumWithin(s: seq<real>, lo: real, hi: real)
    requires AllWithin(s, lo, hi)
    ensures (|s| as real) * lo <= Sum(s) <= (|s| as real) * hi
    decreases |s|
  {
    if s != [] {
      SumWithin(s[..|s| - 1], lo, hi);
    }
  }

  /** The mean of samples lies between any bounds of the samples. */
  lemma {:induction false} MeanWithin(s: seq<real>, lo: real, hi: real)
    requires |s| > 0 && AllWithin(s, lo, hi)
    ensures lo <= Mean(s) <= hi
  {
    SumWithin(s, lo, hi);
    var n := |s| as real;
    assert n * lo <= Sum(s) <= n * hi;
    assert Sum(s) / n >= lo by { assert Sum(s) >= n * lo; }
    assert Sum(s) / n <= hi by { assert Sum(s) <= n * hi; }
  }

  lemma {:induction false} SumSquaredDiffNonNegative(s: seq<real>, mean: real)
    ensures 0.0 <= SumSquaredDiff(s, mean)
    decreases |s|
  {
    if s != [] {
      SumSquaredDiffNonNegative(s[..|s| - 1], mean);
      var d := s[|s| - 1] - mean;
      assert 0.0 <= d * d;
    }
  }

  /** Samples that all equal their mean have no spread. */
  lemma {:induction false} SumSquaredDiffOfConstant(s: seq<real>, c: real)
    requires forall i :: 0 <= i < |s| ==> s[i] == c
    ensures SumSquaredDiff(s, c) == 0.0
    decreases |s|
  {
    if s != [] {
      SumSquaredDiffOfConstant(s[..|s| - 1], c);
    }
  }

  lemma {:induction false} SumOfConstant(s: seq<real>, c: real)
    requires forall i :: 0 <= i < |s| ==> s[i] == c
    ensures Sum(s) == |s| as real * c
    decreases |s|
  {
    if s != [] {
      SumOfConstant(s[..|s| - 1], c);
    }
  }

  /** A series of one repeated value has that value as mean and no spread. */
  lemma {:induction false} ConstantSeries(s: seq<real>, c: real, sqrt: SqrtFn)
    requires |s| > 0 && forall i :: 0 <= i < |s| ==> s[i] == c
    requires sqrt(0.0) == 0.0
    ensures Mean(s) == c && StdDev(s, Mean(s), sqrt) == 0.0
  {
    SumOfConstant(s, c);
    SumSquaredDiffOfConstant(s, c);
  }

  // ---------------------------------------------------------------
  // The accumulator loops of calculateMean / calculateStandardDeviation
  // ---------------------------------------------------------------

  method CalculateMean(values: seq<real>) returns (mean: real)
    ensures mean == Mean(values)
  {
    if |values| == 0 {
      return 0.0;
    }
    var sum := 0.0;
    var i := 0;
    while i < |values|
      invariant 0 <= i <= |values|
      invariant sum == Sum(values[..i])
    {
      assert values[..i + 1][..i] == values[..i];
      sum := sum + values[i];
      i := i + 1;
    }
    assert values[..|values|] == values;
    mean := sum / (|values| as real);
  }

  lemma {:induction false} SumSquaredDiffStep(values: seq<real>, i: nat, mean: real)
    requires i < |values|
    ensures SumSquaredDiff(values[..i + 1], mean) == SumSquaredDiff(values[..i], mean) + (values[i] - mean) * (values[i] - mean)
  {
    assert values[..i + 1][..i] == values[..i];
  }

  method CalculateStandardDeviation(values: seq<real>, mean: real, sqrt: SqrtFn) returns (sd: real)
    ensures sd == StdDev(values, mean, sqrt)
    ensures 0.0 <= sd
  {
    if |values| < 2 {
      return 0.0;
    }
    var sumSquaredDiff := SquaredDiffTotal(values, mean);
    var variance := sumSquaredDiff / ((|values| - 1) as real);
    sd := sqrt(variance);
  }

  /** The accumulation loop of the standard deviation. */
  method SquaredDiffTotal(values: seq<real>, mean: real) returns (total: real)
    ensures total == SumSquaredDiff(values, mean)
  {
    total := 0.0;
    var i := 0;
    while i < |values|
      invariant 0 <= i <= |values|
      invariant total == SumSquaredDiff(values[..i], mean)
    {
      SumSquaredDiffStep(values, i, mean);
      var diff := values[i] - mean;
      total := total + diff * diff;
      i := i + 1;
    }
    assert values[..|values|] == values;
  }

  // ---------------------------------------------------------------
  // Sorting
  // ---------------------------------------------------------------

  predicate Sorted(s: seq<real>)
  {
    forall i, j :: 0 <= i < j < |s| ==> s[i] <= s[j]
  }

  /** Inserts x into a sample before its first element not below x. */
  function Insert(x: real, s: seq<real>): (r: seq<real>)
    ensures multiset(r) == multiset(s) + multiset{x}
    ensures |r| == |s| + 1
    decreases |s|
  {
    if s == [] then [x]
    else if x <= s[0] then [x] + s
    else
      assert s == [s[0]] + s[1..];
      [s[0]] + Insert(x, s[1..])
  }

  lemma {:induction false} InsertSorted(x: real, s: seq<real>)
    requires Sorted(s)
    ensures Sorted(Insert(x, s))
    decreases |s|
  {
    if s == [] {
    } else if x <= s[0] {
      ConsSorted(x, s);
    } else {
      var t := Insert(x, s[1..]);
      InsertSorted(x, s[1..]);
      forall i | 0 <= i < |t|
        ensures s[0] <= t[i]
      {
        assert t[i] in multiset(t);
        if t[i] != x {
          assert t[i] in multiset(s[1..]);
          assert t[i] in s[1..];
        }
      }
      ConsSorted(s[0], t);
    }
  }

  /** A sorted sequence stays sorted behind a head no greater than its elements. */
  lemma {:induction false} ConsSorted(h: real, t: seq<real>)
    requires Sorted(t) && forall i :: 0 <= i < |t| ==> h <= t[i]
    ensures Sorted([h] + t)
  {
    var r := [h] + t;
    forall i, j | 0 <= i < j < |r|
      ensures r[i] <= r[j]
    {
      assert r[j] == t[j - 1];
      if i > 0 {
        assert r[i] == t[i - 1];
      }
    }
  }

  /** The ascending arrangement of a sample: the reference the in-place sort is proved against. */
  function SortAscending(s: seq<real>): (r: seq<real>)
    ensures Sorted(r)
    ensures multiset(r) == multiset(s)
    ensures |r| == |s|
    decreases |s|
  {
    if s == [] then []
    else
      assert s == [s[0]] + s[1..];
      var r := Insert(s[0], SortAscending(s[1..]));
      InsertSorted(s[0], SortAscending(s[1..]));
      r
  }

  lemma {:induction false} SortedHeadIsLeast(a: seq<real>, x: real)
    requires Sorted(a) && x in multiset(a)
    ensures a[0] <= x
  {
    assert x in a;
  }

  lemma {:induction false} SortedTail(a: seq<real>)
    requires Sorted(a) && |a| > 0
    ensures Sorted(a[1..])
  {
  }

  lemma {:induction false} TailMultiset(a: seq<real>)
    requires |a| > 0
    ensures multiset(a[1..]) == multiset(a) - multiset{a[0]}
  {
    assert a == [a[0]] + a[1..];
  }

  /** Two sorted arrangements of one sample start with the same, least, element. */
  lemma {:induction false} SortedHeadsAgree(a: seq<real>, b: seq<real>)
    requires Sorted(a) && Sorted(b) && multiset(a) == multiset(b) && |a| > 0
    ensures |b| > 0 && a[0] == b[0]
  {
    assert a[0] in multiset(a);
    assert a[0] in multiset(b);
    assert b[0] in multiset(b);
    SortedHeadIsLeast(b, a[0]);
    SortedHeadIsLeast(a, b[0]);
  }

  /** Removing equal heads from two arrangements of one sample leaves arrangements of one sample. */
  lemma {:induction false} TailsPermutation(a: seq<real>, b: seq<real>)
    requires |a| > 0 && |b| > 0 && a[0] == b[0] && multiset(a) == multiset(b)
    ensures multiset(a[1..]) == multiset(b[1..])
  {
    TailMultiset(a);
    TailMultiset(b);
  }

  lemma {:induction false} ConsEqual(a: seq<real>, b: seq<real>)
    requires |a| > 0 && |b| > 0 && a[0] == b[0] && a[1..] == b[1..]
    ensures a == b
  {
    assert a == [a[0]] + a[1..];
    assert b == [b[0]] + b[1..];
  }

  /** A sample has exactly one ascending arrangement. */
  lemma {:induction false} SortedPermutationUnique(a: seq<real>, b: seq<real>)
    requires Sorted(a) && Sorted(b) && multiset(a) == multiset(b)
    ensures a == b
    decreases |a|
  {
    if |a| == 0 {
      assert |b| == |multiset(b)| == |multiset(a)| == 0;
    } else {
      SortedHeadsAgree(a, b);
      TailsPermutation(a, b);
      SortedTail(a);
      SortedTail(b);
      SortedPermutationUnique(a[1..], b[1..]);
      ConsEqual(a, b);
    }
  }

  /** Any sorted permutation of a sample is its ascending arrangement. */
  lemma {:induction false} SortedPermutationIsSortAscending(s: seq<real>, r: seq<real>)
    requires Sorted(r) && multiset(r) == multiset(s)
    ensures r == SortAscending(s)
  {
    SortedPermutationUnique(r, SortAscending(s));
  }

  method Swap(a: array<real>, i: int, j: int)
    requires 0 <= i < a.Length && 0 <= j < a.Length
    modifies a
    ensures a[..] == old(a[..])[i := old(a[j])][j := old(a[i])]
    ensures multiset(a[..]) == multiset(old(a[..]))
  {
    a[i], a[j] := a[j], a[i];
  }

  /** The first i elements are in order. */
  predicate PrefixSorted(s: seq<real>, i: int)
  {
    forall x, y :: 0 <= x < y < i && y < |s| ==> s[x] <= s[y]
  }

  /** Each of the first i elements is no greater than any later one. */
  predicate PrefixBelow(s: seq<real>, i: int)
  {
    forall x, y :: 0 <= x < i <= y < |s| ==> s[x] <= s[y]
  }

  /** s[i] is no greater than the elements strictly between i and j. */
  predicate LeastUpTo(s: seq<real>, i: int, j: int)
  {
    forall y :: 0 <= i < y < j && y < |s| ==> s[i] <= s[y]
  }

  /**
   * The exchange sort of workload_classifier.go: for every i, compare a[i]
   * with each later a[j] and swap when a[i] > a[j].
   */
  method ExchangeSort(a: array<real>)
    modifies a
    ensures Sorted(a[..])
    ensures multiset(a[..]) == multiset(old(a[..]))
  {
    var i := 0;
    while i < a.Length
      invariant 0 <= i <= a.Length
      invariant PrefixSorted(a[..], i) && PrefixBelow(a[..], i)
      invariant multiset(a[..]) == multiset(old(a[..]))
    {
      ExchangeFrom(a, i);
      ExtendPrefix(a[..], i);
      i := i + 1;
    }
  }

  /** Once the i-th element is the least of the rest, the sorted prefix grows by one. */
  lemma {:induction false} ExtendPrefix(s: seq<real>, i: int)
    requires 0 <= i < |s|
    requires PrefixSorted(s, i) && PrefixBelow(s, i) && LeastUpTo(s, i, |s|)
    ensures PrefixSorted(s, i + 1) && PrefixBelow(s, i + 1)
  {
  }

  /** One pass of the exchange sort: a[i] is swapped with every smaller later element, leaving the minimum there. */
  method ExchangeFrom(a: array<real>, i: int)
    modifies a
    requires 0 <= i < a.Length
    requires PrefixSorted(a[..], i) && PrefixBelow(a[..], i)
    ensures PrefixSorted(a[..], i) && PrefixBelow(a[..], i)
    ensures LeastUpTo(a[..], i, a.Length)
    ensures multiset(a[..]) == multiset(old(a[..]))
  {
    var j := i + 1;
    while j < a.Length
      invariant i + 1 <= j <= a.Length
      invariant PrefixSorted(a[..], i) && PrefixBelow(a[..], i) && LeastUpTo(a[..], i, j)
      invariant multiset(a[..]) == multiset(old(a[..]))
    {
      ghost var before := a[..];
      if a[i] > a[j] {
        Swap(a, i, j);
        SwapKeeps(before, a[..], i, j);
      }
      j := j + 1;
    }
  }

  /** Swapping a[i] with a smaller later a[j] keeps the pass's invariant and extends it past j. */
  lemma {:induction false} SwapKeeps(s: seq<real>, t: seq<real>, i: int, j: int)
    requires 0 <= i < j < |s| && s[i] > s[j] && t == s[i := s[j]][j := s[i]]
    requires PrefixSorted(s, i) && PrefixBelow(s, i) && LeastUpTo(s, i, j)
    ensures PrefixSorted(t, i) && PrefixBelow(t, i) && LeastUpTo(t, i, j + 1)
  {
    assert forall x :: 0 <= x < i ==> t[x] == s[x];
    forall x, y | 0 <= x < i <= y < |t|
      ensures t[x] <= t[y]
    {
      if y == i {
        assert t[y] == s[j];
      } else if y == j {
        assert t[y] == s[i];
      } else {
        assert t[y] == s[y];
      }
    }
  }

  /** Copies a sample into a fresh array, sorts the copy and returns it; the input is untouched. */
  method SortedCopy(values: seq<real>) returns (sorted: seq<real>)
    ensures sorted == SortAscending(values)
  {
    var a := new real[|values|];
    var i := 0;
    while i < |values|
      invariant 0 <= i <= |values|
      invariant a[..i] == values[..i]
    {
      a[i] := values[i];
      i := i + 1;
    }
    assert a[..] == values;
    ExchangeSort(a);
    sorted := a[..];
    SortedPermutationIsSortAscending(values, sorted);
  }

  /** sort.Float64s: the array ends up holding the ascending arrangement of its old contents. */
  method SortFloat64s(a: array<real>)
    modifies a
    ensures a[..] == SortAscending(old(a[..]))
  {
    ghost var before := a[..];
    ExchangeSort(a);
    SortedPermutationIsSortAscending(before, a[..]);
  }

  /** In a sorted sequence every element lies between the first and the last. */
  lemma {:induction false} SortedMemberBetween(r: seq<real>, x: real)
    requires Sorted(r) && x in r
    ensures r[0] <= x <= r[|r| - 1]
  {
    var k :| 0 <= k < |r| && r[k] == x;
  }

  /** The ends of the ascending arrangement are the least and the greatest sample. */
  lemma {:induction false} SortedEnds(s: seq<real>)
    requires |s| > 0
    ensures SortAscending(s)[0] in s && SortAscending(s)[|s| - 1] in s
    ensures forall i :: 0 <= i < |s| ==> SortAscending(s)[0] <= s[i] <= SortAscending(s)[|s| - 1]
  {
    var r := SortAscending(s);
    assert Sorted(r) && multiset(r) == multiset(s) && |r| == |s|;
    assert r[0] in multiset(r) && r[|r| - 1] in multiset(r);
    assert r[0] in multiset(s) && r[|r| - 1] in multiset(s);
    forall i | 0 <= i < |s|
      ensures r[0] <= s[i] <= r[|s| - 1]
    {
      assert s[i] in multiset(s);
      assert s[i] in multiset(r);
      SortedMemberBetween(r, s[i]);
    }
  }

  // ---------------------------------------------------------------
  // Interpolated percentile
  // ---------------------------------------------------------------

  /** math.Ceil of a real, as an integer. */
  function Ceil(x: real): (c: int)
    ensures x <= c as real < x + 1.0
  {
    if x == x.Floor as real then x.Floor else x.Floor + 1
  }

  /** The point a weight w of the way from lo to hi. */
  function Lerp(lo: real, hi: real, w: real): real
  {
    lo * (1.0 - w) + hi * w
  }

  /** Weighted between two values, a weight in (0, 1) gives a value between them. */
  lemma {:induction false} Between(lo: real, hi: real, w: real)
    requires lo <= hi && 0.0 < w < 1.0
    ensures lo <= Lerp(lo, hi, w) <= hi
  {
    NonNegativeProduct(w, hi - lo);
    NonNegativeProduct(1.0 - w, hi - lo);
    assert lo * (1.0 - w) + hi * w - lo == w * (hi - lo);
    assert hi - (lo * (1.0 - w) + hi * w) == (1.0 - w) * (hi - lo);
  }

  lemma {:induction false} NonNegativeProduct(a: real, b: real)
    requires 0.0 <= a && 0.0 <= b
    ensures 0.0 <= a * b
  {
  }

  lemma {:induction false} NegativeProduct(a: real, b: real)
    requires a < 0.0 < b
    ensures a * b < 0.0
  {
  }

  /** The fractional rank p/100 * (n - 1) of a percentile among n samples. */
  function Rank(n: nat, p: real): (index: real)
    requires 0 < n && 0.0 <= p <= 100.0
    ensures 0.0 <= index <= (n - 1) as real
  {
    var m := (n - 1) as real;
    NonNegativeProduct(p / 100.0, m);
    NonNegativeProduct(1.0 - p / 100.0, m);
    assert m - (p / 100.0) * m == (1.0 - p / 100.0) * m;
    (p / 100.0) * m
  }

  /**
   * Linear interpolation between the two order statistics around the
   * fractional rank of p.
   */
  function Interpolate(sorted: seq<real>, p: real): (r: real)
    requires |sorted| > 0 && 0.0 <= p <= 100.0
    ensures Sorted(sorted) ==> sorted[0] <= r <= sorted[|sorted| - 1]
  {
    var index := Rank(|sorted|, p);
    var lower := index.Floor;
    var upper := Ceil(index);
    if lower == upper then sorted[lower]
    else
      var weight := index - lower as real;
      var r := Lerp(sorted[lower], sorted[upper], weight);
      if Sorted(sorted) then
        Between(sorted[lower], sorted[upper], weight);
        assert sorted[0] <= sorted[lower] && sorted[upper] <= sorted[|sorted| - 1];
        r
      else r
  }
}
