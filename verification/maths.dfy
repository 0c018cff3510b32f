/**
 * The statistics helpers of the clustering engine (`maths.js`): forward
 * differences, mean, standard deviation and the linearly interpolated
 * quantile, all over exact reals.
 *
 * `Math.sqrt` has no counterpart here: the standard deviation is described by
 * the relation `IsStandardDeviation` (the non-negative square root of the
 * variance), and the one test that uses it, "at least mean plus standard
 * deviation", is decided by `AtLeastMeanPlusStd` without a root.
 */
module Maths {
  import opened Wrappers
  import opened Seqs

  /** Forward differences `values[i+1] - values[i]`: JavaScript's `map` followed by `pop`. */
  function DiffPairWise(values: seq<real>): (d: seq<real>)
    ensures |d| == if |values| == 0 then 0 else |values| - 1
    ensures forall i :: 0 <= i < |d| ==> d[i] == values[i + 1] - values[i]
  {
    if |values| == 0 then []
    else seq(|values| - 1, i requires 0 <= i < |values| - 1 => values[i + 1] - values[i])
  }

  /** The differences telescope: adding the first `k` of them to `values[0]` gives back `values[k]`. */
  lemma {:induction false} DiffPairWiseTelescopes(values: seq<real>, k: nat)
    requires k < |values|
    ensures values[0] + Sum(DiffPairWise(values)[..k]) == values[k]
  {
    if k > 0 {
      DiffPairWiseTelescopes(values, k - 1);
      var d := DiffPairWise(values);
      assert d[..k][..k - 1] == d[..k - 1];
    }
  }

  /** `Math.abs`. */
  function Abs(x: real): real {
    if x < 0.0 then -x else x
  }

  /** Left-to-right sum, as `reduce((sum, value) => sum + value, 0)`. */
  function Sum(values: seq<real>): real
  {
    if values == [] then 0.0 else Sum(values[..|values| - 1]) + values[|values| - 1]
  }

  /** `sum / values.length`; the empty list (a JavaScript `NaN`) is excluded. */
  function Mean(values: seq<real>): real
    requires |values| > 0
  {
    Sum(values) / |values| as real
  }

  /** Every element equals the first. */
  predicate Constant(values: seq<real>) {
    forall i :: 0 <= i < |values| ==> values[i] == values[0]
  }

  lemma {:induction false} SumOfConstant(values: seq<real>, c: real)
    requires forall i :: 0 <= i < |values| ==> values[i] == c
    ensures Sum(values) == |values| as real * c
  {
    if values != [] {
      SumOfConstant(values[..|values| - 1], c);
    }
  }

  /** The mean of a constant list is that constant. */
  lemma MeanOfConstant(values: seq<real>)
    requires |values| > 0 && Constant(values)
    ensures Mean(values) == values[0]
  {
    SumOfConstant(values, values[0]);
  }

  /** The squared deviations `(value - avg) * (value - avg)`. */
  function SquareDiffs(values: seq<real>, avg: real): (r: seq<real>)
    ensures |r| == |values|
    ensures forall i :: 0 <= i < |values| ==> r[i] == (values[i] - avg) * (values[i] - avg)
    ensures forall i :: 0 <= i < |r| ==> r[i] >= 0.0
  {
    var r := seq(|values|, i requires 0 <= i < |values| => (values[i] - avg) * (values[i] - avg));
    SquaresNonNegative(r, values, avg);
    r
  }

  lemma SquaresNonNegative(r: seq<real>, values: seq<real>, avg: real)
    requires |r| == |values|
    requires forall i :: 0 <= i < |values| ==> r[i] == (values[i] - avg) * (values[i] - avg)
    ensures forall i :: 0 <= i < |r| ==> r[i] >= 0.0
  {
    forall i | 0 <= i < |r|
      ensures r[i] >= 0.0
    {
      SquareNonNegative(values[i] - avg);
    }
  }

  /**
   * The population variance, `mean(squareDiffs)`, always around the recomputed
   * mean: the `avg` argument of `standardDeviation` is ignored, because the
   * guard `typeof options === 'undefined'` tests a name that is never declared.
   */
  function Variance(values: seq<real>): real
    requires |values| > 0
  {
    Mean(SquareDiffs(values, Mean(values)))
  }

  /** `std` is what `standardDeviation(values, avg)` returns, whatever `avg` is. */
  ghost predicate IsStandardDeviation(values: seq<real>, avg: real, std: real)
    requires |values| > 0
  {
    std >= 0.0 && std * std == Variance(values)
  }

  lemma {:induction false} SumNonNegative(values: seq<real>)
    requires forall i :: 0 <= i < |values| ==> values[i] >= 0.0
    ensures Sum(values) >= 0.0
  {
    if values != [] {
      SumNonNegative(values[..|values| - 1]);
    }
  }

  /** The variance is never negative, so a standard deviation always exists. */
  lemma VarianceNonNegative(values: seq<real>)
    requires |values| > 0
    ensures Variance(values) >= 0.0
  {
    var sq := SquareDiffs(values, Mean(values));
    forall i | 0 <= i < |sq|
      ensures sq[i] >= 0.0
    {
      SquareNonNegative(values[i] - Mean(values));
    }
    SumNonNegative(sq);
    assert Sum(sq) / |sq| as real >= 0.0;
  }

  lemma SquareNonNegative(x: real)
    ensures x * x >= 0.0
  {
    if x < 0.0 {
      assert x * x == (-x) * (-x);
    }
  }

  /** Multiplying both sides of `a <= b` by a non-negative `c`. */
  lemma MulLeftMonotone(a: real, b: real, c: real)
    requires a <= b && c >= 0.0
    ensures a * c <= b * c
  {
    assert b * c - a * c == (b - a) * c;
  }

  /** Multiplying both sides of `a < b` by a positive `c`. */
  lemma MulStrictMonotone(a: real, b: real, c: real)
    requires a < b && c > 0.0
    ensures a * c < b * c
  {
    assert b * c - a * c == (b - a) * c;
  }

  /** Squaring is strictly increasing on the non-negative reals. */
  lemma SquareStrictMonotone(x: real, y: real)
    requires 0.0 <= x < y
    ensures x * x < y * y
  {
    assert y * y - x * x == (y - x) * (y + x);
    MulStrictMonotone(0.0, y - x, y + x);
  }

  lemma SquareMonotone(x: real, y: real)
    requires 0.0 <= x <= y
    ensures x * x <= y * y
  {
    if x < y {
      SquareStrictMonotone(x, y);
    }
  }

  /** A constant list has variance 0, hence standard deviation 0. */
  lemma VarianceOfConstant(values: seq<real>, avg: real, std: real)
    requires |values| > 0 && Constant(values)
    ensures Variance(values) == 0.0
    ensures IsStandardDeviation(values, avg, std) ==> std == 0.0
  {
    MeanOfConstant(values);
    var sq := SquareDiffs(values, Mean(values));
    forall i | 0 <= i < |sq|
      ensures sq[i] == 0.0
    {
      assert values[i] - Mean(values) == 0.0;
    }
    SumOfConstant(sq, 0.0);
    assert Sum(sq) == 0.0;
    assert Variance(values) == Sum(sq) / |sq| as real;
    if IsStandardDeviation(values, avg, std) && std != 0.0 {
      SquareStrictMonotone(0.0, std);
    }
  }

  /**
   * `value >= mean(values) + standardDeviation(values)`, decided without a
   * square root: the excess over the mean is non-negative and its square
   * reaches the variance.
   */
  predicate AtLeastMeanPlusStd(value: real, values: seq<real>)
    requires |values| > 0
  {
    var excess := value - Mean(values);
    excess >= 0.0 && excess * excess >= Variance(values)
  }

  /** The root-free test agrees with the source's comparison for the actual standard deviation. */
  lemma AtLeastMeanPlusStdIsComparison(value: real, values: seq<real>, avg: real, std: real)
    requires |values| > 0 && IsStandardDeviation(values, avg, std)
    ensures AtLeastMeanPlusStd(value, values) <==> value >= Mean(values) + std
  {
    var e := value - Mean(values);
    if e < std {
      if e >= 0.0 {
        SquareStrictMonotone(e, std);
      }
      assert !AtLeastMeanPlusStd(value, values);
    } else {
      SquareMonotone(std, e);
      assert AtLeastMeanPlusStd(value, values);
    }
  }

  /** The percentile argument, 100 when it is not given. */
  function PercentileOrDefault(percentile: Option<real>): real {
    percentile.GetOr(100.0)
  }

  /** The position `percentile / 100 * (length - 1)` at which the quantile is read. */
  function QuantileIndex(length: nat, percentile: Option<real>): real {
    PercentileOrDefault(percentile) / 100.0 * (length as real - 1.0)
  }

  /** A fraction between 0 and 1 of a non-negative length lies between 0 and that length. */
  lemma FractionOfRange(f: real, m: real)
    requires 0.0 <= f <= 1.0 && m >= 0.0
    ensures 0.0 <= f * m <= m
  {
    MulLeftMonotone(f, 1.0, m);
    MulLeftMonotone(0.0, f, m);
  }

  lemma QuantileIndexInRange(length: nat, percentile: Option<real>)
    requires length > 0
    requires 0.0 <= PercentileOrDefault(percentile) <= 100.0
    ensures 0.0 <= QuantileIndex(length, percentile) <= length as real - 1.0
  {
    var f := PercentileOrDefault(percentile) / 100.0;
    var m := length as real - 1.0;
    assert 0.0 <= f <= 1.0;
    assert m >= 0.0;
    assert QuantileIndex(length, percentile) == f * m;
    FractionOfRange(f, m);
  }

  /** The quantile index falls on the array: between 0 and the last position. */
  predicate IndexOnArray(length: nat, index: real) {
    0.0 <= index <= length as real - 1.0
  }

  /**
   * `quantile(sortedArray, percentile)`: the element at an integral index, the
   * linear interpolation between the two neighbours of a fractional one.  An
   * index off the array (always so for an empty array, and for a percentile
   * outside [0, 100] on two or more elements) reads a missing element, so
   * there is no number (JavaScript's `undefined` or `NaN`).
   */
  function Quantile(sorted: seq<real>, percentile: Option<real>): (q: Option<real>)
    ensures q.Some? <==> IndexOnArray(|sorted|, QuantileIndex(|sorted|, percentile))
    ensures q.Some? ==> |sorted| > 0
  {
    var index := QuantileIndex(|sorted|, percentile);
    if !IndexOnArray(|sorted|, index) then None
    else
      var i := index.Floor;
      if i as real == index then Some(sorted[i])
      else
        var fraction := index - i as real;
        Some(sorted[i] + (sorted[i + 1] - sorted[i]) * fraction)
  }

  /** For a percentile in [0, 100] a non-empty array always has a quantile. */
  lemma QuantileInRangeDefined(sorted: seq<real>, percentile: Option<real>)
    requires 0.0 <= PercentileOrDefault(percentile) <= 100.0
    ensures Quantile(sorted, percentile).Some? <==> |sorted| > 0
  {
    if |sorted| > 0 {
      QuantileIndexInRange(|sorted|, percentile);
    }
  }

  /** On two or more elements a percentile above 100 or below 0 has no quantile. */
  lemma QuantileOutOfRangeUndefined(sorted: seq<real>, percentile: real)
    requires |sorted| >= 2 && (percentile < 0.0 || percentile > 100.0)
    ensures Quantile(sorted, Some(percentile)).None?
  {
    var m := |sorted| as real - 1.0;
    assert m >= 1.0;
    var f := percentile / 100.0;
    assert QuantileIndex(|sorted|, Some(percentile)) == f * m;
    if f < 0.0 {
      MulStrictMonotone(f, 0.0, m);
    } else {
      MulStrictMonotone(1.0, f, m);
    }
  }

  /** An integral index returns exactly that element. */
  lemma QuantileAtIntegralIndex(sorted: seq<real>, percentile: Option<real>, k: nat)
    requires k < |sorted| && QuantileIndex(|sorted|, percentile) == k as real
    ensures Quantile(sorted, percentile) == Some(sorted[k])
  {
  }

  /** Without a percentile the quantile is the last element. */
  lemma QuantileDefaultIsLast(sorted: seq<real>)
    requires |sorted| > 0
    ensures Quantile(sorted, None) == Some(sorted[|sorted| - 1])
  {
    QuantileAtIntegralIndex(sorted, None, |sorted| - 1);
  }

  predicate Ascending(s: seq<real>) {
    forall i, j :: 0 <= i < j < |s| ==> s[i] <= s[j]
  }

  /** The numeric order, the comparator `(a, b) => a - b` of JavaScript's `sort`. */
  function NumericLe(a: real, b: real): bool {
    a <= b
  }

  /** `sort((a, b) => a - b)`: an ascending permutation of its input. */
  function SortNumbers(values: seq<real>): (r: seq<real>)
    ensures multiset(r) == multiset(values) && |r| == |values|
    ensures Ascending(r)
  {
    SortSorted(values, NumericLe);
    Sort(values, NumericLe)
  }

  /** Values already in ascending order come back unchanged. */
  lemma SortNumbersFixesAscending(values: seq<real>)
    requires Ascending(values)
    ensures SortNumbers(values) == values
  {
    SortFixesSorted(values, NumericLe);
  }

  /** On sorted input a fractional index interpolates between its two neighbours. */
  lemma QuantileBetweenNeighbours(sorted: seq<real>, percentile: Option<real>)
    requires 0.0 <= PercentileOrDefault(percentile) <= 100.0
    requires |sorted| > 0 && Ascending(sorted)
    ensures var index := QuantileIndex(|sorted|, percentile);
            var i := index.Floor;
            0 <= i < |sorted| &&
            (i as real != index ==>
               i + 1 < |sorted| &&
               sorted[i] <= Quantile(sorted, percentile).value <= sorted[i + 1])
  {
    var index := QuantileIndex(|sorted|, percentile);
    QuantileIndexInRange(|sorted|, percentile);
    var i := index.Floor;
    if i as real != index {
      var f := index - i as real;
      assert i + 1 < |sorted|;
      var q := Quantile(sorted, percentile).value;
      assert q == sorted[i] + (sorted[i + 1] - sorted[i]) * f;
      Interpolation(sorted[i], sorted[i + 1], f);
    }
  }

  /** `a + (b - a) * f` lies between `a` and `b` for `a <= b` and `0 <= f <= 1`. */
  lemma Interpolation(a: real, b: real, f: real)
    requires a <= b && 0.0 <= f <= 1.0
    ensures a <= a + (b - a) * f <= b
  {
    MulLeftMonotone(f, 1.0, b - a);
    MulLeftMonotone(0.0, f, b - a);
  }

  /** The median: the middle element for odd length, the mean of the two middle ones for even length. */
  lemma QuantileMedian(sorted: seq<real>)
    requires |sorted| > 0
    ensures |sorted| % 2 == 1 ==>
              Quantile(sorted, Some(50.0)) == Some(sorted[|sorted| / 2])
    ensures |sorted| % 2 == 0 ==>
              Quantile(sorted, Some(50.0)) ==
                Some((sorted[|sorted| / 2 - 1] + sorted[|sorted| / 2]) / 2.0)
  {
    var n := |sorted|;
    var index := QuantileIndex(n, Some(50.0));
    assert index == (n as real - 1.0) / 2.0;
    var h := n / 2;
    if n % 2 == 1 {
      assert n == 2 * h + 1;
      assert index == h as real;
      QuantileAtIntegralIndex(sorted, Some(50.0), h);
    } else {
      assert n == 2 * h;
      assert index == h as real - 0.5;
      assert index.Floor == h - 1;
      assert index - (h - 1) as real == 0.5;
      var q := Quantile(sorted, Some(50.0)).value;
      assert q == sorted[h - 1] + (sorted[h] - sorted[h - 1]) * 0.5;
    }
  }
}
