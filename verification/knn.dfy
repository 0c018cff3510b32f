/**
 * The nearest-neighbour helper of the clustering engine (`knn/knn.js`): the
 * `KNN` object over a copy of the dataset, outlier exclusion by quantile, and
 * the two estimators of a neighbourhood radius `eps` from the sorted
 * nearest-neighbour distances ("first significant slope" and "maximal
 * curvature").
 *
 * The k-d tree and the neighbour query it answers (`kNeighbors`) are not part
 * of this model: the nearest-neighbour distances are inputs.
 */
module Knn {
  import opened Wrappers
  import opened Maths
  import opened Metrics

  /** The object state the constructor sets up: its own copy of the dataset and `ns = 2`. */
  class Knn {
    var points: array<Point>
    var ns: nat

    constructor (dataset: array<Point>)
      ensures fresh(points) && points[..] == dataset[..]
      ensures ns == 2
    {
      points := new Point[dataset.Length](i requires 0 <= i < dataset.Length reads dataset => dataset[i]);
      ns := 2;
    }
  }

  /** The distances not above `bound`, in their order (`filter(distance => distance <= q)`). */
  function AtMost(distances: seq<real>, bound: real): (r: seq<real>)
    ensures |r| <= |distances|
    ensures forall x {:trigger multiset(r)[x]} ::
              multiset(r)[x] == if x <= bound then multiset(distances)[x] else 0
  {
    if distances == [] then []
    else
      var init, last := distances[..|distances| - 1], distances[|distances| - 1];
      assert distances == init + [last];
      AtMost(init, bound) + (if last <= bound then [last] else [])
  }

  /** The filter distributes over concatenation, so the kept distances stay in their input order. */
  lemma {:induction false} AtMostOfConcat(a: seq<real>, b: seq<real>, bound: real)
    ensures AtMost(a + b, bound) == AtMost(a, bound) + AtMost(b, bound)
    decreases |b|
  {
    if b == [] {
      assert a + b == a;
    } else {
      var init, last := b[..|b| - 1], b[|b| - 1];
      assert b == init + [last];
      assert a + b == (a + init) + [last];
      assert (a + b)[..|a + b| - 1] == a + init;
      AtMostOfConcat(a, init, bound);
    }
  }

  /** When every distance is within the bound, all are kept. */
  lemma {:induction false} AtMostKeepsAll(distances: seq<real>, bound: real)
    requires forall i :: 0 <= i < |distances| ==> distances[i] <= bound
    ensures AtMost(distances, bound) == distances
    decreases |distances|
  {
    if distances != [] {
      var init := distances[..|distances| - 1];
      AtMostKeepsAll(init, bound);
      assert distances == init + [distances[|distances| - 1]];
    }
  }

  /** On ascending input the kept distances are a prefix, and exactly the ones within the bound. */
  lemma {:induction false} AtMostOfAscendingIsPrefix(distances: seq<real>, bound: real)
    requires Ascending(distances)
    ensures var r := AtMost(distances, bound);
            && r == distances[..|r|]
            && (forall i :: 0 <= i < |r| ==> distances[i] <= bound)
            && (forall i :: |r| <= i < |distances| ==> distances[i] > bound)
    decreases |distances|
  {
    if distances != [] {
      var n := |distances|;
      var init, last := distances[..n - 1], distances[n - 1];
      assert distances == init + [last];
      assert Ascending(init) by {
        forall i, j | 0 <= i < j < |init| ensures init[i] <= init[j] {
          assert init[i] == distances[i] && init[j] == distances[j];
        }
      }
      AtMostOfAscendingIsPrefix(init, bound);
      var r0 := AtMost(init, bound);
      if last <= bound {
        forall i | 0 <= i < n - 1 ensures init[i] <= bound {
          assert distances[i] <= distances[n - 1];
        }
        AtMostKeepsAll(init, bound);
      }
    }
  }

  /**
   * `excludeOutliers`: the distances not above the given percentile of the
   * (sorted) distances.  Without a quantile (an empty input, or an index off
   * the array) the comparison with `undefined` or `NaN` keeps nothing.
   */
  function ExcludeOutliers(distances: seq<real>, percentile: Option<real>): (r: seq<real>)
    ensures Quantile(distances, percentile).None? ==> r == []
    ensures Quantile(distances, percentile).Some? ==>
              forall x {:trigger multiset(r)[x]} ::
                multiset(r)[x] == if x <= Quantile(distances, percentile).value then multiset(distances)[x] else 0
    ensures |distances| == 0 ==> r == []
  {
    match Quantile(distances, percentile)
    case None => []
    case Some(q) => AtMost(distances, q)
  }

  /** Without a percentile nothing of a sorted list is an outlier. */
  lemma ExcludeOutliersByDefaultKeepsAll(distances: seq<real>)
    requires Ascending(distances)
    ensures ExcludeOutliers(distances, None) == distances
  {
    if distances != [] {
      QuantileDefaultIsLast(distances);
      AtMostKeepsAll(distances, distances[|distances| - 1]);
    }
  }

  /**
   * On a sorted list the kept distances are a prefix that reaches at least the
   * position at which the quantile is read.
   */
  lemma ExcludeOutliersKeepsLowPrefix(distances: seq<real>, percentile: Option<real>)
    requires 0.0 <= PercentileOrDefault(percentile) <= 100.0
    requires |distances| > 0 && Ascending(distances)
    ensures var r := ExcludeOutliers(distances, percentile);
            r == distances[..|r|] &&
            QuantileIndex(|distances|, percentile).Floor < |r|
  {
    QuantileInRangeDefined(distances, percentile);
    QuantileBetweenNeighbours(distances, percentile);
    var q := Quantile(distances, percentile).value;
    var i := QuantileIndex(|distances|, percentile).Floor;
    assert distances[i] <= q;
    AtMostOfAscendingIsPrefix(distances, q);
  }

  /** The threshold below which a slope counts as flat. */
  const FlatSlope: real := 0.0001

  /** The slopes above `FlatSlope`, in order (`filter(diff => diff > 0.0001)`). */
  function SlopesNotZero(slopes: seq<real>): (r: seq<real>)
    ensures |r| <= |slopes|
    ensures forall i :: 0 <= i < |r| ==> r[i] > FlatSlope
    ensures forall x {:trigger multiset(r)[x]} ::
              multiset(r)[x] == if x > FlatSlope then multiset(slopes)[x] else 0
  {
    if slopes == [] then []
    else
      var init, last := slopes[..|slopes| - 1], slopes[|slopes| - 1];
      assert slopes == init + [last];
      var r0 := SlopesNotZero(init);
      var r := r0 + (if last > FlatSlope then [last] else []);
      assert forall i :: 0 <= i < |r| ==> r[i] > FlatSlope by {
        forall i | 0 <= i < |r| ensures r[i] > FlatSlope {
          if i < |r0| {
            assert r[i] == r0[i];
          }
        }
      }
      r
  }

  /** The filter distributes over concatenation, so the kept slopes stay in their input order. */
  lemma {:induction false} SlopesNotZeroOfConcat(a: seq<real>, b: seq<real>)
    ensures SlopesNotZero(a + b) == SlopesNotZero(a) + SlopesNotZero(b)
    decreases |b|
  {
    if b == [] {
      assert a + b == a;
    } else {
      var init, last := b[..|b| - 1], b[|b| - 1];
      assert b == init + [last];
      assert a + b == (a + init) + [last];
      assert (a + b)[..|a + b| - 1] == a + init;
      SlopesNotZeroOfConcat(a, init);
    }
  }

  /**
   * `slopes.findIndex(slope => slope >= avg + std)` from position `from`, with
   * the mean and standard deviation of `reference`; -1 when none qualifies.
   */
  function FindSignificant(slopes: seq<real>, reference: seq<real>, from: nat): (k: int)
    requires |reference| > 0 && from <= |slopes|
    ensures k == -1 || from <= k < |slopes|
    ensures k == -1 <==> forall j :: from <= j < |slopes| ==> !AtLeastMeanPlusStd(slopes[j], reference)
    ensures k != -1 ==> AtLeastMeanPlusStd(slopes[k], reference) &&
                        forall j :: from <= j < k ==> !AtLeastMeanPlusStd(slopes[j], reference)
    decreases |slopes| - from
  {
    if from == |slopes| then -1
    else if AtLeastMeanPlusStd(slopes[from], reference) then from
    else FindSignificant(slopes, reference, from + 1)
  }

  /** Some slope is at least the mean plus one standard deviation of the non-flat slopes. */
  predicate HasSignificantSlope(distances: seq<real>)
    requires |SlopesNotZero(DiffPairWise(distances))| > 0
  {
    var slopes := DiffPairWise(distances);
    exists j :: 0 <= j < |slopes| && AtLeastMeanPlusStd(slopes[j], SlopesNotZero(slopes))
  }

  /**
   * `epsSignificativeSlope`: the distance at which the first significant
   * slope of the sorted distances starts.  There is none for fewer than three
   * distances, when every slope is flat, or when no slope reaches the mean
   * plus one standard deviation of the non-flat slopes.
   */
  function EpsSignificativeSlope(distances: seq<real>): (eps: Option<real>)
    ensures eps.Some? <==>
              |distances| >= 3 && |SlopesNotZero(DiffPairWise(distances))| > 0 &&
              HasSignificantSlope(distances)
  {
    if |distances| < 3 then None
    else
      var slopes := DiffPairWise(distances);
      var nz := SlopesNotZero(slopes);
      if |nz| > 0 then
        var k := FindSignificant(slopes, nz, 0);
        if k == -1 then
          assert !HasSignificantSlope(distances);
          None
        else
          assert HasSignificantSlope(distances);
          Some(distances[k])
      else None
  }

  /**
   * The estimate is the distance at which the first significant slope
   * starts: that slope reaches the mean plus one standard deviation of the
   * non-flat slopes, and no earlier one does.
   */
  lemma EpsSignificativeSlopeIsFirstSignificant(distances: seq<real>)
    requires EpsSignificativeSlope(distances).Some?
    ensures var slopes := DiffPairWise(distances);
            var nz := SlopesNotZero(slopes);
            exists k :: 0 <= k < |slopes| && EpsSignificativeSlope(distances).value == distances[k] &&
                        AtLeastMeanPlusStd(slopes[k], nz) &&
                        forall j :: 0 <= j < k ==> !AtLeastMeanPlusStd(slopes[j], nz)
  {
    var slopes := DiffPairWise(distances);
    var nz := SlopesNotZero(slopes);
    var k := FindSignificant(slopes, nz, 0);
    assert k != -1 && EpsSignificativeSlope(distances) == Some(distances[k]);
    assert 0 <= k < |slopes| && AtLeastMeanPlusStd(slopes[k], nz);
  }

  /**
   * `v` is the distance at which the first significant slope starts: there
   * are at least three distances, some non-flat slope, and a first slope `k`
   * (flat ones included) that reaches the mean plus one standard deviation of
   * the non-flat slopes, with `v == distances[k]`.
   */
  ghost predicate StartsFirstSignificantSlope(distances: seq<real>, v: real) {
    var slopes := DiffPairWise(distances);
    var nz := SlopesNotZero(slopes);
    && |distances| >= 3 && |nz| > 0
    && exists k :: 0 <= k < |slopes| && v == distances[k] &&
                   AtLeastMeanPlusStd(slopes[k], nz) &&
                   forall j :: 0 <= j < k ==> !AtLeastMeanPlusStd(slopes[j], nz)
  }

  /** The estimate is exactly the start of the first significant slope, and there is none otherwise. */
  lemma EpsSignificativeSlopeIff(distances: seq<real>, v: real)
    ensures EpsSignificativeSlope(distances) == Some(v) <==> StartsFirstSignificantSlope(distances, v)
  {
    if EpsSignificativeSlope(distances) == Some(v) {
      EpsSignificativeSlopeIsFirstSignificant(distances);
    }
    if StartsFirstSignificantSlope(distances, v) {
      var slopes := DiffPairWise(distances);
      var nz := SlopesNotZero(slopes);
      var k :| 0 <= k < |slopes| && v == distances[k] && AtLeastMeanPlusStd(slopes[k], nz) &&
               forall j :: 0 <= j < k ==> !AtLeastMeanPlusStd(slopes[j], nz);
      var f := FindSignificant(slopes, nz, 0);
      assert f == k;
    }
  }

  /** The significant slope never starts at the last distance. */
  lemma EpsSignificativeSlopeNotLast(distances: seq<real>)
    requires EpsSignificativeSlope(distances).Some?
    ensures exists k :: 0 <= k < |distances| - 1 && EpsSignificativeSlope(distances).value == distances[k]
  {
    EpsSignificativeSlopeIsFirstSignificant(distances);
  }

  /**
   * The distances `[2, 2, 3, 20, 20, 30]` have slopes `[0, 1, 17, 0, 10]`;
   * the non-flat ones have mean 28/3 and variance 1158/27, and 17 is the
   * first slope at least one standard deviation above the mean, so the
   * estimate is the distance 3 at which it starts.
   */
  lemma EpsSignificativeSlopeExample()
    ensures EpsSignificativeSlope([2.0, 2.0, 3.0, 20.0, 20.0, 30.0]) == Some(3.0)
  {
    var d := [2.0, 2.0, 3.0, 20.0, 20.0, 30.0];
    var slopes := DiffPairWise(d);
    assert slopes == [0.0, 1.0, 17.0, 0.0, 10.0];
    ExampleSlopesNotZero();
    var nz := [1.0, 17.0, 10.0];
    ExampleSignificance();
    assert FindSignificant(slopes, nz, 2) == 2;
    assert FindSignificant(slopes, nz, 1) == 2;
    assert FindSignificant(slopes, nz, 0) == 2;
  }

  lemma ExampleSlopesNotZero()
    ensures SlopesNotZero([0.0, 1.0, 17.0, 0.0, 10.0]) == [1.0, 17.0, 10.0]
  {
    assert [0.0][..0] == [];
    assert SlopesNotZero([0.0]) == [];
    assert [0.0, 1.0][..1] == [0.0];
    assert SlopesNotZero([0.0, 1.0]) == [1.0];
    assert [0.0, 1.0, 17.0][..2] == [0.0, 1.0];
    assert SlopesNotZero([0.0, 1.0, 17.0]) == [1.0, 17.0];
    assert [0.0, 1.0, 17.0, 0.0][..3] == [0.0, 1.0, 17.0];
    assert SlopesNotZero([0.0, 1.0, 17.0, 0.0]) == [1.0, 17.0];
    assert [0.0, 1.0, 17.0, 0.0, 10.0][..4] == [0.0, 1.0, 17.0, 0.0];
  }

  lemma ExampleSignificance()
    ensures !AtLeastMeanPlusStd(0.0, [1.0, 17.0, 10.0])
    ensures !AtLeastMeanPlusStd(1.0, [1.0, 17.0, 10.0])
    ensures AtLeastMeanPlusStd(17.0, [1.0, 17.0, 10.0])
  {
    ExampleStatistics();
    assert (17.0 - 28.0 / 3.0) * (17.0 - 28.0 / 3.0) == 529.0 / 9.0;
  }

  lemma ExampleStatistics()
    ensures Mean([1.0, 17.0, 10.0]) == 28.0 / 3.0
    ensures Variance([1.0, 17.0, 10.0]) == 1158.0 / 27.0
  {
    var nz := [1.0, 17.0, 10.0];
    assert nz[..2] == [1.0, 17.0];
    assert nz[..2][..1] == [1.0];
    assert nz[..2][..1][..0] == [];
    assert Sum(nz[..1]) == 1.0;
    assert Sum(nz[..2]) == 18.0;
    assert Sum(nz) == 28.0;
    var sq := SquareDiffs(nz, 28.0 / 3.0);
    assert sq == [625.0 / 9.0, 529.0 / 9.0, 4.0 / 9.0];
    assert sq[..2] == [625.0 / 9.0, 529.0 / 9.0];
    assert sq[..2][..1] == [625.0 / 9.0];
    assert sq[..2][..1][..0] == [];
    assert Sum(sq[..1]) == 625.0 / 9.0;
    assert Sum(sq[..2]) == 1154.0 / 9.0;
    assert Sum(sq) == 1158.0 / 9.0;
  }

  /**
   * The position of the first largest value, as
   * `curvative.indexOf(Math.max(...curvative))`.
   */
  function IndexOfMax(values: seq<real>): (i: nat)
    requires |values| > 0
    ensures i < |values|
    ensures forall j :: 0 <= j < |values| ==> values[j] <= values[i]
    ensures forall j :: 0 <= j < i ==> values[j] < values[i]
  {
    if |values| == 1 then 0
    else
      var init := values[..|values| - 1];
      var k := IndexOfMax(init);
      assert forall j :: 0 <= j < |init| ==> init[j] == values[j];
      if values[|values| - 1] > values[k] then |values| - 1 else k
  }

  /**
   * `epsMaxCurvative`: for at least three distances, the distance mirrored
   * from the position of maximal curvature, counted from the end.  The
   * curvature values themselves (built with `atan2` and square roots from the
   * slopes) are an input, one per interior distance.
   */
  function EpsMaxCurvative(distances: seq<real>, curvative: seq<real>): (eps: Option<real>)
    requires |distances| >= 3 ==> |curvative| == |distances| - 2
    ensures eps.None? <==> |distances| < 3
    ensures eps.Some? ==>
              var i := IndexOfMax(curvative);
              eps.value == distances[|distances| - i - 1] &&
              forall j :: 0 <= j < |curvative| ==> curvative[j] <= curvative[i]
  {
    if |distances| < 3 then None
    else Some(distances[|distances| - IndexOfMax(curvative) - 1])
  }

  /** The curvature estimate is never the first or second distance. */
  lemma EpsMaxCurvativeSkipsFirstTwo(distances: seq<real>, curvative: seq<real>)
    requires |distances| >= 3 && |curvative| == |distances| - 2
    ensures exists k :: 2 <= k < |distances| && EpsMaxCurvative(distances, curvative) == Some(distances[k])
  {
    var k := |distances| - IndexOfMax(curvative) - 1;
    assert EpsMaxCurvative(distances, curvative) == Some(distances[k]);
  }
}
