/**
 * The eps estimators of `services.js`, which store their estimate in the
 * scale fields of a `Metrics` object.  Each one asks the k-nearest-neighbour
 * search for the distances under one metric; those distance lists are an
 * input here (`neighbours`, one list per metric), since the k-d tree is not
 * part of this model.
 */
module Services {
  import opened Wrappers
  import opened Maths
  import opened Metrics
  import opened Knn
  import Service

  /**
   * The metric a neighbour search is run with.  The scaled blend carries the
   * two scales it reads when it measures, so its distances depend on the
   * scales stored at the time of the search.
   */
  datatype MetricKind =
    | Temporal
    | Spatial
    | SpatioTemporal
    | SpatioTemporalScaled(epsTemporal: JsNumber, epsSpatial: JsNumber)
    | SpatioTemporalMaxNormalized

  /**
   * `computeEps(dataset, dimensions, metric, percentile)` of `services.js`:
   * sort the neighbour distances, drop those above the percentile, and take
   * the significant-slope estimate of what remains.  The curvature estimate
   * the source also computes is never returned.
   */
  function ComputeEps(neighbours: seq<real>, percentile: Option<real>): (eps: Option<real>)
    ensures |neighbours| < 3 ==> eps.None?
    ensures eps.Some? ==> eps.value in multiset(neighbours)
    ensures eps.Some? ==> Quantile(SortNumbers(neighbours), percentile).Some? &&
                          eps.value <= Quantile(SortNumbers(neighbours), percentile).value
  {
    var sorted := SortNumbers(neighbours);
    var kept := ExcludeOutliers(sorted, percentile);
    var eps := EpsSignificativeSlope(kept);
    if eps.Some? then
      EpsSignificativeSlopeNotLast(kept);
      var k :| 0 <= k < |kept| - 1 && eps.value == kept[k];
      assert kept[k] in multiset(kept);
      assert kept[k] in multiset(sorted);
      eps
    else
      eps
  }

  /**
   * The estimate is the start of the first significant slope of the sorted
   * distances that survive outlier exclusion, and there is none when that
   * slope does not exist.
   */
  lemma ComputeEpsIsFirstSignificantSlope(neighbours: seq<real>, percentile: Option<real>, v: real)
    ensures ComputeEps(neighbours, percentile) == Some(v) <==>
              StartsFirstSignificantSlope(ExcludeOutliers(SortNumbers(neighbours), percentile), v)
  {
    EpsSignificativeSlopeIff(ExcludeOutliers(SortNumbers(neighbours), percentile), v);
  }

  /**
   * Without a percentile nothing is excluded, so this estimator agrees with
   * the one of `service.js`, which discards the outlier-free list.
   */
  lemma ComputeEpsWithoutPercentileIsService(neighbours: seq<real>)
    ensures ComputeEps(neighbours, None) == Service.ComputeEps(neighbours)
  {
    ExcludeOutliersByDefaultKeepsAll(SortNumbers(neighbours));
  }

  /** The value stored in a scale field: `null` when there is no estimate. */
  function AsJs(eps: Option<real>): (r: JsNumber)
    ensures r.Null? <==> eps.None?
    ensures eps.Some? ==> r == Num(eps.value)
  {
    match eps
    case Some(e) => Num(e)
    case None => Null
  }

  /** `computeTemporalEps(dataset, metric, percentile)`: the temporal scale, stored and returned. */
  method ComputeTemporalEps(m: Metrics, neighbours: MetricKind -> seq<real>, percentile: Option<real>)
    returns (eps: Option<real>)
    modifies m`epsTemporal
    ensures eps == ComputeEps(neighbours(Temporal), percentile)
    ensures m.epsTemporal == AsJs(eps)
  {
    eps := ComputeEps(neighbours(Temporal), percentile);
    m.epsTemporal := AsJs(eps);
  }

  /** `computeSpatialEps(dataset, metric, percentile)`: the spatial scale, stored and returned. */
  method ComputeSpatialEps(m: Metrics, neighbours: MetricKind -> seq<real>, percentile: Option<real>)
    returns (eps: Option<real>)
    modifies m`epsSpatial
    ensures eps == ComputeEps(neighbours(Spatial), percentile)
    ensures m.epsSpatial == AsJs(eps)
  {
    eps := ComputeEps(neighbours(Spatial), percentile);
    m.epsSpatial := AsJs(eps);
  }

  /**
   * The metric the blended estimators search with: the given one when both
   * scales are defined, the unscaled blend otherwise.
   */
  function BlendedMetric(epsTemporal: JsNumber, epsSpatial: JsNumber, preferred: MetricKind): (kind: MetricKind)
    ensures kind == preferred <==> (!epsTemporal.Undefined? && !epsSpatial.Undefined?) || preferred == SpatioTemporal
    ensures kind == preferred || kind == SpatioTemporal
  {
    if !epsTemporal.Undefined? && !epsSpatial.Undefined? then preferred else SpatioTemporal
  }

  /** `computeSpatioTemporalScaledEps(dataset, metric, percentile)`: the blended scale `eps`. */
  method ComputeSpatioTemporalScaledEps(m: Metrics, neighbours: MetricKind -> seq<real>, percentile: Option<real>)
    returns (eps: Option<real>)
    modifies m`eps
    ensures eps == ComputeEps(neighbours(BlendedMetric(m.epsTemporal, m.epsSpatial, SpatioTemporalScaled(m.epsTemporal, m.epsSpatial))), percentile)
    ensures m.eps == AsJs(eps)
  {
    if !m.epsTemporal.Undefined? && !m.epsSpatial.Undefined? {
      eps := ComputeEps(neighbours(SpatioTemporalScaled(m.epsTemporal, m.epsSpatial)), percentile);
    } else {
      eps := ComputeEps(neighbours(SpatioTemporal), percentile);
    }
    m.eps := AsJs(eps);
  }

  /**
   * `computeSpatioTemporalMaxNormalizedEps(dataset, metric, percentile)`:
   * the same with the max-normalised blend.
   */
  method ComputeSpatioTemporalMaxNormalizedEps(m: Metrics, neighbours: MetricKind -> seq<real>, percentile: Option<real>)
    returns (eps: Option<real>)
    modifies m`eps
    ensures eps == ComputeEps(neighbours(BlendedMetric(m.epsTemporal, m.epsSpatial, SpatioTemporalMaxNormalized)), percentile)
    ensures m.eps == AsJs(eps)
  {
    if !m.epsTemporal.Undefined? && !m.epsSpatial.Undefined? {
      eps := ComputeEps(neighbours(SpatioTemporalMaxNormalized), percentile);
    } else {
      eps := ComputeEps(neighbours(SpatioTemporal), percentile);
    }
    m.eps := AsJs(eps);
  }

  /**
   * The temporal test case: on the ascending temporal neighbour distances
   * `[2, 2, 3, 20, 20, 30]` and no percentile, the estimate is 3.
   */
  lemma TemporalEpsExample()
    ensures ComputeEps([2.0, 2.0, 3.0, 20.0, 20.0, 30.0], None) == Some(3.0)
  {
    var d := [2.0, 2.0, 3.0, 20.0, 20.0, 30.0];
    assert Ascending(d);
    SortNumbersFixesAscending(d);
    ExcludeOutliersByDefaultKeepsAll(d);
    EpsSignificativeSlopeExample();
  }
}
