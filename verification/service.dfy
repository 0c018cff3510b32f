/**
 * The parameter side of the clustering service (`service.js`): the
 * reachability list fed to the extractor, the temporal and spatial eps
 * estimates with their floors, and the filling of the missing clustering
 * parameters.
 *
 * The constants of `consts.js` (the two floors, the percentile, the default
 * bound and the coarse coefficient) and the parameters `defaultParameters`
 * reads from the settings are inputs here.  The nearest-neighbour distances
 * the k-d tree would compute are inputs too, one list per metric.
 */
module Service {
  import opened Wrappers
  import opened Maths
  import opened Metrics
  import opened Knn
  import Gradient

  /** The constants of `consts.js` that `service.js` reads. */
  datatype Consts = Consts(minEpsTemporal: real, minEpsSpatial: real, percentile: Option<real>,
                           defaultMaxBound: real, coarseCoefficient: real)

  /**
   * `reachabilities(dataset, metric, params)`: `Number.MAX_VALUE` for the
   * first point, then the distance of each point to its predecessor in the
   * (time-sorted) dataset, measured with the parameters' two scales.
   */
  method Reachabilities<P>(dataset: seq<P>, metric: (P, P, JsNumber, JsNumber) -> real, params: Params)
    returns (r: seq<real>)
    ensures |r| == if |dataset| == 0 then 1 else |dataset|
    ensures r[0] == Gradient.MaxValue
    ensures forall i :: 1 <= i < |r| ==>
              r[i] == metric(dataset[i - 1], dataset[i], params.epsTemporal, params.epsSpatial)
  {
    r := [Gradient.MaxValue];
    var i := 1;
    while i < |dataset|
      invariant 1 <= i <= if |dataset| == 0 then 1 else |dataset|
      invariant |r| == i && r[0] == Gradient.MaxValue
      invariant forall k :: 1 <= k < i ==>
                  r[k] == metric(dataset[k - 1], dataset[k], params.epsTemporal, params.epsSpatial)
    {
      var dist := metric(dataset[i - 1], dataset[i], params.epsTemporal, params.epsSpatial);
      r := r + [dist];
      i := i + 1;
    }
  }

  /**
   * `computeEps(dataset, metric, dimensions, percentile)` of `service.js`:
   * the significant-slope estimate on the sorted neighbour distances.  The
   * list `excludeOutliers` returns is dropped, so the percentile has no
   * effect and no distance is removed.
   */
  function ComputeEps(neighbours: seq<real>): (eps: Option<real>)
    ensures |neighbours| < 3 ==> eps.None?
    ensures eps.Some? ==> eps.value in neighbours
  {
    var sorted := SortNumbers(neighbours);
    var eps := EpsSignificativeSlope(sorted);
    if eps.Some? then
      EpsSignificativeSlopeNotLast(sorted);
      var k :| 0 <= k < |sorted| - 1 && eps.value == sorted[k];
      assert sorted[k] in multiset(sorted);
      assert eps.value in multiset(neighbours);
      eps
    else
      eps
  }

  /**
   * The estimate is the start of the first significant slope of all the
   * sorted distances, and there is none when that slope does not exist.
   */
  lemma ComputeEpsIsFirstSignificantSlope(neighbours: seq<real>, v: real)
    ensures ComputeEps(neighbours) == Some(v) <==> StartsFirstSignificantSlope(SortNumbers(neighbours), v)
  {
    EpsSignificativeSlopeIff(SortNumbers(neighbours), v);
  }

  /**
   * The floor applied by `computeEpsTemporal` and `computeEpsSpatial`: an
   * estimate at or above the floor is kept, anything else gives the floor.
   * A missing estimate (`null`) compares as 0, so it is kept, as `null`,
   * only when the floor is not positive.
   */
  function AtLeast(eps: Option<real>, floor: real): (r: JsNumber)
    ensures r.Num? ==> r.value >= floor
    ensures eps.Some? ==> r == Num(if eps.value >= floor then eps.value else floor)
    ensures eps.None? ==> (r.Null? <==> floor <= 0.0)
    ensures r.Null? || r.Num?
  {
    match eps
    case Some(e) => if e >= floor then Num(e) else Num(floor)
    case None => if 0.0 >= floor then Null else Num(floor)
  }

  /** `computeEpsTemporal(dataset, percentile)`, from the temporal neighbour distances. */
  function ComputeEpsTemporal(neighbours: seq<real>, consts: Consts): (r: JsNumber)
    ensures consts.minEpsTemporal > 0.0 ==> r.Num? && r.value >= consts.minEpsTemporal
  {
    AtLeast(ComputeEps(neighbours), consts.minEpsTemporal)
  }

  /** `computeEpsSpatial(dataset, percentile)`, from the spatial neighbour distances. */
  function ComputeEpsSpatial(neighbours: seq<real>, consts: Consts): (r: JsNumber)
    ensures consts.minEpsSpatial > 0.0 ==> r.Num? && r.value >= consts.minEpsSpatial
  {
    AtLeast(ComputeEps(neighbours), consts.minEpsSpatial)
  }

  /** `Math.max` of two scales, neither of them `undefined` (`null` counts as 0). */
  function MaxScale(a: JsNumber, b: JsNumber): (m: real)
    requires !a.Undefined? && !b.Undefined?
    ensures m >= a.ToReal() && m >= b.ToReal()
    ensures m == a.ToReal() || m == b.ToReal()
  {
    if a.ToReal() >= b.ToReal() then a.ToReal() else b.ToReal()
  }

  /** The four clustering parameters `service.js` reads and fills. */
  datatype ParamValues = ParamValues(epsTemporal: JsNumber, epsSpatial: JsNumber,
                                     maxBound: JsNumber, cosAngle: JsNumber)

  /**
   * The parameters after `clusteringParameters`: each falsy one is computed,
   * the others are kept.  The bound defaults to twice the larger scale, capped
   * by the default bound; the angle to `gradientAngle` of the larger scale
   * with the coarse coefficient.
   */
  function Filled(p: ParamValues, temporal: seq<real>, spatial: seq<real>, consts: Consts): (r: ParamValues)
    ensures !p.epsTemporal.Falsy() ==> r.epsTemporal == p.epsTemporal
    ensures !p.epsSpatial.Falsy() ==> r.epsSpatial == p.epsSpatial
    ensures !p.maxBound.Falsy() ==> r.maxBound == p.maxBound
    ensures !p.cosAngle.Falsy() ==> r.cosAngle == p.cosAngle
    ensures !r.epsTemporal.Undefined? && !r.epsSpatial.Undefined?
    ensures p.epsTemporal.Falsy() ==> r.epsTemporal == ComputeEpsTemporal(temporal, consts)
    ensures p.epsSpatial.Falsy() ==> r.epsSpatial == ComputeEpsSpatial(spatial, consts)
    ensures p.maxBound.Falsy() ==>
              r.maxBound.Num? && r.maxBound.value <= consts.defaultMaxBound &&
              r.maxBound.value <= 2.0 * MaxScale(r.epsTemporal, r.epsSpatial) &&
              (r.maxBound.value == consts.defaultMaxBound ||
               r.maxBound.value == 2.0 * MaxScale(r.epsTemporal, r.epsSpatial))
    ensures p.cosAngle.Falsy() ==>
              r.cosAngle.Num? && -1.0 <= r.cosAngle.value < 1.0 &&
              r.cosAngle.value ==
                Gradient.GradientAngle(MaxScale(r.epsTemporal, r.epsSpatial), Some(consts.coarseCoefficient))
  {
    var epsTemporal := if p.epsTemporal.Falsy() then ComputeEpsTemporal(temporal, consts) else p.epsTemporal;
    var epsSpatial := if p.epsSpatial.Falsy() then ComputeEpsSpatial(spatial, consts) else p.epsSpatial;
    var epsMax := MaxScale(epsTemporal, epsSpatial);
    var maxBound :=
      if p.maxBound.Falsy() then
        Num(if epsMax * 2.0 < consts.defaultMaxBound then epsMax * 2.0 else consts.defaultMaxBound)
      else p.maxBound;
    var cosAngle :=
      if p.cosAngle.Falsy() then Num(Gradient.GradientAngle(epsMax, Some(consts.coarseCoefficient)))
      else p.cosAngle;
    ParamValues(epsTemporal, epsSpatial, maxBound, cosAngle)
  }

  /** The parameters after the scales are filled, and then the bound and the angle, are `Filled`. */
  lemma FilledAfterScales(before: ParamValues, after: ParamValues, temporal: seq<real>, spatial: seq<real>, consts: Consts)
    requires after.epsTemporal == if before.epsTemporal.Falsy() then ComputeEpsTemporal(temporal, consts) else before.epsTemporal
    requires after.epsSpatial == if before.epsSpatial.Falsy() then ComputeEpsSpatial(spatial, consts) else before.epsSpatial
    requires var epsMax := MaxScale(after.epsTemporal, after.epsSpatial);
             && after.maxBound ==
                  (if before.maxBound.Falsy() then
                     Num(if epsMax * 2.0 < consts.defaultMaxBound then epsMax * 2.0 else consts.defaultMaxBound)
                   else before.maxBound)
             && after.cosAngle ==
                  (if before.cosAngle.Falsy() then Num(Gradient.GradientAngle(epsMax, Some(consts.coarseCoefficient)))
                   else before.cosAngle)
    ensures after == Filled(before, temporal, spatial, consts)
  {
  }

  /** Filling is idempotent: parameters already filled stay as they are. */
  lemma FilledIsIdempotent(p: ParamValues, temporal: seq<real>, spatial: seq<real>, consts: Consts)
    ensures var q := Filled(p, temporal, spatial, consts);
            Filled(q, temporal, spatial, consts) == q
  {
    var q := Filled(p, temporal, spatial, consts);
    var q' := Filled(q, temporal, spatial, consts);
    assert q'.epsTemporal == q.epsTemporal;
    assert q'.epsSpatial == q.epsSpatial;
  }

  /**
   * The parameter object `defaultParameters` returns; `clusteringParameters`
   * overwrites its falsy fields.
   */
  class Params {
    var epsTemporal: JsNumber
    var epsSpatial: JsNumber
    var maxBound: JsNumber
    var cosAngle: JsNumber

    constructor (values: ParamValues)
      ensures Values() == values
    {
      epsTemporal := values.epsTemporal;
      epsSpatial := values.epsSpatial;
      maxBound := values.maxBound;
      cosAngle := values.cosAngle;
    }

    function Values(): ParamValues
      reads this
    {
      ParamValues(epsTemporal, epsSpatial, maxBound, cosAngle)
    }
  }

  /** The second half of `clusteringParameters`: the bound and the angle, from the larger scale. */
  method FillBoundAndAngle(params: Params, consts: Consts)
    modifies params
    requires !params.epsTemporal.Undefined? && !params.epsSpatial.Undefined?
    ensures params.epsTemporal == old(params.epsTemporal) && params.epsSpatial == old(params.epsSpatial)
    ensures var epsMax := MaxScale(params.epsTemporal, params.epsSpatial);
            && params.maxBound ==
                 (if old(params.maxBound).Falsy() then
                    Num(if epsMax * 2.0 < consts.defaultMaxBound then epsMax * 2.0 else consts.defaultMaxBound)
                  else old(params.maxBound))
            && params.cosAngle ==
                 (if old(params.cosAngle).Falsy() then Num(Gradient.GradientAngle(epsMax, Some(consts.coarseCoefficient)))
                  else old(params.cosAngle))
  {
    var epsMax := MaxScale(params.epsTemporal, params.epsSpatial);
    if params.maxBound.Falsy() {
      params.maxBound := Num(if epsMax * 2.0 < consts.defaultMaxBound then epsMax * 2.0 else consts.defaultMaxBound);
    }
    if params.cosAngle.Falsy() {
      params.cosAngle := Num(Gradient.GradientAngle(epsMax, Some(consts.coarseCoefficient)));
    }
  }

  /**
   * `clusteringParameters(dataset, setting)`: no parameters (`null`) yield
   * `null`; otherwise the same object comes back with its falsy fields filled
   * in, in the order of the source.
   */
  method ClusteringParameters(params: Params?, temporal: seq<real>, spatial: seq<real>, consts: Consts)
    returns (r: Params?)
    modifies params
    ensures r == params
    ensures params != null ==> params.Values() == Filled(old(params.Values()), temporal, spatial, consts)
  {
    if params == null {
      return null;
    }
    ghost var before := params.Values();
    if params.epsTemporal.Falsy() {
      params.epsTemporal := ComputeEpsTemporal(temporal, consts);
    }
    if params.epsSpatial.Falsy() {
      params.epsSpatial := ComputeEpsSpatial(spatial, consts);
    }
    FillBoundAndAngle(params, consts);
    FilledAfterScales(before, params.Values(), temporal, spatial, consts);
    return params;
  }
}
