/**
 * The distance functions of the clustering engine (`metrics.js`).  A
 * `Metrics` object carries the characteristic scales `epsTemporal`,
 * `epsSpatial` and `eps`, which the estimators of `services.js` overwrite;
 * `spatioTemporalScaled` reads the two scales at call time.
 *
 * The haversine great-circle distance (`geodesicDistance`) uses sine, cosine
 * and arcsine and is not part of this model: a `Metrics` object is built with
 * the spatial distance function it is to use.
 */
module Metrics {
  import opened Maths

  /** A photo as the metrics see it: its date (hours) and position (degrees). */
  datatype Point = Point(date: real, lat: real, lon: real)

  /**
   * A numeric property of a JavaScript object: missing (`undefined`), `null`,
   * or a number.
   */
  datatype JsNumber = Undefined | Null | Num(value: real) {

    /** JavaScript falsiness of the value. */
    predicate Falsy() {
      Undefined? || Null? || value == 0.0
    }

    /** The number arithmetic sees: `null` converts to 0. */
    function ToReal(): real
      requires !Undefined?
    {
      if Null? then 0.0 else value
    }
  }

  class Metrics {
    var epsTemporal: JsNumber
    var epsSpatial: JsNumber
    var eps: JsNumber
    /** The spatial distance this object measures with (the source's `geodesicDistance`). */
    const geodesic: (Point, Point) -> real

    /** The three scales start at their minimum values 3, 3 and 1. */
    constructor (geodesic: (Point, Point) -> real)
      ensures epsTemporal == Num(3.0) && epsSpatial == Num(3.0) && eps == Num(1.0)
      ensures this.geodesic == geodesic
    {
      this.geodesic := geodesic;
      epsTemporal := Num(3.0);
      epsSpatial := Num(3.0);
      eps := Num(1.0);
    }

    function Spatial(p1: Point, p2: Point): real {
      geodesic(p1, p2)
    }

    function Temporal(p1: Point, p2: Point): real {
      Abs(p1.date - p2.date)
    }

    /** The unscaled blend, half temporal and half spatial. */
    function SpatioTemporal(p1: Point, p2: Point): real {
      0.5 * Temporal(p1, p2) + 0.5 * Spatial(p1, p2)
    }

    /**
     * The spatial distance converted into a temporal equivalent with the
     * ratio of the current scales, averaged with the temporal distance.
     * Both scales must be present (a `null` scale counts as 0) and the
     * spatial one non-zero.
     */
    function SpatioTemporalScaled(p1: Point, p2: Point): real
      reads this
      requires !epsTemporal.Undefined? && !epsSpatial.Undefined? && epsSpatial.ToReal() != 0.0
    {
      var r := epsTemporal.ToReal() / epsSpatial.ToReal();
      (Temporal(p1, p2) + Spatial(p1, p2) * r) / 2.0
    }
  }

  /** The temporal distance is non-negative, symmetric, and 0 exactly for equal dates. */
  lemma TemporalIsDistance(m: Metrics, p: Point, q: Point)
    ensures m.Temporal(p, q) >= 0.0
    ensures m.Temporal(p, q) == m.Temporal(q, p)
    ensures m.Temporal(p, q) == 0.0 <==> p.date == q.date
  {
  }

  /** With equal scales, as after construction, the scaled blend is the plain one. */
  lemma ScaledIsPlainForEqualScales(m: Metrics, p: Point, q: Point)
    requires !m.epsTemporal.Undefined? && !m.epsSpatial.Undefined?
    requires m.epsTemporal.ToReal() == m.epsSpatial.ToReal() != 0.0
    ensures m.SpatioTemporalScaled(p, q) == m.SpatioTemporal(p, q)
  {
    var r := m.epsTemporal.ToReal() / m.epsSpatial.ToReal();
    assert r == 1.0;
  }

  /**
   * Both blends are symmetric and non-negative on two points whenever the
   * spatial distance is, and (for the scaled blend) the scales are positive.
   */
  lemma BlendsAreSymmetricAndNonNegative(m: Metrics, p: Point, q: Point)
    requires m.geodesic(p, q) == m.geodesic(q, p) && m.geodesic(p, q) >= 0.0
    ensures m.SpatioTemporal(p, q) == m.SpatioTemporal(q, p) >= 0.0
    ensures m.epsTemporal.Num? && m.epsSpatial.Num? &&
            m.epsTemporal.value > 0.0 && m.epsSpatial.value > 0.0 ==>
              m.SpatioTemporalScaled(p, q) == m.SpatioTemporalScaled(q, p) >= 0.0
  {
    TemporalIsDistance(m, p, q);
    if m.epsTemporal.Num? && m.epsSpatial.Num? && m.epsTemporal.value > 0.0 && m.epsSpatial.value > 0.0 {
      var r := m.epsTemporal.ToReal() / m.epsSpatial.ToReal();
      assert r > 0.0;
      var s := m.Spatial(p, q);
      assert s * r >= 0.0 by {
        if s > 0.0 {
          assert s * r > 0.0;
        }
      }
    }
  }
}
