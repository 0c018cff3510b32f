/**
 * Cluster extraction from an OPTICS reachability plot by the gradient method
 * (`gradient.js`).  The points are scanned in OPTICS order; a point starts a
 * new cluster when it is noise (reachability above `maxBound`), when one of
 * the special configurations holds (lonely point, steep increasing or
 * decreasing slope), or at an inflection point of the plot.  The clusters of
 * labels are then reorganised (neighbouring clusters whose labels interleave
 * are merged) and the data are handed out to them in order.
 *
 * The inflection index of the source is a quotient of square roots; here it
 * is only ever compared with the angle threshold, and that comparison is
 * decided on squares (`InflectionAbove`).  The cosine of `gradientAngle` is
 * written in closed form without trigonometry.
 */
module Gradient {
  import opened Wrappers
  import opened Seqs
  import opened Maths

  /** `2^k`. */
  function Pow2(k: nat): (p: real)
    ensures p >= 1.0
  {
    if k == 0 then 1.0 else 2.0 * Pow2(k - 1)
  }

  /** `Number.MAX_VALUE`, that is (2 - 2^-52) * 2^1023 = (2^53 - 1) * 2^971, exactly. */
  const MaxValue: real := 9007199254740991.0 * Pow2(971)

  /** Missing reachabilities (`undefined`) read as `MaxValue`. */
  function FillUndefined(reachabilities: seq<Option<real>>): (r: seq<real>)
    ensures |r| == |reachabilities|
    ensures forall i :: 0 <= i < |r| ==>
              (reachabilities[i].None? ==> r[i] == MaxValue) &&
              (reachabilities[i].Some? ==> r[i] == reachabilities[i].value)
  {
    seq(|reachabilities|, i requires 0 <= i < |reachabilities| => reachabilities[i].GetOr(MaxValue))
  }

  // ---------------------------------------------------------------------
  // Inflection index, decided on squares
  // ---------------------------------------------------------------------

  /**
   * `n / p > a` for a positive `p` that is known only through its square
   * `pp`.  For `a >= 0` the quotient exceeds `a` when `n` is positive and its
   * square exceeds that of `a * p`; for `a < 0` it does when `n` is
   * non-negative or `|n| < |a * p|`.
   */
  predicate AboveBySquares(n: real, a: real, pp: real) {
    if a >= 0.0 then n > 0.0 && n * n > a * a * pp
    else n >= 0.0 || n * n < a * a * pp
  }

  lemma AboveBySquaresIsQuotientTest(n: real, a: real, p: real)
    requires p > 0.0
    ensures AboveBySquares(n, a, p * p) <==> n / p > a
  {
    var q := n / p;
    var ap := a * p;
    assert q * p == n;
    if q > a {
      MulStrictMonotone(a, q, p);
    } else {
      MulLeftMonotone(q, a, p);
    }
    assert q > a <==> n > ap;
    assert ap * ap == a * a * (p * p);
    if a >= 0.0 {
      MulLeftMonotone(0.0, a, p);
      if n > ap {
        SquareStrictMonotone(ap, n);
        assert AboveBySquares(n, a, p * p);
      } else if n > 0.0 {
        SquareMonotone(n, ap);
        assert !AboveBySquares(n, a, p * p);
      }
    } else {
      MulStrictMonotone(a, 0.0, p);
      if n < 0.0 {
        assert (-n) * (-n) == n * n;
        assert (-ap) * (-ap) == ap * ap;
        if n > ap {
          SquareStrictMonotone(-n, -ap);
          assert AboveBySquares(n, a, p * p);
        } else {
          SquareMonotone(-ap, -n);
          assert !AboveBySquares(n, a, p * p);
        }
      }
    }
  }

  /** The numerator `-1 + (x - y)(z - y)` of the inflection index at `y`. */
  function InflectionNumerator(x: real, y: real, z: real): real {
    -1.0 + (x - y) * (z - y)
  }

  /** The square `(1 + (y - x)^2)(1 + (z - y)^2)` of its denominator. */
  function InflectionDenominatorSquared(x: real, y: real, z: real): real {
    (1.0 + (y - x) * (y - x)) * (1.0 + (z - y) * (z - y))
  }

  /**
   * The squared length `1 + (y - x)^2` of the vector `(1, y - x)` is beyond
   * `MAX_VALUE`: as a double it is `Infinity`.
   */
  predicate LengthOverflows(x: real, y: real) {
    1.0 + (y - x) * (y - x) > MaxValue
  }

  /**
   * `inflectionIndex(x, y, z) > a` as the source's doubles decide it.  When a
   * squared length overflows, the denominator is `Infinity` and the index is
   * `NaN` when the product `(x - y)(z - y)` overflows as well, and a signed
   * zero otherwise: the
   * test then holds only for a negative threshold, and never on `NaN`.
   * Otherwise nothing in the quotient overflows and it is compared on squares.
   */
  predicate InflectionAbove(x: real, y: real, z: real, a: real) {
    if LengthOverflows(x, y) || LengthOverflows(y, z) then
      var p := (x - y) * (z - y);
      -MaxValue <= p <= MaxValue && 0.0 > a
    else
      AboveBySquares(InflectionNumerator(x, y, z), a, InflectionDenominatorSquared(x, y, z))
  }

  /**
   * The square-based comparison agrees with the quotient for the actual
   * (positive) lengths `v1`, `v2` of the vectors `(1, y - x)` and `(1, z - y)`.
   */
  lemma SquaresDecideIndex(x: real, y: real, z: real, a: real, v1: real, v2: real)
    requires v1 > 0.0 && v1 * v1 == 1.0 + (y - x) * (y - x)
    requires v2 > 0.0 && v2 * v2 == 1.0 + (z - y) * (z - y)
    ensures AboveBySquares(InflectionNumerator(x, y, z), a, InflectionDenominatorSquared(x, y, z)) <==>
              InflectionNumerator(x, y, z) / (v1 * v2) > a
  {
    MulStrictMonotone(0.0, v1, v2);
    assert (v1 * v2) * (v1 * v2) == (v1 * v1) * (v2 * v2);
    AboveBySquaresIsQuotientTest(InflectionNumerator(x, y, z), a, v1 * v2);
  }

  /**
   * When no squared length overflows, the test agrees with the source's
   * quotient for the actual lengths `v1`, `v2`.
   */
  lemma InflectionAboveIsIndexTest(x: real, y: real, z: real, a: real, v1: real, v2: real)
    requires v1 > 0.0 && v1 * v1 == 1.0 + (y - x) * (y - x)
    requires v2 > 0.0 && v2 * v2 == 1.0 + (z - y) * (z - y)
    ensures !LengthOverflows(x, y) && !LengthOverflows(y, z) ==>
              (InflectionAbove(x, y, z, a) <==> (-1.0 + (x - y) * (z - y)) / (v1 * v2) > a)
  {
    SquaresDecideIndex(x, y, z, a, v1, v2);
  }

  /** A squared length overflows once the difference reaches half of `MAX_VALUE`. */
  lemma LengthOverflowsFromHalf(x: real, y: real)
    requires y - x >= MaxValue / 2.0 || x - y >= MaxValue / 2.0
    ensures LengthOverflows(x, y)
  {
    var u := y - x;
    if u >= MaxValue / 2.0 {
      SquareBeyondMax(u);
    } else {
      SquareBeyondMax(-u);
      NegatedSquare(u);
    }
  }

  lemma NegatedSquare(u: real)
    ensures (-u) * (-u) == u * u
  {
  }

  /** `1 + u^2 > MAX_VALUE` for `u >= MAX_VALUE / 2`. */
  lemma SquareBeyondMax(u: real)
    requires u >= MaxValue / 2.0
    ensures 1.0 + u * u > MaxValue
  {
    assert MaxValue >= 4.0;
    SquareBeyond(u, MaxValue);
  }

  /** `u^2 >= 2u` once `u >= 2`, so `1 + u^2 > m` for `u >= m / 2 >= 2`. */
  lemma SquareBeyond(u: real, m: real)
    requires m >= 4.0 && 2.0 * u >= m
    ensures 1.0 + u * u > m
  {
    MulLeftMonotone(2.0, u, u);
  }

  /**
   * Next to an undefined reachability (`MAX_VALUE`), a reachability of at
   * most half of it makes a squared length overflow, so no non-negative
   * threshold finds an inflection there, nor the increasing slope towards
   * the mirror image `2y - MAX_VALUE`.
   */
  lemma NoInflectionNextToUndefined(x: real, y: real, z: real, a: real)
    requires y <= MaxValue / 2.0 && a >= 0.0
    requires x == MaxValue || z == MaxValue
    ensures !InflectionAbove(x, y, z, a)
    ensures z == MaxValue ==> !IncreasingSlope(x, y, Some(z), a)
  {
    if x == MaxValue {
      LengthOverflowsFromHalf(x, y);
    } else {
      LengthOverflowsFromHalf(y, z);
      LengthOverflowsFromHalf(y, y + (y - z));
    }
  }

  /**
   * The inflection index is a cosine: its square never exceeds 1, so a
   * threshold of 1 or more never finds an inflection.
   */
  lemma InflectionIndexIsCosine(x: real, y: real, z: real, a: real)
    ensures InflectionNumerator(x, y, z) * InflectionNumerator(x, y, z) <= InflectionDenominatorSquared(x, y, z)
    ensures a >= 1.0 ==> !InflectionAbove(x, y, z, a)
  {
    CosineSquares(x, y, z, a);
  }

  /** The square-based comparison of `InflectionIndexIsCosine`. */
  lemma CosineSquares(x: real, y: real, z: real, a: real)
    ensures InflectionNumerator(x, y, z) * InflectionNumerator(x, y, z) <= InflectionDenominatorSquared(x, y, z)
    ensures a >= 1.0 ==> !AboveBySquares(InflectionNumerator(x, y, z), a, InflectionDenominatorSquared(x, y, z))
  {
    var u, w := y - x, z - y;
    var n, d := InflectionNumerator(x, y, z), InflectionDenominatorSquared(x, y, z);
    assert n == -1.0 - u * w;
    assert d - n * n == (u - w) * (u - w);
    SquareNonNegative(u - w);
    if a >= 1.0 {
      assert d >= 1.0 by {
        SquareNonNegative(u);
        SquareNonNegative(w);
        MulLeftMonotone(1.0, 1.0 + u * u, 1.0 + w * w);
      }
      MulLeftMonotone(1.0, a, a);
      MulLeftMonotone(1.0, a, 1.0);
      assert a * a >= 1.0;
      MulLeftMonotone(1.0, a * a, d);
    }
  }

  /** `gradientDeterminant`: negative when the plot turns left at `y`. */
  function GradientDeterminant(x: real, y: real, z: real): real {
    y - x - (z - y)
  }

  /**
   * `gradientAngle(eps, k)`, `cos(2 atan(1 / (eps * k)))` with `k` 1 when
   * absent, in closed form: with `t = eps * k` it is `(t^2 - 1) / (t^2 + 1)`
   * (`cos 2u = (1 - tan^2 u) / (1 + tan^2 u)` at `tan u = 1 / t`; `t = 0`
   * gives `cos pi = -1`).
   */
  function GradientAngle(eps: real, k: Option<real>): (a: real)
    ensures -1.0 <= a < 1.0
  {
    var t := eps * k.GetOr(1.0);
    SquareNonNegative(t);
    (t * t - 1.0) / (t * t + 1.0)
  }

  // ---------------------------------------------------------------------
  // Special configurations
  // ---------------------------------------------------------------------

  /** The calendar reading of a data point: local day of the month and epoch milliseconds. */
  datatype Calendar<!T> = Calendar(dayOfMonth: T -> int, millis: T -> int)

  /**
   * `lonelyPoint`: a point of finite reachability between two undefined ones
   * is cut from its predecessor when the two fall on different days of the
   * month and more than 8 milliseconds apart.
   */
  predicate LonelyPoint<T>(calendar: Calendar<T>, xData: T, yData: T, x: real, y: real, z: real): (b: bool)
    ensures b ==> x == MaxValue && y < MaxValue && z == MaxValue
  {
    x == MaxValue && y < MaxValue && z == MaxValue &&
    calendar.dayOfMonth(xData) != calendar.dayOfMonth(yData) &&
    calendar.millis(yData) - calendar.millis(xData) > 8
  }

  /**
   * `increasingSlope`: on a rising run `x < y < z` the angle at `y` towards
   * the mirror image `2y - z` of `z` would be an inflection.  False at the end
   * of the reachabilities.
   */
  predicate IncreasingSlope(x: real, y: real, z: Option<real>, a: real): (b: bool)
    ensures b ==> z.Some? && x < y < z.value
  {
    z.Some? && x < y < z.value && InflectionAbove(x, y, y + (y - z.value), a)
  }

  /**
   * `decreasingSlope`: on a drop `y > z` the angle at `y` between `z` and its
   * mirror image would be an inflection.  False at the end of the
   * reachabilities.
   */
  predicate DecreasingSlope(y: real, z: Option<real>, a: real): (b: bool)
    ensures b ==> z.Some? && y > z.value
  {
    z.Some? && y > z.value && InflectionAbove(z.value, y, z.value, a)
  }

  /** `x / p > w / q` for positive denominators, by cross-multiplication. */
  lemma QuotientAbove(x: real, p: real, w: real, q: real)
    requires p > 0.0 && q > 0.0
    ensures x / p > w / q <==> x * q > w * p
  {
    var a, b := x / p, w / q;
    assert a * p == x && b * q == w;
    var pq := p * q;
    MulStrictMonotone(0.0, p, q);
    assert a * pq == (a * p) * q == x * q;
    assert b * pq == (b * q) * p == w * p;
    if a > b {
      MulStrictMonotone(b, a, pq);
    } else {
      MulLeftMonotone(a, b, pq);
    }
  }

  /** `(s - 1) / (s + 1)` is strictly increasing on the non-negative reals. */
  lemma AngleFormulaMonotone(dd: real, tt: real)
    requires dd >= 0.0 && tt >= 0.0
    ensures (dd - 1.0) / (dd + 1.0) > (tt - 1.0) / (tt + 1.0) <==> dd > tt
  {
    QuotientAbove(dd - 1.0, dd + 1.0, tt - 1.0, tt + 1.0);
    assert (dd - 1.0) * (tt + 1.0) - (tt - 1.0) * (dd + 1.0) == 2.0 * (dd - tt);
  }

  /** For positive `d`, `d^2 > t^2` exactly when `d > |t|`. */
  lemma SquareAboveIsAbsAbove(d: real, t: real)
    ensures d > 0.0 && d * d > t * t <==> d > Abs(t)
  {
    var at := Abs(t);
    assert at * at == t * t;
    if d > at {
      SquareStrictMonotone(at, d);
    } else if d > 0.0 {
      SquareMonotone(d, at);
    }
  }

  /**
   * A decreasing slope compares the angle formula at the drop `y - z` with
   * the threshold, unless the squared drop overflows: then no non-negative
   * threshold detects it.
   */
  lemma DecreasingSlopeIsAngleTest(y: real, z: real, a: real)
    ensures !LengthOverflows(z, y) ==>
              (DecreasingSlope(y, Some(z), a) <==>
               y - z > 0.0 && ((y - z) * (y - z) - 1.0) / ((y - z) * (y - z) + 1.0) > a)
    ensures LengthOverflows(z, y) && a >= 0.0 ==> !DecreasingSlope(y, Some(z), a)
  {
    var d := y - z;
    var dd := d * d;
    assert (z - y) * (z - y) == dd;
    SquareNonNegative(d);
    assert InflectionNumerator(z, y, z) == dd - 1.0;
    assert InflectionDenominatorSquared(z, y, z) == (1.0 + dd) * (1.0 + dd);
    AboveBySquaresIsQuotientTest(dd - 1.0, a, 1.0 + dd);
  }

  /**
   * With the angle of `gradientAngle(eps, k)`, a decreasing slope is detected
   * exactly when the drop `y - z` is larger than `|eps * k|`, as long as its
   * square does not overflow; an overflowing drop escapes a threshold with
   * `|eps * k| >= 1`.
   */
  lemma DecreasingSlopeIsSteepDrop(y: real, z: real, eps: real, k: Option<real>)
    ensures !LengthOverflows(z, y) ==>
              (DecreasingSlope(y, Some(z), GradientAngle(eps, k)) <==> y - z > Abs(eps * k.GetOr(1.0)))
    ensures LengthOverflows(z, y) && Abs(eps * k.GetOr(1.0)) >= 1.0 ==>
              !DecreasingSlope(y, Some(z), GradientAngle(eps, k))
  {
    DecreasingSlopeIsAngleTest(y, z, GradientAngle(eps, k));
    if !LengthOverflows(z, y) {
      AngleAboveIsSteeper(y - z, eps * k.GetOr(1.0));
    } else {
      GradientAngleSign(eps, k);
    }
  }

  /** The angle formula at a positive drop `d` is above the one at `t` exactly when `d > |t|`. */
  lemma AngleAboveIsSteeper(d: real, t: real)
    ensures d > 0.0 && (d * d - 1.0) / (d * d + 1.0) > (t * t - 1.0) / (t * t + 1.0) <==> d > Abs(t)
  {
    SquareNonNegative(t);
    SquareNonNegative(d);
    AngleFormulaMonotone(d * d, t * t);
    SquareAboveIsAbsAbove(d, t);
  }

  /** The angle of `gradientAngle(eps, k)` is at most a right angle once `|eps * k| >= 1`. */
  lemma GradientAngleSign(eps: real, k: Option<real>)
    ensures Abs(eps * k.GetOr(1.0)) >= 1.0 <==> GradientAngle(eps, k) >= 0.0
  {
    var t := eps * k.GetOr(1.0);
    SquareAboveIsAbsAbove(1.0, t);
    SquareNonNegative(t);
    QuotientNonNegative(t * t - 1.0, t * t + 1.0);
  }

  /** A quotient with a positive denominator has the sign of its numerator. */
  lemma QuotientNonNegative(n: real, p: real)
    requires p > 0.0
    ensures n / p >= 0.0 <==> n >= 0.0
  {
    var q := n / p;
    assert q * p == n;
    if q < 0.0 {
      MulStrictMonotone(q, 0.0, p);
    } else {
      MulLeftMonotone(0.0, q, p);
    }
  }

  // ---------------------------------------------------------------------
  // The scan over the reachability plot
  // ---------------------------------------------------------------------

  /** The result of the OPTICS run: reachability per position and the label at each position. */
  datatype Optics = Optics(reachabilities: seq<Option<real>>, ordering: seq<int>)

  /** The arguments of `gradientClustering`, with the calendar the lonely-point test reads. */
  datatype Input<!T> = Input(data: seq<T>, optics: Optics, angle: real, maxBound: real, calendar: Calendar<T>)

  /** One reachability and one label per data point, and at least one point. */
  predicate WellFormed<T>(inp: Input<T>) {
    |inp.data| == |inp.optics.reachabilities| == |inp.optics.ordering| >= 1
  }

  function Reach<T>(inp: Input<T>): (r: seq<real>)
    ensures |r| == |inp.optics.reachabilities|
  {
    FillUndefined(inp.optics.reachabilities)
  }

  /** The scan's state: the clusters closed so far and the one being built. */
  datatype Scan = Scan(clusters: seq<seq<int>>, current: seq<int>)

  /** Close `current` unless it is empty. */
  function Saved(clusters: seq<seq<int>>, current: seq<int>): seq<seq<int>> {
    if |current| > 0 then clusters + [current] else clusters
  }

  /** One of the three special configurations holds at position `i`. */
  predicate Special<T>(inp: Input<T>, i: nat)
    requires WellFormed(inp) && 1 <= i && i + 1 < |inp.data|
  {
    var r := Reach(inp);
    || LonelyPoint(inp.calendar, inp.data[i - 1], inp.data[i], r[i - 1], r[i], r[i + 1])
    || IncreasingSlope(r[i - 1], r[i], Some(r[i + 1]), inp.angle)
    || DecreasingSlope(r[i], Some(r[i + 1]), inp.angle)
  }

  /**
   * One iteration of the main loop on the scan state, given the label `o` of
   * the position and the outcome of each test the source makes there.
   */
  function Advance(s: Scan, o: int, noise: bool, nextNoise: bool, special: bool,
                   inflection: bool, leftTurn: bool, rising: bool): Scan
  {
    if noise then
      if nextNoise then Scan(Saved(s.clusters, s.current) + [[o]], [])
      else Scan(Saved(s.clusters, s.current), [o])
    else
      var s' := if special then Scan(s.clusters + [s.current], []) else s;
      if inflection then
        if leftTurn then
          if rising then Scan(s'.clusters + [s'.current + [o]], [])
          else Scan(s'.clusters, s'.current + [o])
        else Scan(Saved(s'.clusters, s'.current), [o])
      else Scan(s'.clusters, s'.current + [o])
  }

  /** One iteration of the main loop of `gradientClustering`, at an interior position `i`. */
  function Step<T>(inp: Input<T>, s: Scan, i: nat): Scan
    requires WellFormed(inp) && 1 <= i && i + 1 < |inp.data|
  {
    var r := Reach(inp);
    var x, y, z := r[i - 1], r[i], r[i + 1];
    if y > inp.maxBound then
      // A noise point skips the other tests (`continue`).
      Advance(s, inp.optics.ordering[i], true, z > inp.maxBound, false, false, false, false)
    else
      Advance(s, inp.optics.ordering[i], false, false, Special(inp, i),
              InflectionAbove(x, y, z, inp.angle), GradientDeterminant(x, y, z) < 0.0, z - y > 0.0)
  }

  /** The position at which the main loop stops. */
  function LoopEnd(n: nat): nat {
    if n >= 2 then n - 1 else 1
  }

  /** The state before iteration `i`; the scan starts with the label 0 as its current cluster. */
  function ScanTo<T>(inp: Input<T>, i: nat): Scan
    requires WellFormed(inp) && 1 <= i <= LoopEnd(|inp.data|)
    decreases i, 0
  {
    if i == 1 then Scan([], [0]) else After(inp, i - 1)
  }

  /** The state after iteration `i`. */
  function After<T>(inp: Input<T>, i: nat): Scan
    requires WellFormed(inp) && 1 <= i && i + 1 < |inp.data|
    decreases i, 1
  {
    Step(inp, ScanTo(inp, i), i)
  }

  /** Each iteration moves the scan state on by one position. */
  lemma ScanToSucc<T>(inp: Input<T>, i: nat)
    requires WellFormed(inp) && 1 <= i < LoopEnd(|inp.data|)
    ensures ScanTo(inp, i + 1) == Step(inp, ScanTo(inp, i), i)
  {
  }

  /** One iteration of the main loop, with the tests spelled out. */
  lemma ScanToNext<T>(inp: Input<T>, i: nat)
    requires WellFormed(inp) && 1 <= i < LoopEnd(|inp.data|)
    ensures var r := Reach(inp);
            ScanTo(inp, i + 1) ==
              Advance(ScanTo(inp, i), inp.optics.ordering[i], r[i] > inp.maxBound, r[i + 1] > inp.maxBound,
                      Special(inp, i), InflectionAbove(r[i - 1], r[i], r[i + 1], inp.angle),
                      GradientDeterminant(r[i - 1], r[i], r[i + 1]) < 0.0, r[i + 1] - r[i] > 0.0)
  {
    ScanToSucc(inp, i);
  }

  /** The last point joins the current cluster when both allow it, and is a cluster of its own otherwise. */
  function Finish<T>(inp: Input<T>, s: Scan): seq<seq<int>>
    requires WellFormed(inp)
  {
    var n := |inp.data|;
    var lastPt := Reach(inp)[n - 1];
    var lastOrd := inp.optics.ordering[n - 1];
    if |s.current| > 0 && lastPt < inp.maxBound then s.clusters + [s.current + [lastOrd]]
    else Saved(s.clusters, s.current) + [[lastOrd]]
  }

  /**
   * The clusters of labels `gradientClustering` passes to `clusterizeData`.
   * Every position receives exactly one label, in order: label 0 for the
   * first point (not `ordering[0]`), then the OPTICS labels of the other
   * points; a single point yields the two labels 0 and `ordering[0]`.
   */
  function Extracted<T>(inp: Input<T>): (clusters: seq<seq<int>>)
    requires WellFormed(inp)
    ensures Flatten(clusters) ==
              if |inp.data| >= 2 then [0] + inp.optics.ordering[1..]
              else [0, inp.optics.ordering[0]]
  {
    var n := |inp.data|;
    var ord := inp.optics.ordering;
    var s := ScanTo(inp, LoopEnd(n));
    ScanToPlacesLabels(inp, LoopEnd(n));
    FinishPlacesLastLabel(inp, s);
    assert n >= 2 ==> ord[1..] == ord[1..n - 1] + [ord[n - 1]];
    Finish(inp, s)
  }

  lemma ExtractedIsFinishedScan<T>(inp: Input<T>)
    requires WellFormed(inp)
    ensures Extracted(inp) == Finish(inp, ScanTo(inp, LoopEnd(|inp.data|)))
  {
  }

  /** There are as many labels as data points, and two for a single point. */
  lemma ExtractedLabelCount<T>(inp: Input<T>)
    requires WellFormed(inp)
    ensures |Flatten(Extracted(inp))| == if |inp.data| >= 2 then |inp.data| else 2
  {
  }

  /** The labels of a scan state, in the order they were placed. */
  function Labels(s: Scan): seq<int> {
    Flatten(s.clusters) + s.current
  }

  lemma AdvancePlacesOneLabel(s: Scan, o: int, noise: bool, nextNoise: bool, special: bool,
                              inflection: bool, leftTurn: bool, rising: bool)
    ensures Labels(Advance(s, o, noise, nextNoise, special, inflection, leftTurn, rising)) == Labels(s) + [o]
  {
    SavedPlacesLabels(s.clusters, s.current);
    if noise {
      if nextNoise {
        FlattenAppend(Saved(s.clusters, s.current), [o]);
      }
    } else {
      var s' := if special then Scan(s.clusters + [s.current], []) else s;
      assert Labels(s') == Labels(s) by {
        FlattenAppend(s.clusters, s.current);
      }
      PlaceAfterTests(s', o, inflection, leftTurn, rising);
    }
  }

  /** The inflection part of an iteration, from the state after the special test. */
  lemma PlaceAfterTests(s: Scan, o: int, inflection: bool, leftTurn: bool, rising: bool)
    ensures Labels(Advance(s, o, false, false, false, inflection, leftTurn, rising)) == Labels(s) + [o]
  {
    if inflection {
      if leftTurn {
        if rising {
          FlattenAppend(s.clusters, s.current + [o]);
        }
      } else {
        SavedPlacesLabels(s.clusters, s.current);
      }
    }
  }

  /** Each iteration places exactly the label of its position, after all earlier ones. */
  lemma StepPlacesOneLabel<T>(inp: Input<T>, s: Scan, i: nat)
    requires WellFormed(inp) && 1 <= i && i + 1 < |inp.data|
    ensures Labels(Step(inp, s, i)) == Labels(s) + [inp.optics.ordering[i]]
  {
    var r := Reach(inp);
    var x, y, z := r[i - 1], r[i], r[i + 1];
    if y > inp.maxBound {
      AdvancePlacesOneLabel(s, inp.optics.ordering[i], true, z > inp.maxBound, false, false, false, false);
    } else {
      AdvancePlacesOneLabel(s, inp.optics.ordering[i], false, false, Special(inp, i),
                            InflectionAbove(x, y, z, inp.angle), GradientDeterminant(x, y, z) < 0.0, z - y > 0.0);
    }
  }

  lemma SavedPlacesLabels(clusters: seq<seq<int>>, current: seq<int>)
    ensures Flatten(Saved(clusters, current)) == Flatten(clusters) + current
  {
    FlattenAppend(clusters, current);
  }

  lemma {:induction false} ScanToPlacesLabels<T>(inp: Input<T>, i: nat)
    requires WellFormed(inp) && 1 <= i <= LoopEnd(|inp.data|)
    ensures Labels(ScanTo(inp, i)) == [0] + inp.optics.ordering[1..i]
    decreases i
  {
    if i > 1 {
      var ord := inp.optics.ordering;
      ScanToPlacesLabels(inp, i - 1);
      ScanToSucc(inp, i - 1);
      StepPlacesOneLabel(inp, ScanTo(inp, i - 1), i - 1);
      assert ord[1..i] == ord[1..i - 1] + [ord[i - 1]];
    }
  }

  /** The tail of the scan places the last label after all others. */
  lemma FinishPlacesLastLabel<T>(inp: Input<T>, s: Scan)
    requires WellFormed(inp)
    ensures Flatten(Finish(inp, s)) == Labels(s) + [inp.optics.ordering[|inp.data| - 1]]
  {
    var n := |inp.data|;
    var lastOrd := inp.optics.ordering[n - 1];
    if |s.current| > 0 && Reach(inp)[n - 1] < inp.maxBound {
      FlattenAppend(s.clusters, s.current + [lastOrd]);
    } else {
      SavedPlacesLabels(s.clusters, s.current);
      FlattenAppend(Saved(s.clusters, s.current), [lastOrd]);
    }
  }

  /** The points after the first are all noise. */
  predicate AllNoise<T>(inp: Input<T>)
    requires WellFormed(inp)
  {
    forall i :: 1 <= i < |inp.data| ==> Reach(inp)[i] > inp.maxBound
  }

  /** The first label 0, then every later label, each as a cluster of its own. */
  function Singletons(ordering: seq<int>, m: nat): (cs: seq<seq<int>>)
    requires m <= |ordering|
    ensures |cs| == m
  {
    seq(m, k requires 0 <= k < m => [if k == 0 then 0 else ordering[k]])
  }

  lemma SingletonsSnoc(ordering: seq<int>, m: nat)
    requires 1 <= m < |ordering|
    ensures Singletons(ordering, m) + [[ordering[m]]] == Singletons(ordering, m + 1)
  {
    var left, right := Singletons(ordering, m) + [[ordering[m]]], Singletons(ordering, m + 1);
    forall k | 0 <= k < m + 1
      ensures left[k] == right[k]
    {
      if k < m {
        assert left[k] == Singletons(ordering, m)[k];
      }
    }
  }

  /** A noise point followed by noise closes the current cluster and stands alone. */
  lemma StepOnNoise<T>(inp: Input<T>, s: Scan, i: nat)
    requires WellFormed(inp) && 1 <= i && i + 1 < |inp.data|
    requires Reach(inp)[i] > inp.maxBound && Reach(inp)[i + 1] > inp.maxBound
    ensures Step(inp, s, i) == Scan(Saved(s.clusters, s.current) + [[inp.optics.ordering[i]]], [])
  {
  }

  lemma {:induction false} AllNoiseScan<T>(inp: Input<T>, i: nat)
    requires WellFormed(inp) && AllNoise(inp) && 2 <= i <= |inp.data| - 1
    ensures ScanTo(inp, i) == Scan(Singletons(inp.optics.ordering, i), [])
    decreases i
  {
    var ord := inp.optics.ordering;
    if i > 2 {
      AllNoiseScan(inp, i - 1);
      ScanToSucc(inp, i - 1);
      StepOnNoise(inp, ScanTo(inp, i - 1), i - 1);
      SingletonsSnoc(ord, i - 1);
    } else {
      ScanToSucc(inp, 1);
      StepOnNoise(inp, ScanTo(inp, 1), 1);
      assert Singletons(ord, 2) == [[0], [ord[1]]];
    }
  }

  /** When every point after the first is noise, each one is a cluster of its own. */
  lemma AllNoiseGivesSingletons<T>(inp: Input<T>)
    requires WellFormed(inp) && |inp.data| >= 2 && AllNoise(inp)
    ensures Extracted(inp) == Singletons(inp.optics.ordering, |inp.data|)
  {
    var n := |inp.data|;
    var ord := inp.optics.ordering;
    assert Reach(inp)[n - 1] > inp.maxBound;
    ExtractedIsFinishedScan(inp);
    assert LoopEnd(n) == n - 1;
    var s := ScanTo(inp, n - 1);
    if n >= 3 {
      AllNoiseScan(inp, n - 1);
      assert s.current == [] && s.clusters == Singletons(ord, n - 1);
      assert Saved(s.clusters, s.current) == s.clusters;
      assert Finish(inp, s) == Singletons(ord, n - 1) + [[ord[n - 1]]];
      SingletonsSnoc(ord, n - 1);
    } else {
      assert s == Scan([], [0]);
      assert Finish(inp, s) == [[0], [ord[1]]];
      assert Singletons(ord, 2) == [[0], [ord[1]]];
    }
  }

  /** Position `i` is neither noise, nor special, nor an inflection. */
  predicate Smooth<T>(inp: Input<T>, i: nat)
    requires WellFormed(inp) && 1 <= i && i + 1 < |inp.data|
  {
    var r := Reach(inp);
    r[i] <= inp.maxBound && !Special(inp, i) && !InflectionAbove(r[i - 1], r[i], r[i + 1], inp.angle)
  }

  /** A smooth point joins the current cluster. */
  lemma StepOnSmooth<T>(inp: Input<T>, s: Scan, i: nat)
    requires WellFormed(inp) && 1 <= i && i + 1 < |inp.data| && Smooth(inp, i)
    ensures Step(inp, s, i) == Scan(s.clusters, s.current + [inp.optics.ordering[i]])
  {
  }

  lemma {:induction false} SmoothScan<T>(inp: Input<T>, i: nat)
    requires WellFormed(inp) && 1 <= i <= LoopEnd(|inp.data|)
    requires forall j :: 1 <= j < i ==> Smooth(inp, j)
    ensures ScanTo(inp, i) == Scan([], [0] + inp.optics.ordering[1..i])
    decreases i
  {
    if i > 1 {
      SmoothScan(inp, i - 1);
      ScanToSucc(inp, i - 1);
      StepOnSmooth(inp, ScanTo(inp, i - 1), i - 1);
      var ord := inp.optics.ordering;
      assert [0] + ord[1..i - 1] + [ord[i - 1]] == [0] + ord[1..i];
    }
  }

  /**
   * A plot without noise, special configuration or inflection, whose last
   * point is below the bound, is one cluster holding every label.
   */
  lemma SmoothGivesOneCluster<T>(inp: Input<T>)
    requires WellFormed(inp) && |inp.data| >= 2
    requires forall i :: 1 <= i < |inp.data| - 1 ==> Smooth(inp, i)
    requires Reach(inp)[|inp.data| - 1] < inp.maxBound
    ensures Extracted(inp) == [[0] + inp.optics.ordering[1..]]
  {
    var n := |inp.data|;
    var ord := inp.optics.ordering;
    SmoothScan(inp, n - 1);
    assert [0] + ord[1..n - 1] + [ord[n - 1]] == [0] + ord[1..];
  }

  // ---------------------------------------------------------------------
  // Reorganisation of the clusters
  // ---------------------------------------------------------------------

  /** The largest label of a non-empty cluster (`Math.max(...cluster)`). */
  function MaxOf(s: seq<int>): (m: int)
    requires |s| > 0
    ensures m in s
    ensures forall k :: 0 <= k < |s| ==> s[k] <= m
  {
    if |s| == 1 then s[0]
    else
      var init := s[..|s| - 1];
      var m0 := MaxOf(init);
      assert forall k :: 0 <= k < |init| ==> init[k] == s[k];
      if s[|s| - 1] > m0 then s[|s| - 1] else m0
  }

  /**
   * `respectOrder`: the label at `clusters[i][j]` is followed by the next
   * integer label in the same cluster, or, for the cluster's largest label,
   * in the next cluster.  The last cluster always respects order.
   */
  predicate RespectOrder(clusters: seq<seq<int>>, i: nat, j: nat)
    requires i < |clusters| && j < |clusters[i]|
  {
    var l := clusters[i][j];
    if i == |clusters| - 1 then true
    else if l != MaxOf(clusters[i]) then l + 1 in clusters[i]
    else l + 1 in clusters[i + 1]
  }

  function IntLe(a: int, b: int): bool {
    a <= b
  }

  /** `mergeClusters(clusters, i, i + 1)`: the two clusters become one, sorted ascending. */
  function MergeNext(clusters: seq<seq<int>>, i: nat): (r: seq<seq<int>>)
    requires i + 1 < |clusters|
    ensures |r| == |clusters| - 1
    ensures multiset(r[i]) == multiset(clusters[i] + clusters[i + 1])
    ensures r[..i] == clusters[..i]
    ensures r[i + 1..] == clusters[i + 2..]
  {
    var merged := Sort(clusters[i] + clusters[i + 1], IntLe);
    var r := clusters[..i] + [merged] + clusters[i + 2..];
    assert r[i] == merged;
    assert r[..i] == clusters[..i];
    assert r[i + 1..] == clusters[i + 2..];
    r
  }

  /** Merging keeps every label. */
  lemma MergeNextKeepsLabels(clusters: seq<seq<int>>, i: nat)
    requires i + 1 < |clusters|
    ensures multiset(Flatten(MergeNext(clusters, i))) == multiset(Flatten(clusters))
  {
    var a, b := clusters[..i], clusters[i + 2..];
    var c1, c2 := clusters[i], clusters[i + 1];
    FlattenAroundPair(a, c1, c2, b);
    SplitAroundPair(clusters, i);
    var m := Sort(c1 + c2, IntLe);
    FlattenAroundOne(a, m, b);
  }

  lemma SplitAroundPair<T>(s: seq<T>, i: nat)
    requires i + 1 < |s|
    ensures s == s[..i] + [s[i], s[i + 1]] + s[i + 2..]
  {
    assert s == s[..i] + s[i..];
    assert s[i..] == [s[i], s[i + 1]] + s[i + 2..];
  }

  lemma FlattenAroundPair(a: seq<seq<int>>, c1: seq<int>, c2: seq<int>, b: seq<seq<int>>)
    ensures Flatten(a + [c1, c2] + b) == Flatten(a) + (c1 + c2) + Flatten(b)
  {
    var a1 := a + [c1];
    var a12 := a1 + [c2];
    assert a + [c1, c2] == a12;
    FlattenConcat(a12, b);
    FlattenAppend(a1, c2);
    FlattenAppend(a, c1);
  }

  lemma FlattenAroundOne(a: seq<seq<int>>, m: seq<int>, b: seq<seq<int>>)
    ensures Flatten(a + [m] + b) == Flatten(a) + m + Flatten(b)
  {
    FlattenConcat(a + [m], b);
    FlattenAppend(a, m);
  }

  /** The merged cluster is sorted ascending. */
  lemma MergeNextSorts(clusters: seq<seq<int>>, i: nat)
    requires i + 1 < |clusters|
    ensures SortedBy(MergeNext(clusters, i)[i], IntLe)
  {
    SortSorted(clusters[i] + clusters[i + 1], IntLe);
  }

  /**
   * The nested loops of `reorganizeClusters` from cluster `i`, label `j` on;
   * both bounds are re-read after every merge.
   */
  function ReorgFrom(clusters: seq<seq<int>>, i: nat, j: nat): seq<seq<int>>
    decreases |clusters| - i, if i < |clusters| then |clusters[i]| - j else 0
  {
    if i + 1 >= |clusters| then clusters
    else if j >= |clusters[i]| then ReorgFrom(clusters, i + 1, 0)
    else if RespectOrder(clusters, i, j) then ReorgFrom(clusters, i, j + 1)
    else ReorgFrom(MergeNext(clusters, i), i, j + 1)
  }

  /** `reorganizeClusters`: keeps every label and never adds a cluster. */
  function Reorganized(clusters: seq<seq<int>>): (r: seq<seq<int>>)
    ensures multiset(Flatten(r)) == multiset(Flatten(clusters))
    ensures |Flatten(r)| == |Flatten(clusters)|
    ensures |r| <= |clusters|
  {
    ReorgFromKeepsLabels(clusters, 0, 0);
    var r := ReorgFrom(clusters, 0, 0);
    assert |multiset(Flatten(r))| == |multiset(Flatten(clusters))|;
    r
  }

  lemma {:induction false} ReorgFromKeepsLabels(clusters: seq<seq<int>>, i: nat, j: nat)
    ensures multiset(Flatten(ReorgFrom(clusters, i, j))) == multiset(Flatten(clusters))
    ensures |ReorgFrom(clusters, i, j)| <= |clusters|
    decreases |clusters| - i, if i < |clusters| then |clusters[i]| - j else 0
  {
    if i + 1 >= |clusters| {
    } else if j >= |clusters[i]| {
      ReorgFromKeepsLabels(clusters, i + 1, 0);
    } else if RespectOrder(clusters, i, j) {
      ReorgFromKeepsLabels(clusters, i, j + 1);
    } else {
      MergeNextKeepsLabels(clusters, i);
      ReorgFromKeepsLabels(MergeNext(clusters, i), i, j + 1);
    }
  }

  /** Non-empty clusters of consecutive labels, each continuing where the previous one ended. */
  predicate Consecutive(clusters: seq<seq<int>>) {
    && (forall i :: 0 <= i < |clusters| ==> |clusters[i]| > 0)
    && (forall i, j :: 0 <= i < |clusters| && 0 <= j < |clusters[i]| - 1 ==>
          clusters[i][j + 1] == clusters[i][j] + 1)
    && (forall i :: 0 <= i < |clusters| - 1 ==>
          clusters[i + 1][0] == clusters[i][|clusters[i]| - 1] + 1)
  }

  lemma {:induction false} RunValue(s: seq<int>, k: nat)
    requires forall j :: 0 <= j < |s| - 1 ==> s[j + 1] == s[j] + 1
    requires k < |s|
    ensures s[k] == s[0] + k
  {
    if k > 0 {
      RunValue(s, k - 1);
    }
  }

  lemma ConsecutiveRespectsOrder(clusters: seq<seq<int>>, i: nat, j: nat)
    requires Consecutive(clusters) && i < |clusters| && j < |clusters[i]|
    ensures RespectOrder(clusters, i, j)
  {
    var c := clusters[i];
    var last := |c| - 1;
    forall k | 0 <= k < |c| ensures c[k] == c[0] + k {
      RunValue(c, k);
    }
    var m := MaxOf(c);
    assert m == c[last];
    if j < last {
      assert c[j] + 1 == c[j + 1];
    }
  }

  lemma {:induction false} ReorgFromOfConsecutive(clusters: seq<seq<int>>, i: nat, j: nat)
    requires Consecutive(clusters)
    ensures ReorgFrom(clusters, i, j) == clusters
    decreases |clusters| - i, if i < |clusters| then |clusters[i]| - j else 0
  {
    if i + 1 >= |clusters| {
    } else if j >= |clusters[i]| {
      ReorgFromOfConsecutive(clusters, i + 1, 0);
    } else {
      ConsecutiveRespectsOrder(clusters, i, j);
      ReorgFromOfConsecutive(clusters, i, j + 1);
    }
  }

  /** Clusters that already follow the label order are left as they are. */
  lemma ReorganizedOfConsecutive(clusters: seq<seq<int>>)
    requires Consecutive(clusters)
    ensures Reorganized(clusters) == clusters
  {
    ReorgFromOfConsecutive(clusters, 0, 0);
  }

  /** Interleaved labels are merged: `[[0, 2], [1, 3]]` becomes `[[0, 1, 2, 3]]`. */
  lemma ReorganizedMergesInterleaved()
    ensures Reorganized([[0, 2], [1, 3]]) == [[0, 1, 2, 3]]
  {
    var cs, merged := [[0, 2], [1, 3]], [[0, 1, 2, 3]];
    assert !RespectOrder(cs, 0, 0) by {
      assert MaxOf([0, 2]) == 2;
    }
    assert ReorgFrom(cs, 0, 0) == ReorgFrom(MergeNext(cs, 0), 0, 1);
    MergeExample();
    assert ReorgFrom(merged, 0, 1) == merged;
  }

  lemma MergeExample()
    ensures MergeNext([[0, 2], [1, 3]], 0) == [[0, 1, 2, 3]]
  {
    var cs := [[0, 2], [1, 3]];
    assert cs[..0] == [] && cs[2..] == [];
    assert cs[0] + cs[1] == [0, 2, 1, 3];
    SortExample();
  }

  lemma SortExample()
    ensures Sort([0, 2, 1, 3], IntLe) == [0, 1, 2, 3]
  {
    SortExampleTail();
    assert [0, 2, 1, 3][1..] == [2, 1, 3];
    assert Insert(0, [1, 2, 3], IntLe) == [0, 1, 2, 3];
  }

  lemma SortExampleTail()
    ensures Sort([2, 1, 3], IntLe) == [1, 2, 3]
  {
    assert [2, 1, 3][1..] == [1, 3];
    assert [1, 3][1..] == [3];
    assert [3][1..] == [];
    assert Sort([3], IntLe) == [3];
    assert Sort([1, 3], IntLe) == [1, 3];
    assert [1, 3][1..] == [3];
    assert Insert(2, [3], IntLe) == [2, 3];
    assert Insert(2, [1, 3], IntLe) == [1, 2, 3];
  }

  // ---------------------------------------------------------------------
  // Handing out the data
  // ---------------------------------------------------------------------

  /**
   * `clusterizeData`'s hand-out: the data in order, the first `|clusters[0]|`
   * elements to the first cluster, the next ones to the second, and so on.
   * The labels themselves are not read.
   */
  function HandOut<T>(data: seq<T>, clusters: seq<seq<int>>): (groups: seq<seq<T>>)
    requires |Flatten(clusters)| <= |data|
    ensures |groups| == |clusters|
    ensures forall k :: 0 <= k < |clusters| ==> |groups[k]| == |clusters[k]|
    ensures Flatten(groups) == data[..|Flatten(clusters)|]
    decreases |clusters|
  {
    if clusters == [] then []
    else
      var init, last := clusters[..|clusters| - 1], clusters[|clusters| - 1];
      var from := |Flatten(init)|;
      var g := HandOut(data, init);
      FlattenAppend(g, data[from..from + |last|]);
      g + [data[from..from + |last|]]
  }

  lemma FlattenPrefixLength<T>(ss: seq<seq<T>>, k: nat)
    requires k < |ss|
    ensures |Flatten(ss[..k + 1])| == |Flatten(ss[..k])| + |ss[k]|
    ensures |Flatten(ss[..k + 1])| <= |Flatten(ss)|
  {
    assert ss[..k + 1] == ss[..k] + [ss[k]];
    FlattenAppend(ss[..k], ss[k]);
    assert ss == ss[..k + 1] + ss[k + 1..];
    FlattenConcat(ss[..k + 1], ss[k + 1..]);
  }

  /** Handing out one more cluster appends its share of the data, right after the previous shares. */
  lemma HandOutStep<T>(data: seq<T>, clusters: seq<seq<int>>, k: nat)
    requires k < |clusters| && |Flatten(clusters)| <= |data|
    ensures |Flatten(clusters[..k + 1])| == |Flatten(clusters[..k])| + |clusters[k]| <= |data|
    ensures HandOut(data, clusters[..k + 1]) ==
              HandOut(data, clusters[..k]) + [data[|Flatten(clusters[..k])|..|Flatten(clusters[..k + 1])|]]
  {
    FlattenPrefixLength(clusters, k);
    assert clusters[..k + 1][..k] == clusters[..k];
  }

  // ---------------------------------------------------------------------
  // The imperative code
  // ---------------------------------------------------------------------

  /** `reorganizeClusters`, with the source's nested loops. */
  method ReorganizeClusters(clusters: seq<seq<int>>) returns (result: seq<seq<int>>)
    ensures result == Reorganized(clusters)
  {
    var cs := clusters;
    var i := 0;
    while i < |cs| - 1
      invariant ReorgFrom(cs, i, 0) == Reorganized(clusters)
      decreases |cs| - i
    {
      ghost var before := |cs|;
      var j := 0;
      while j < |cs[i]|
        invariant i < |cs| <= before
        invariant ReorgFrom(cs, i, j) == Reorganized(clusters)
        decreases |cs|, |cs[i]| - j
      {
        if !RespectOrder(cs, i, j) {
          cs := MergeNext(cs, i);
        }
        j := j + 1;
      }
      i := i + 1;
    }
    result := cs;
  }

  /** `clusterizeData`: reorganise, then hand the data out with a running counter. */
  method ClusterizeData<T>(data: seq<T>, clusters: seq<seq<int>>) returns (groups: seq<seq<T>>)
    requires |Flatten(clusters)| <= |data|
    ensures groups == HandOut(data, Reorganized(clusters))
  {
    var newClusters := ReorganizeClusters(clusters);
    assert newClusters[..0] == [];
    var cpt := 0;
    groups := [];
    var k := 0;
    while k < |newClusters|
      invariant 0 <= k <= |newClusters|
      invariant cpt == |Flatten(newClusters[..k])| <= |data|
      invariant groups == HandOut(data, newClusters[..k])
    {
      FlattenPrefixLength(newClusters, k);
      ghost var start := cpt;
      var clu := newClusters[k];
      var group := [];
      var m := 0;
      while m < |clu|
        invariant 0 <= m <= |clu|
        invariant cpt == start + m
        invariant group == data[start..cpt]
      {
        group := group + [data[cpt]];
        cpt := cpt + 1;
        m := m + 1;
      }
      HandOutStep(data, newClusters, k);
      groups := groups + [group];
      k := k + 1;
    }
    assert newClusters[..k] == newClusters;
  }

  /**
   * The body of the main loop of `gradientClustering` at a position with
   * label `o`, given the outcome of each test made there: noise, special
   * configuration, inflection, left turn, rising next reachability.
   */
  method ScanPosition(clusters: seq<seq<int>>, current: seq<int>, o: int, noise: bool, nextNoise: bool,
                      special: bool, inflection: bool, leftTurn: bool, rising: bool)
    returns (clusters': seq<seq<int>>, current': seq<int>)
    ensures Scan(clusters', current') == Advance(Scan(clusters, current), o, noise, nextNoise, special, inflection, leftTurn, rising)
  {
    clusters', current' := clusters, current;
    if noise {
      if |current'| > 0 {
        clusters' := clusters' + [current'];
      }
      current' := [o];
      if nextNoise {
        clusters' := clusters' + [current'];
        current' := [];
      }
      return;
    }
    if special {
      clusters' := clusters' + [current'];
      current' := [];
    }
    if inflection {
      if leftTurn {
        current' := current' + [o];
        if rising {
          clusters' := clusters' + [current'];
          current' := [];
        }
      } else {
        if |current'| > 0 {
          clusters' := clusters' + [current'];
        }
        current' := [o];
      }
    } else {
      current' := current' + [o];
    }
  }

  // ---------------------------------------------------------------------
  // The temporal test case: reachabilities [undefined, 2, 3, 45, 20, 30]
  // ---------------------------------------------------------------------

  /** The test's plot: identity ordering, `gradientAngle(15, 1)` and bound 1000. */
  function ExampleInput<T>(data: seq<T>, calendar: Calendar<T>): Input<T> {
    Input(data, Optics([None, Some(2.0), Some(3.0), Some(45.0), Some(20.0), Some(30.0)], [0, 1, 2, 3, 4, 5]),
          GradientAngle(15.0, Some(1.0)), 1000.0, calendar)
  }

  lemma ExampleReach<T>(data: seq<T>, calendar: Calendar<T>)
    ensures Reach(ExampleInput(data, calendar)) == [MaxValue, 2.0, 3.0, 45.0, 20.0, 30.0]
    ensures ExampleInput(data, calendar).angle == 224.0 / 226.0
  {
  }

  /**
   * Position 1: no test fires, label 1 joins label 0 (next to the undefined
   * reachability the index is a signed zero).
   */
  lemma ExampleStep1<T>(data: seq<T>, calendar: Calendar<T>)
    requires |data| == 6
    ensures ScanTo(ExampleInput(data, calendar), 2) == Scan([], [0, 1])
  {
    var inp := ExampleInput(data, calendar);
    ExampleReach(data, calendar);
    var a := 224.0 / 226.0;
    assert !Special(inp, 1);
    NoInflectionNextToUndefined(MaxValue, 2.0, 3.0, a);
    ScanToSucc(inp, 1);
  }

  /** Position 2: the rise to 45 is neither steep enough nor an inflection. */
  lemma ExampleStep2<T>(data: seq<T>, calendar: Calendar<T>)
    requires |data| == 6
    ensures ScanTo(ExampleInput(data, calendar), 3) == Scan([], [0, 1, 2])
  {
    var inp := ExampleInput(data, calendar);
    ExampleReach(data, calendar);
    var a := 224.0 / 226.0;
    assert !InflectionAbove(2.0, 3.0, 3.0 + (3.0 - 45.0), a);
    assert !InflectionAbove(2.0, 3.0, 45.0, a);
    ExampleStep1(data, calendar);
    ScanToNext(inp, 2);
  }

  /**
   * Position 3: the drop of 25 from 45 to 20 exceeds 15, which closes
   * `[0, 1, 2]`; the inflection there (right turn) starts `[3]`.
   */
  lemma ExampleStep3<T>(data: seq<T>, calendar: Calendar<T>)
    requires |data| == 6
    ensures ScanTo(ExampleInput(data, calendar), 4) == Scan([[0, 1, 2]], [3])
  {
    var inp := ExampleInput(data, calendar);
    ExampleReach(data, calendar);
    var a := 224.0 / 226.0;
    DecreasingSlopeIsSteepDrop(45.0, 20.0, 15.0, Some(1.0));
    assert InflectionAbove(3.0, 45.0, 20.0, a);
    ExampleStep2(data, calendar);
    ScanToNext(inp, 3);
  }

  /** Position 4: no test fires, label 4 joins label 3. */
  lemma ExampleStep4<T>(data: seq<T>, calendar: Calendar<T>)
    requires |data| == 6
    ensures ScanTo(ExampleInput(data, calendar), 5) == Scan([[0, 1, 2]], [3, 4])
  {
    var inp := ExampleInput(data, calendar);
    ExampleReach(data, calendar);
    var a := 224.0 / 226.0;
    assert !InflectionAbove(45.0, 20.0, 30.0, a);
    ExampleStep3(data, calendar);
    ScanToNext(inp, 4);
  }

  /**
   * The test case of the temporal metric: the six points fall into the two
   * clusters `[d0, d1, d2]` and `[d3, d4, d5]`.
   */
  lemma ExampleExtracted<T>(data: seq<T>, calendar: Calendar<T>)
    requires |data| == 6
    ensures Extracted(ExampleInput(data, calendar)) == [[0, 1, 2], [3, 4, 5]]
  {
    var inp := ExampleInput(data, calendar);
    ExampleReach(data, calendar);
    ExampleStep4(data, calendar);
    ExtractedIsFinishedScan(inp);
    assert LoopEnd(|inp.data|) == 5;
    var s := ScanTo(inp, 5);
    assert s == Scan([[0, 1, 2]], [3, 4]);
    assert Reach(inp)[5] < inp.maxBound;
    assert inp.optics.ordering[5] == 5;
    assert Finish(inp, s) == [[0, 1, 2], [3, 4] + [5]];
    assert [3, 4] + [5] == [3, 4, 5];
  }

  lemma ExampleHandOut<T>(data: seq<T>)
    requires |data| == 6
    ensures HandOut(data, [[0, 1, 2], [3, 4, 5]]) == [data[..3], data[3..]]
  {
    var cs := [[0, 1, 2], [3, 4, 5]];
    assert cs[..1] == [[0, 1, 2]];
    assert [[0, 1, 2]][..0] == [];
    assert Flatten([[0, 1, 2]]) == [0, 1, 2];
    assert HandOut(data, [[0, 1, 2]]) == [data[0..3]];
    assert |Flatten(cs[..1])| == 3;
    assert HandOut(data, cs) == HandOut(data, cs[..1]) + [data[3..3 + |cs[1]|]];
    assert data[3..3 + |cs[1]|] == data[3..];
  }

  lemma ExampleConsecutive()
    ensures Consecutive([[0, 1, 2], [3, 4, 5]])
  {
    var cs := [[0, 1, 2], [3, 4, 5]];
    forall i, j | 0 <= i < |cs| && 0 <= j < |cs[i]| - 1
      ensures cs[i][j + 1] == cs[i][j] + 1
    {
      assert cs[i] == [3 * i, 3 * i + 1, 3 * i + 2];
    }
  }

  lemma GradientClusteringExample<T>(data: seq<T>, calendar: Calendar<T>)
    requires |data| == 6
    ensures HandOut(data, Reorganized(Extracted(ExampleInput(data, calendar)))) == [data[..3], data[3..]]
  {
    var cs := [[0, 1, 2], [3, 4, 5]];
    ExampleExtracted(data, calendar);
    ExampleConsecutive();
    ReorganizedOfConsecutive(cs);
    ExampleHandOut(data);
  }

  // ---------------------------------------------------------------------
  // The spatial test case: reachabilities [undefined, 11.12, 386.76,
  // 68.81, 244.94, undefined] in the OPTICS order [0, 1, 4, 3, 2, 5]
  // ---------------------------------------------------------------------

  /** The test's plot, with the same angle and bound as the temporal one. */
  function SpatialInput<T>(data: seq<T>, calendar: Calendar<T>): Input<T> {
    Input(data, Optics([None, Some(11.119492664456596), Some(386.7568104542309), Some(68.80809741870237),
                        Some(244.93521262919106), None], [0, 1, 4, 3, 2, 5]),
          GradientAngle(15.0, Some(1.0)), 1000.0, calendar)
  }

  lemma SpatialReach<T>(data: seq<T>, calendar: Calendar<T>)
    ensures Reach(SpatialInput(data, calendar)) ==
              [MaxValue, 11.119492664456596, 386.7568104542309, 68.80809741870237, 244.93521262919106, MaxValue]
    ensures SpatialInput(data, calendar).angle == 224.0 / 226.0
  {
  }

  /** Position 1: next to the undefined reachability no test fires; label 1 joins label 0. */
  lemma SpatialStep1<T>(data: seq<T>, calendar: Calendar<T>)
    requires |data| == 6
    ensures ScanTo(SpatialInput(data, calendar), 2) == Scan([], [0, 1])
  {
    var inp := SpatialInput(data, calendar);
    SpatialReach(data, calendar);
    assert !Special(inp, 1);
    NoInflectionNextToUndefined(MaxValue, 11.119492664456596, 386.7568104542309, 224.0 / 226.0);
    ScanToSucc(inp, 1);
  }

  /**
   * Position 2: the drop from 386.76 to 68.81 exceeds 15, which closes
   * `[0, 1]`; the inflection there (right turn) starts `[4]`.
   */
  lemma SpatialStep2<T>(data: seq<T>, calendar: Calendar<T>)
    requires |data| == 6
    ensures ScanTo(SpatialInput(data, calendar), 3) == Scan([[0, 1]], [4])
  {
    var inp := SpatialInput(data, calendar);
    SpatialReach(data, calendar);
    var x, y, z := 11.119492664456596, 386.7568104542309, 68.80809741870237;
    assert !LengthOverflows(x, y) && !LengthOverflows(y, z) && !LengthOverflows(z, y);
    DecreasingSlopeIsSteepDrop(y, z, 15.0, Some(1.0));
    assert Special(inp, 2);
    assert InflectionAbove(x, y, z, 224.0 / 226.0);
    SpatialStep1(data, calendar);
    ScanToNext(inp, 2);
  }

  /**
   * Position 3: the inflection at 68.81 turns left on a rise, which closes
   * `[4, 3]` with label 3 in it.
   */
  lemma SpatialStep3<T>(data: seq<T>, calendar: Calendar<T>)
    requires |data| == 6
    ensures ScanTo(SpatialInput(data, calendar), 4) == Scan([[0, 1], [4, 3]], [])
  {
    var inp := SpatialInput(data, calendar);
    SpatialReach(data, calendar);
    var x, y, z := 386.7568104542309, 68.80809741870237, 244.93521262919106;
    assert !LengthOverflows(x, y) && !LengthOverflows(y, z);
    assert !Special(inp, 3);
    assert InflectionAbove(x, y, z, 224.0 / 226.0);
    assert GradientDeterminant(x, y, z) < 0.0 && z - y > 0.0;
    SpatialStep2(data, calendar);
    ScanToNext(inp, 3);
    assert [4] + [3] == [4, 3];
  }

  /** Position 4: next to the undefined reachability no test fires; label 2 starts a cluster. */
  lemma SpatialStep4<T>(data: seq<T>, calendar: Calendar<T>)
    requires |data| == 6
    ensures ScanTo(SpatialInput(data, calendar), 5) == Scan([[0, 1], [4, 3]], [2])
  {
    var inp := SpatialInput(data, calendar);
    SpatialReach(data, calendar);
    NoInflectionNextToUndefined(68.80809741870237, 244.93521262919106, MaxValue, 224.0 / 226.0);
    assert !Special(inp, 4);
    SpatialStep3(data, calendar);
    ScanToNext(inp, 4);
  }

  /** The undefined last reachability makes label 5 a cluster of its own. */
  lemma SpatialExtracted<T>(data: seq<T>, calendar: Calendar<T>)
    requires |data| == 6
    ensures Extracted(SpatialInput(data, calendar)) == [[0, 1], [4, 3], [2], [5]]
  {
    var inp := SpatialInput(data, calendar);
    SpatialReach(data, calendar);
    SpatialStep4(data, calendar);
    ExtractedIsFinishedScan(inp);
    assert LoopEnd(|inp.data|) == 5;
    var s := ScanTo(inp, 5);
    assert Reach(inp)[5] > inp.maxBound;
    assert inp.optics.ordering[5] == 5;
    assert Finish(inp, s) == Saved([[0, 1], [4, 3]], [2]) + [[5]];
  }

  /**
   * Label 1 is the largest of `[0, 1]` and 2 is not in `[4, 3]`, so the two
   * merge; then 4 is the largest of `[0, 1, 3, 4]` and 5 is not in `[2]`, so
   * these merge too.
   */
  lemma SpatialReorganized()
    ensures Reorganized([[0, 1], [4, 3], [2], [5]]) == [[0, 1, 2, 3, 4], [5]]
  {
    SpatialReorgFirst();
    SpatialReorgSecond();
    SpatialReorgLast();
  }

  lemma SpatialReorgFirst()
    ensures ReorgFrom([[0, 1], [4, 3], [2], [5]], 0, 0) == ReorgFrom([[0, 1, 3, 4], [2], [5]], 0, 2)
  {
    var cs := [[0, 1], [4, 3], [2], [5]];
    assert MaxOf([0, 1]) == 1;
    assert RespectOrder(cs, 0, 0);
    assert !RespectOrder(cs, 0, 1);
    SpatialMergeFirst();
  }

  lemma SpatialReorgSecond()
    ensures ReorgFrom([[0, 1, 3, 4], [2], [5]], 0, 2) == ReorgFrom([[0, 1, 2, 3, 4], [5]], 0, 4)
  {
    var cs := [[0, 1, 3, 4], [2], [5]];
    assert MaxOf([0, 1, 3, 4]) == 4 by {
      assert [0, 1, 3, 4][..3] == [0, 1, 3];
      assert [0, 1, 3][..2] == [0, 1];
    }
    assert RespectOrder(cs, 0, 2);
    assert !RespectOrder(cs, 0, 3);
    SpatialMergeSecond();
  }

  lemma SpatialReorgLast()
    ensures ReorgFrom([[0, 1, 2, 3, 4], [5]], 0, 4) == [[0, 1, 2, 3, 4], [5]]
  {
    assert RespectOrder([[0, 1, 2, 3, 4], [5]], 0, 4);
  }

  lemma SpatialMergeFirst()
    ensures MergeNext([[0, 1], [4, 3], [2], [5]], 0) == [[0, 1, 3, 4], [2], [5]]
  {
    var cs := [[0, 1], [4, 3], [2], [5]];
    assert cs[0] + cs[1] == [0, 1, 4, 3];
    SortSwapsLastTwo(0, 1, 3, 4);
  }

  lemma SpatialMergeSecond()
    ensures MergeNext([[0, 1, 3, 4], [2], [5]], 0) == [[0, 1, 2, 3, 4], [5]]
  {
    var cs := [[0, 1, 3, 4], [2], [5]];
    assert cs[0] + cs[1] == [0, 1, 3, 4, 2];
    SortMovesLastIntoPlace(0, 1, 2, 3, 4);
  }

  /** Two ascending lists of the same labels are equal: sorting has one possible result. */
  lemma {:induction false} AscendingPermutationUnique(s: seq<int>, t: seq<int>)
    requires SortedBy(s, IntLe) && SortedBy(t, IntLe) && multiset(s) == multiset(t)
    ensures s == t
    decreases |s|
  {
    assert |s| == |multiset(s)| == |multiset(t)| == |t|;
    if s != [] {
      assert t[0] in multiset(s) && s[0] in multiset(t);
      var i :| 0 <= i < |s| && s[i] == t[0];
      var j :| 0 <= j < |t| && t[j] == s[0];
      if i > 0 {
        assert IntLe(s[0], s[i]);
      }
      if j > 0 {
        assert IntLe(t[0], t[j]);
      }
      assert s[0] == t[0];
      assert s == [s[0]] + s[1..] && t == [t[0]] + t[1..];
      assert multiset(s[1..]) == multiset(s) - multiset{s[0]};
      assert multiset(t[1..]) == multiset(t) - multiset{t[0]};
      AscendingTail(s);
      AscendingTail(t);
      AscendingPermutationUnique(s[1..], t[1..]);
    }
  }

  lemma AscendingTail(s: seq<int>)
    requires SortedBy(s, IntLe) && s != []
    ensures SortedBy(s[1..], IntLe)
  {
    forall i, j | 0 <= i < j < |s| - 1
      ensures IntLe(s[1..][i], s[1..][j])
    {
      assert IntLe(s[i + 1], s[j + 1]);
    }
  }

  /** Sorting labels yields their one ascending arrangement. */
  lemma SortIsAscendingPermutation(s: seq<int>, t: seq<int>)
    requires SortedBy(t, IntLe) && multiset(s) == multiset(t)
    ensures Sort(s, IntLe) == t
  {
    SortSorted(s, IntLe);
    AscendingPermutationUnique(Sort(s, IntLe), t);
  }

  lemma SortSwapsLastTwo(a: int, b: int, c: int, d: int)
    requires a <= b <= c <= d
    ensures Sort([a, b, d, c], IntLe) == [a, b, c, d]
  {
    AscendingFour(a, b, c, d);
    SwappedLastTwo(a, b, c, d);
    SortIsAscendingPermutation([a, b, d, c], [a, b, c, d]);
  }

  lemma AscendingFour(a: int, b: int, c: int, d: int)
    requires a <= b <= c <= d
    ensures SortedBy([a, b, c, d], IntLe)
  {
  }

  lemma SwappedLastTwo(a: int, b: int, c: int, d: int)
    ensures multiset([a, b, d, c]) == multiset([a, b, c, d])
  {
  }

  lemma SortMovesLastIntoPlace(a: int, b: int, c: int, d: int, e: int)
    requires a <= b <= c <= d <= e
    ensures Sort([a, b, d, e, c], IntLe) == [a, b, c, d, e]
  {
    AscendingFive(a, b, c, d, e);
    MovedLast(a, b, c, d, e);
    SortIsAscendingPermutation([a, b, d, e, c], [a, b, c, d, e]);
  }

  lemma AscendingFive(a: int, b: int, c: int, d: int, e: int)
    requires a <= b <= c <= d <= e
    ensures SortedBy([a, b, c, d, e], IntLe)
  {
  }

  lemma MovedLast(a: int, b: int, c: int, d: int, e: int)
    ensures multiset([a, b, d, e, c]) == multiset([a, b, c, d, e])
  {
  }

  lemma SpatialHandOut<T>(data: seq<T>)
    requires |data| == 6
    ensures HandOut(data, [[0, 1, 2, 3, 4], [5]]) == [data[..5], data[5..]]
  {
    var cs := [[0, 1, 2, 3, 4], [5]];
    assert cs[..1] == [[0, 1, 2, 3, 4]];
    assert [[0, 1, 2, 3, 4]][..0] == [];
    assert Flatten([[0, 1, 2, 3, 4]]) == [0, 1, 2, 3, 4];
    assert HandOut(data, [[0, 1, 2, 3, 4]]) == [data[0..5]];
    assert |Flatten(cs[..1])| == 5;
    assert HandOut(data, cs) == HandOut(data, cs[..1]) + [data[5..5 + |cs[1]|]];
    assert data[5..5 + |cs[1]|] == data[5..];
  }

  /**
   * The test case of the spatial metric: the scan yields `[[0, 1], [4, 3],
   * [2], [5]]`, reorganised into `[[0, 1, 2, 3, 4], [5]]`, so the result is
   * the first five data points, then the last one.
   */
  lemma SpatialClusteringExample<T>(data: seq<T>, calendar: Calendar<T>)
    requires |data| == 6
    ensures HandOut(data, Reorganized(Extracted(SpatialInput(data, calendar)))) == [data[..5], data[5..]]
  {
    SpatialExtracted(data, calendar);
    SpatialReorganized();
    SpatialHandOut(data);
  }

  /**
   * The first part of `gradientClustering(data, optics, angle, maxBound)`:
   * the scan of the reachability plot and its tail, which yield the clusters
   * of labels.
   */
  method ScanPlot<T>(data: seq<T>, optics: Optics, angle: real, maxBound: real, calendar: Calendar<T>)
    returns (clusters: seq<seq<int>>)
    requires |data| == |optics.reachabilities| == |optics.ordering| >= 2
    ensures clusters == Extracted(Input(data, optics, angle, maxBound, calendar))
  {
    ghost var inp := Input(data, optics, angle, maxBound, calendar);
    var reachabilities := FillUndefined(optics.reachabilities);
    var current;
    clusters, current := ScanLoop(data, optics, angle, maxBound, calendar, reachabilities);
    clusters := ScanTail(data, optics, angle, maxBound, calendar, reachabilities, clusters, current);
    assert LoopEnd(|data|) == |data| - 1;
    ExtractedIsFinishedScan(inp);
  }

  /** The main loop of `gradientClustering`, over every point but the first and the last. */
  method ScanLoop<T>(data: seq<T>, optics: Optics, angle: real, maxBound: real, calendar: Calendar<T>,
                     reachabilities: seq<real>)
    returns (clusters: seq<seq<int>>, current: seq<int>)
    requires |data| == |optics.reachabilities| == |optics.ordering| >= 2
    requires reachabilities == FillUndefined(optics.reachabilities)
    ensures Scan(clusters, current) == ScanTo(Input(data, optics, angle, maxBound, calendar), |data| - 1)
  {
    ghost var inp := Input(data, optics, angle, maxBound, calendar);
    clusters := [];
    current := [0];
    var i := 1;
    while i < |reachabilities| - 1
      invariant 1 <= i <= |reachabilities| - 1
      invariant Scan(clusters, current) == ScanTo(inp, i)
    {
      ScanToSucc(inp, i);
      clusters, current := ScanStep(data, optics, angle, maxBound, calendar, reachabilities, i, clusters, current);
      i := i + 1;
    }
    assert i == |data| - 1;
  }

  /** One pass of the main loop of `gradientClustering`, at position `i`. */
  method ScanStep<T>(data: seq<T>, optics: Optics, angle: real, maxBound: real, calendar: Calendar<T>,
                     reachabilities: seq<real>, i: nat, clusters: seq<seq<int>>, current: seq<int>)
    returns (clusters': seq<seq<int>>, current': seq<int>)
    requires |data| == |optics.reachabilities| == |optics.ordering| >= 2
    requires reachabilities == FillUndefined(optics.reachabilities)
    requires 1 <= i < |reachabilities| - 1
    ensures Scan(clusters', current') == Step(Input(data, optics, angle, maxBound, calendar), Scan(clusters, current), i)
  {
    ghost var inp := Input(data, optics, angle, maxBound, calendar);
    assert reachabilities == Reach(inp);
    var prevR, currR, nextR := reachabilities[i - 1], reachabilities[i], reachabilities[i + 1];
    var lonelyPt := LonelyPoint(calendar, data[i - 1], data[i], prevR, currR, nextR);
    var incrSlope := IncreasingSlope(prevR, currR, Some(nextR), angle);
    var decrSlope := DecreasingSlope(currR, Some(nextR), angle);
    assert Special(inp, i) == (lonelyPt || incrSlope || decrSlope);
    clusters', current' := ScanPosition(clusters, current, optics.ordering[i], currR > maxBound, nextR > maxBound,
                                        lonelyPt || incrSlope || decrSlope, InflectionAbove(prevR, currR, nextR, angle),
                                        GradientDeterminant(prevR, currR, nextR) < 0.0, nextR - currR > 0.0);
  }

  /** The tail of `gradientClustering`'s scan: the last point, after the loop. */
  method ScanTail<T>(data: seq<T>, optics: Optics, angle: real, maxBound: real, calendar: Calendar<T>,
                     reachabilities: seq<real>, clusters: seq<seq<int>>, current: seq<int>)
    returns (clusters': seq<seq<int>>)
    requires |data| == |optics.reachabilities| == |optics.ordering| >= 2
    requires reachabilities == FillUndefined(optics.reachabilities)
    ensures clusters' == Finish(Input(data, optics, angle, maxBound, calendar), Scan(clusters, current))
  {
    ghost var inp := Input(data, optics, angle, maxBound, calendar);
    var lastPt := reachabilities[|reachabilities| - 1];
    var lastOrd := optics.ordering[|optics.ordering| - 1];
    assert lastPt == Reach(inp)[|data| - 1] && lastOrd == inp.optics.ordering[|data| - 1];
    if |current| > 0 && lastPt < maxBound {
      clusters' := clusters + [current + [lastOrd]];
    } else {
      clusters' := clusters;
      if |current| > 0 {
        clusters' := clusters' + [current];
      }
      assert clusters' == Saved(clusters, current);
      clusters' := clusters' + [[lastOrd]];
    }
  }

  /**
   * `gradientClustering(data, optics, angle, maxBound)`: the scan of the
   * reachability plot, the tail, then `clusterizeData`.  Every data point
   * ends up in exactly one group, in order.
   */
  method GradientClustering<T>(data: seq<T>, optics: Optics, angle: real, maxBound: real, calendar: Calendar<T>)
    returns (groups: seq<seq<T>>)
    requires |data| == |optics.reachabilities| == |optics.ordering| >= 2
    ensures groups == HandOut(data, Reorganized(Extracted(Input(data, optics, angle, maxBound, calendar))))
    ensures Flatten(groups) == data
  {
    var clusters := ScanPlot(data, optics, angle, maxBound, calendar);
    ExtractedLabelCount(Input(data, optics, angle, maxBound, calendar));
    HandOutCoversData(data, clusters);
    groups := ClusterizeData(data, clusters);
  }

  /** With one label per data point, the hand-out of the reorganised clusters is all the data, in order. */
  lemma HandOutCoversData<T>(data: seq<T>, clusters: seq<seq<int>>)
    requires |Flatten(clusters)| == |data|
    ensures Flatten(HandOut(data, Reorganized(clusters))) == data
  {
    assert |Flatten(Reorganized(clusters))| == |data|;
    assert data[..|data|] == data;
  }
}
