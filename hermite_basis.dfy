/**
 * The cubic Hermite basis: the coefficient matrix of HermiteSpline, the four
 * basis weights it yields for a local parameter u, and one scalar segment of
 * the curve.
 */
module HermiteBasis {

  /**
   * HermiteSpline.hermiteCoefficientMatrix, row by row. Row k holds the
   * coefficients of (u^3, u^2, u, 1) of the k-th basis weight; the weights are
   * ordered start point, end point, out-tangent, in-tangent.
   */
  const CoefficientMatrix: seq<seq<real>> := [
    [ 2.0, -3.0, 0.0, 1.0],
    [-2.0,  3.0, 0.0, 0.0],
    [ 1.0, -2.0, 1.0, 0.0],
    [ 1.0, -1.0, 0.0, 0.0]
  ]

  /**
   * The four end conditions a Hermite segment is built from, each applied to
   * the monomials (u^3, u^2, u, 1): the value at u = 0, the value at u = 1,
   * the slope at u = 0 and the slope at u = 1.
   */
  const EndConditions: seq<seq<real>> := [
    [0.0, 0.0, 0.0, 1.0],
    [1.0, 1.0, 1.0, 1.0],
    [0.0, 0.0, 1.0, 0.0],
    [3.0, 2.0, 1.0, 0.0]
  ]

  predicate IsMatrix4(m: seq<seq<real>>)
  {
    |m| == 4 && forall k :: 0 <= k < 4 ==> |m[k]| == 4
  }

  function Dot4(a: seq<real>, b: seq<real>): real
    requires |a| == 4 && |b| == 4
  {
    a[0] * b[0] + a[1] * b[1] + a[2] * b[2] + a[3] * b[3]
  }

  /**
   * Row k of the coefficient matrix is the basis weight that meets end
   * condition k and vanishes under the other three: the matrix is the inverse
   * of the end conditions.
   */
  lemma CoefficientMatrixInvertsEndConditions()
    ensures IsMatrix4(CoefficientMatrix) && IsMatrix4(EndConditions)
    ensures forall k, j :: 0 <= k < 4 && 0 <= j < 4 ==>
      Dot4(CoefficientMatrix[k], EndConditions[j]) == if k == j then 1.0 else 0.0
  {
  }

  /**
   * The four basis weights at u, in the order start, end, out-tangent,
   * in-tangent. They are the textbook Hermite basis functions, in factored
   * form h00 = (1 + 2u)(1 - u)^2, h01 = u^2 (3 - 2u), h10 = u (1 - u)^2 and
   * h11 = u^2 (u - 1).
   *
   * evaluate computes them as Matrix4.multiplyByVector of the coefficient
   * matrix and the vector (u^3, u^2, u, 1) it builds in scratchTimeVec.
   */
  function BasisWeights(u: real): (c: seq<real>)
    ensures |c| == 4
    ensures c[0] == (1.0 + 2.0 * u) * (1.0 - u) * (1.0 - u)
    ensures c[1] == u * u * (3.0 - 2.0 * u)
    ensures c[2] == u * (1.0 - u) * (1.0 - u)
    ensures c[3] == u * u * (u - 1.0)
  {
    var u2 := u * u;
    var timeVector := [u2 * u, u2, u, 1.0];
    var m := CoefficientMatrix;
    [Dot4(m[0], timeVector), Dot4(m[1], timeVector), Dot4(m[2], timeVector), Dot4(m[3], timeVector)]
  }

  /** At u = 0 the curve is the start point: weights (1, 0, 0, 0). */
  lemma WeightsAtStart()
    ensures BasisWeights(0.0) == [1.0, 0.0, 0.0, 0.0]
  {
  }

  /** At u = 1 the curve is the end point: weights (0, 1, 0, 0). */
  lemma WeightsAtEnd()
    ensures BasisWeights(1.0) == [0.0, 1.0, 0.0, 0.0]
  {
  }

  /** The start and end weights form a partition of unity. */
  lemma EndpointWeightsSumToOne(u: real)
    ensures BasisWeights(u)[0] + BasisWeights(u)[1] == 1.0
  {
  }

  /** A cubic polynomial a u^3 + b u^2 + c u + d in the local parameter u. */
  datatype Cubic = Cubic(a: real, b: real, c: real, d: real)

  function CubicAt(q: Cubic, u: real): real
  {
    q.a * (u * u * u) + q.b * (u * u) + q.c * u + q.d
  }

  /** The first derivative of q with respect to u. */
  function CubicSlope(q: Cubic, u: real): real
  {
    3.0 * q.a * (u * u) + 2.0 * q.b * u + q.c
  }

  /** The second derivative of q with respect to u. */
  function CubicCurvature(q: Cubic, u: real): real
  {
    6.0 * q.a * u + 2.0 * q.b
  }

  /**
   * The polynomial of the segment from p0 to p1 whose u-derivatives at its ends
   * are m0 and m1: column j of the coefficient matrix weighted by
   * (p0, p1, m0, m1).
   */
  function SegmentCubic(p0: real, p1: real, m0: real, m1: real): Cubic
  {
    var w := [p0, p1, m0, m1];
    var M := CoefficientMatrix;
    Cubic(
      w[0] * M[0][0] + w[1] * M[1][0] + w[2] * M[2][0] + w[3] * M[3][0],
      w[0] * M[0][1] + w[1] * M[1][1] + w[2] * M[2][1] + w[3] * M[3][1],
      w[0] * M[0][2] + w[1] * M[1][2] + w[2] * M[2][2] + w[3] * M[3][2],
      w[0] * M[0][3] + w[1] * M[1][3] + w[2] * M[2][3] + w[3] * M[3][3])
  }

  /** The segment cubic interpolates its end points and has the given end slopes. */
  lemma SegmentCubicEnds(p0: real, p1: real, m0: real, m1: real)
    ensures CubicAt(SegmentCubic(p0, p1, m0, m1), 0.0) == p0
    ensures CubicAt(SegmentCubic(p0, p1, m0, m1), 1.0) == p1
    ensures CubicSlope(SegmentCubic(p0, p1, m0, m1), 0.0) == m0
    ensures CubicSlope(SegmentCubic(p0, p1, m0, m1), 1.0) == m1
  {
  }

  /** The second derivatives at the two ends of a segment, in closed form. */
  lemma SegmentCubicCurvature(p0: real, p1: real, m0: real, m1: real)
    ensures CubicCurvature(SegmentCubic(p0, p1, m0, m1), 0.0) == 6.0 * (p1 - p0) - 4.0 * m0 - 2.0 * m1
    ensures CubicCurvature(SegmentCubic(p0, p1, m0, m1), 1.0) == 6.0 * (p0 - p1) + 2.0 * m0 + 4.0 * m1
  {
  }

  /** Weighting the basis weights by (p0, p1, m0, m1) evaluates the segment cubic. */
  lemma WeightsEvaluateSegmentCubic(p0: real, p1: real, m0: real, m1: real, u: real)
    ensures var c := BasisWeights(u);
      p0 * c[0] + p1 * c[1] + m0 * c[2] + m1 * c[3] == CubicAt(SegmentCubic(p0, p1, m0, m1), u)
  {
    var u2 := u * u;
    var u3 := u2 * u;
    var c := BasisWeights(u);
    assert c[0] == 2.0 * u3 - 3.0 * u2 + 1.0;
    assert c[1] == -2.0 * u3 + 3.0 * u2;
    assert c[2] == u3 - 2.0 * u2 + u;
    assert c[3] == u3 - u2;
    assert u * u * u == u3;
  }

  /** Scaling the tangent weights by d is scaling the tangents by d. */
  lemma ScaledTangentWeights(p0: real, p1: real, outTangent: real, inTangent: real, d: real, c: seq<real>)
    requires |c| == 4
    ensures p0 * c[0] + p1 * c[1] + outTangent * (c[2] * d) + inTangent * (c[3] * d)
      == p0 * c[0] + p1 * c[1] + (outTangent * d) * c[2] + (inTangent * d) * c[3]
  {
  }

  /**
   * One segment of evaluate for scalar points (the Number branch): the local
   * parameter u = (t - t0) / (t1 - t0), the basis weights at u, and the tangent
   * weights multiplied by the time delta. The value is the segment cubic in u
   * whose end slopes are the tangents scaled by the time delta.
   */
  function SegmentValue(p0: real, p1: real, outTangent: real, inTangent: real, t0: real, t1: real, t: real): (r: real)
    requires t0 != t1
    ensures r == CubicAt(SegmentCubic(p0, p1, outTangent * (t1 - t0), inTangent * (t1 - t0)), (t - t0) / (t1 - t0))
  {
    var timesDelta := t1 - t0;
    var u := (t - t0) / timesDelta;
    var c := BasisWeights(u);
    ScaledTangentWeights(p0, p1, outTangent, inTangent, timesDelta, c);
    WeightsEvaluateSegmentCubic(p0, p1, outTangent * timesDelta, inTangent * timesDelta, u);
    p0 * c[0] + p1 * c[1] + outTangent * (c[2] * timesDelta) + inTangent * (c[3] * timesDelta)
  }

  /** Evaluating a segment at its start time gives its start point. */
  lemma SegmentValueAtStart(p0: real, p1: real, outTangent: real, inTangent: real, t0: real, t1: real)
    requires t0 != t1
    ensures SegmentValue(p0, p1, outTangent, inTangent, t0, t1, t0) == p0
  {
    assert (t0 - t0) / (t1 - t0) == 0.0;
    WeightsAtStart();
  }

  /** Evaluating a segment at its end time gives its end point. */
  lemma SegmentValueAtEnd(p0: real, p1: real, outTangent: real, inTangent: real, t0: real, t1: real)
    requires t0 != t1
    ensures SegmentValue(p0, p1, outTangent, inTangent, t0, t1, t1) == p1
  {
    assert (t1 - t0) / (t1 - t0) == 1.0;
    WeightsAtEnd();
  }

  /** For increasing times and t within the segment, the local parameter lies in [0, 1]. */
  lemma LocalParameterInUnitInterval(t0: real, t1: real, t: real)
    requires t0 < t1 && t0 <= t <= t1
    ensures 0.0 <= (t - t0) / (t1 - t0) <= 1.0
  {
    var d := t1 - t0;
    var u := (t - t0) / d;
    assert u * d == t - t0;
    assert u * d - 1.0 * d == (u - 1.0) * d;
    assert (u - 1.0) * d <= 0.0;
  }

  /**
   * Because the tangent weights are multiplied by the time delta, the slope of
   * a segment with respect to time at its ends is its out- and in-tangent.
   */
  lemma SegmentTimeSlopes(p0: real, p1: real, outTangent: real, inTangent: real, t0: real, t1: real)
    requires t0 != t1
    ensures CubicSlope(SegmentCubic(p0, p1, outTangent * (t1 - t0), inTangent * (t1 - t0)), 0.0) / (t1 - t0) == outTangent
    ensures CubicSlope(SegmentCubic(p0, p1, outTangent * (t1 - t0), inTangent * (t1 - t0)), 1.0) / (t1 - t0) == inTangent
  {
    var delta := t1 - t0;
    SegmentCubicEnds(p0, p1, outTangent * delta, inTangent * delta);
  }
}
