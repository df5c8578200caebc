/**
 * The tridiagonal systems that generateNatural and generateClamped assemble
 * for the tangents of a natural or clamped cubic spline, the methods that fill
 * the band arrays, and what a solution of each system means for the curve.
 *
 * Row k of a system over the unknown tangents x reads
 *   lower[k - 1] * x[k - 1] + diagonal[k] * x[k] + upper[k] * x[k + 1] == right[k]
 * where the first term is absent in row 0 and the last in row n - 1.
 */
module TridiagonalBands {
  import opened HermiteBasis
  import opened TangentSlices

  /** The four band arrays handed to the tridiagonal solver. */
  datatype Bands = Bands(lower: seq<real>, diagonal: seq<real>, upper: seq<real>, right: seq<real>)

  /** A system of n rows: off-diagonals of length n - 1, diagonal and right-hand side of length n. */
  predicate Shaped(b: Bands, n: nat)
  {
    |b.lower| == n - 1 && |b.upper| == n - 1 && |b.diagonal| == n && |b.right| == n
  }

  /** The left-hand side of row k for the unknowns x. */
  function RowValue(b: Bands, x: seq<real>, k: nat): real
    requires Shaped(b, |x|) && k < |x|
  {
    (if k > 0 then b.lower[k - 1] * x[k - 1] else 0.0)
    + b.diagonal[k] * x[k]
    + (if k < |x| - 1 then b.upper[k] * x[k + 1] else 0.0)
  }

  /** x satisfies every row of the system b. */
  predicate Solves(b: Bands, x: seq<real>)
  {
    Shaped(b, |x|) && forall k :: 0 <= k < |x| ==> RowValue(b, x, k) == b.right[k]
  }

  /**
   * The bands of generateNatural for n >= 2 points: off-diagonals all 1, the
   * diagonal 2 at both ends and 4 inside, right-hand side 3 (p[1] - p[0]) in
   * the first row, 3 (p[k + 1] - p[k - 1]) inside and 3 (p[n - 1] - p[n - 2])
   * in the last.
   */
  predicate IsNaturalBands(points: seq<real>, b: Bands)
    requires |points| >= 2
  {
    var n := |points|;
    Shaped(b, n)
    && (forall k :: 0 <= k < n - 1 ==> b.lower[k] == 1.0 && b.upper[k] == 1.0)
    && b.diagonal[0] == 2.0 && b.diagonal[n - 1] == 2.0
    && (forall k :: 0 < k < n - 1 ==> b.diagonal[k] == 4.0)
    && b.right[0] == (points[1] - points[0]) * 3.0
    && (forall k :: 0 < k < n - 1 ==> b.right[k] == (points[k + 1] - points[k - 1]) * 3.0)
    && b.right[n - 1] == (points[n - 1] - points[n - 2]) * 3.0
  }

  /**
   * The bands of generateClamped for n >= 3 points: the first row is
   * x[0] == firstTangent, the last row x[n - 1] == lastTangent, and every
   * interior row is x[k - 1] + 4 x[k] + x[k + 1] == 3 (p[k + 1] - p[k - 1]).
   */
  predicate IsClampedBands(points: seq<real>, firstTangent: real, lastTangent: real, b: Bands)
    requires |points| >= 3
  {
    var n := |points|;
    Shaped(b, n)
    && b.diagonal[0] == 1.0 && b.upper[0] == 0.0 && b.right[0] == firstTangent
    && (forall k :: 0 <= k < n - 2 ==> b.lower[k] == 1.0)
    && (forall k :: 0 < k < n - 1 ==> b.upper[k] == 1.0 && b.diagonal[k] == 4.0)
    && (forall k :: 0 < k < n - 1 ==> b.right[k] == (points[k + 1] - points[k - 1]) * 3.0)
    && b.lower[n - 2] == 0.0 && b.diagonal[n - 1] == 1.0 && b.right[n - 1] == lastTangent
  }

  /** The natural bands of a point list are determined by it. */
  lemma NaturalBandsUnique(points: seq<real>, b1: Bands, b2: Bands)
    requires |points| >= 2 && IsNaturalBands(points, b1) && IsNaturalBands(points, b2)
    ensures b1 == b2
  {
    var n := |points|;
    assert b1.lower == b2.lower && b1.upper == b2.upper;
    assert forall k :: 0 <= k < n ==> b1.diagonal[k] == b2.diagonal[k] && b1.right[k] == b2.right[k];
    assert b1.diagonal == b2.diagonal && b1.right == b2.right;
  }

  /** The clamped bands of a point list and its two end tangents are determined by them. */
  lemma ClampedBandsUnique(points: seq<real>, firstTangent: real, lastTangent: real, b1: Bands, b2: Bands)
    requires |points| >= 3
    requires IsClampedBands(points, firstTangent, lastTangent, b1) && IsClampedBands(points, firstTangent, lastTangent, b2)
    ensures b1 == b2
  {
    var n := |points|;
    assert forall k :: 0 <= k < n - 1 ==> b1.lower[k] == b2.lower[k] && b1.upper[k] == b2.upper[k];
    assert forall k :: 0 <= k < n ==> b1.diagonal[k] == b2.diagonal[k] && b1.right[k] == b2.right[k];
    assert b1.lower == b2.lower && b1.upper == b2.upper;
    assert b1.diagonal == b2.diagonal && b1.right == b2.right;
  }

  /** generateNatural up to the solver call: fills fresh band arrays and returns their contents. */
  method GenerateNatural(points: seq<real>) returns (bands: Bands)
    requires |points| >= 2
    ensures IsNaturalBands(points, bands)
  {
    var n := |points|;
    var l := new real[n - 1];
    var u := new real[n - 1];
    var d := new real[n];
    var r := new real[n];

    l[0], u[0] := 1.0, 1.0;
    d[0] := 2.0;
    r[0] := (points[1] - points[0]) * 3.0;

    var i := 1;
    while i < l.Length
      invariant 1 <= i <= n - 1
      invariant forall k :: 0 <= k < i ==> l[k] == 1.0 && u[k] == 1.0
      invariant d[0] == 2.0 && forall k :: 0 < k < i ==> d[k] == 4.0
      invariant r[0] == (points[1] - points[0]) * 3.0
      invariant forall k :: 0 < k < i ==> r[k] == (points[k + 1] - points[k - 1]) * 3.0
    {
      l[i], u[i] := 1.0, 1.0;
      d[i] := 4.0;
      r[i] := (points[i + 1] - points[i - 1]) * 3.0;
      i := i + 1;
    }

    // the loop leaves i at the last row
    d[i] := 2.0;
    r[i] := (points[i] - points[i - 1]) * 3.0;

    bands := Bands(l[..], d[..], u[..], r[..]);
    forall k | 0 < k < n - 1
      ensures bands.right[k] == (points[k + 1] - points[k - 1]) * 3.0
      ensures bands.diagonal[k] == 4.0
    {
      assert k < i;
      assert bands.right[k] == r[k] && bands.diagonal[k] == d[k];
    }
  }

  /** generateClamped up to the solver call, for the n >= 3 points its caller passes. */
  method GenerateClamped(points: seq<real>, firstTangent: real, lastTangent: real) returns (bands: Bands)
    requires |points| >= 3
    ensures IsClampedBands(points, firstTangent, lastTangent, bands)
  {
    var n := |points|;
    var l := new real[n - 1];
    var u := new real[n - 1];
    var d := new real[n];
    var r := new real[n];

    l[0], d[0] := 1.0, 1.0;
    u[0] := 0.0;
    r[0] := firstTangent;

    var i := 1;
    while i < l.Length - 1
      invariant 1 <= i <= n - 2
      invariant l[0] == 1.0 && d[0] == 1.0 && u[0] == 0.0 && r[0] == firstTangent
      invariant forall k :: 0 < k < i ==> l[k] == 1.0
      invariant forall k :: 0 < k < i ==> u[k] == 1.0
      invariant forall k :: 0 < k < i ==> d[k] == 4.0
      invariant forall k :: 0 < k < i ==> r[k] == (points[k + 1] - points[k - 1]) * 3.0
    {
      l[i], u[i] := 1.0, 1.0;
      d[i] := 4.0;
      r[i] := (points[i + 1] - points[i - 1]) * 3.0;
      i := i + 1;
    }

    // the loop leaves i at the last interior row, n - 2
    l[i] := 0.0;
    u[i] := 1.0;
    d[i] := 4.0;
    r[i] := (points[i + 1] - points[i - 1]) * 3.0;

    d[i + 1] := 1.0;
    r[i + 1] := lastTangent;

    assert i == n - 2;
    bands := Bands(l[..], d[..], u[..], r[..]);
    forall k | 0 < k < n - 1
      ensures bands.right[k] == (points[k + 1] - points[k - 1]) * 3.0
      ensures bands.diagonal[k] == 4.0 && bands.upper[k] == 1.0
    {
      assert bands.right[k] == r[k] && bands.diagonal[k] == d[k] && bands.upper[k] == u[k];
    }
    forall k | 0 <= k < n - 2
      ensures bands.lower[k] == 1.0
    {
      assert bands.lower[k] == l[k];
    }
  }

  /**
   * Segment k of the curve in the unit-step parameter: from points[k] to
   * points[k + 1] with end slopes outTangents[k] and inTangents[k].
   */
  function Segment(points: seq<real>, outTangents: seq<real>, inTangents: seq<real>, k: nat): Cubic
    requires k + 1 < |points| && k < |outTangents| && k < |inTangents|
  {
    SegmentCubic(points[k], points[k + 1], outTangents[k], inTangents[k])
  }

  /** Per-segment tangent arrays of n - 1 entries each for n points. */
  predicate SegmentsShaped(points: seq<real>, outTangents: seq<real>, inTangents: seq<real>)
  {
    |points| >= 2 && |outTangents| == |points| - 1 && |inTangents| == |points| - 1
  }

  /** The second derivative does not jump at interior control point k. */
  predicate CurvatureContinuousAt(points: seq<real>, outTangents: seq<real>, inTangents: seq<real>, k: nat)
    requires SegmentsShaped(points, outTangents, inTangents) && 0 < k < |points| - 1
  {
    CubicCurvature(Segment(points, outTangents, inTangents, k - 1), 1.0)
      == CubicCurvature(Segment(points, outTangents, inTangents, k), 0.0)
  }

  /** The second derivative is continuous at every interior control point. */
  predicate CurvatureContinuous(points: seq<real>, outTangents: seq<real>, inTangents: seq<real>)
    requires SegmentsShaped(points, outTangents, inTangents)
  {
    forall k :: 0 < k < |points| - 1 ==> CurvatureContinuousAt(points, outTangents, inTangents, k)
  }

  /** A natural cubic spline: C2 inside, second derivative zero at both ends. */
  predicate IsNaturalCurve(points: seq<real>, outTangents: seq<real>, inTangents: seq<real>)
    requires SegmentsShaped(points, outTangents, inTangents)
  {
    var n := |points|;
    CurvatureContinuous(points, outTangents, inTangents)
    && CubicCurvature(Segment(points, outTangents, inTangents, 0), 0.0) == 0.0
    && CubicCurvature(Segment(points, outTangents, inTangents, n - 2), 1.0) == 0.0
  }

  /** A clamped cubic spline: C2 inside, the given slopes at both ends. */
  predicate IsClampedCurve(points: seq<real>, outTangents: seq<real>, inTangents: seq<real>, firstTangent: real, lastTangent: real)
    requires SegmentsShaped(points, outTangents, inTangents)
  {
    var n := |points|;
    CurvatureContinuous(points, outTangents, inTangents)
    && outTangents[0] == firstTangent && inTangents[n - 2] == lastTangent
  }

  /** An interior row of either system is the curvature continuity condition at its control point. */
  lemma InteriorRow(points: seq<real>, b: Bands, x: seq<real>, k: nat)
    requires |points| >= 2 && |x| == |points| && Shaped(b, |x|) && 0 < k < |x| - 1
    requires b.lower[k - 1] == 1.0 && b.diagonal[k] == 4.0 && b.upper[k] == 1.0
    requires b.right[k] == (points[k + 1] - points[k - 1]) * 3.0
    ensures RowValue(b, x, k) == b.right[k]
        <==> CurvatureContinuousAt(points, OutTangentsOf(x), InTangentsOf(x), k)
  {
    var out, inn := OutTangentsOf(x), InTangentsOf(x);
    SegmentCubicCurvature(points[k - 1], points[k], out[k - 1], inn[k - 1]);
    SegmentCubicCurvature(points[k], points[k + 1], out[k], inn[k]);
    assert out[k - 1] == x[k - 1] && inn[k - 1] == x[k] && out[k] == x[k] && inn[k] == x[k + 1];
  }

  /**
   * x solves the natural system exactly when the curve with tangents x, read
   * with unit time steps, is a natural cubic spline.
   */
  lemma NaturalBandsMeanNaturalSpline(points: seq<real>, b: Bands, x: seq<real>)
    requires |points| >= 2 && IsNaturalBands(points, b) && |x| == |points|
    ensures SegmentsShaped(points, OutTangentsOf(x), InTangentsOf(x))
    ensures Solves(b, x) <==> IsNaturalCurve(points, OutTangentsOf(x), InTangentsOf(x))
  {
    var n := |points|;
    var out, inn := OutTangentsOf(x), InTangentsOf(x);
    SegmentCubicCurvature(points[0], points[1], out[0], inn[0]);
    SegmentCubicCurvature(points[n - 2], points[n - 1], out[n - 2], inn[n - 2]);
    assert RowValue(b, x, 0) == b.right[0]
      <==> CubicCurvature(Segment(points, out, inn, 0), 0.0) == 0.0;
    assert RowValue(b, x, n - 1) == b.right[n - 1]
      <==> CubicCurvature(Segment(points, out, inn, n - 2), 1.0) == 0.0;
    forall k | 0 < k < n - 1
      ensures RowValue(b, x, k) == b.right[k] <==> CurvatureContinuousAt(points, out, inn, k)
    {
      InteriorRow(points, b, x, k);
    }
  }

  /**
   * x solves the clamped system exactly when the curve with tangents x, read
   * with unit time steps, is C2 and starts and ends with the given slopes.
   */
  lemma ClampedBandsMeanClampedSpline(points: seq<real>, firstTangent: real, lastTangent: real, b: Bands, x: seq<real>)
    requires |points| >= 3 && IsClampedBands(points, firstTangent, lastTangent, b) && |x| == |points|
    ensures SegmentsShaped(points, OutTangentsOf(x), InTangentsOf(x))
    ensures Solves(b, x) <==> IsClampedCurve(points, OutTangentsOf(x), InTangentsOf(x), firstTangent, lastTangent)
  {
    var n := |points|;
    var out, inn := OutTangentsOf(x), InTangentsOf(x);
    assert RowValue(b, x, 0) == x[0] && out[0] == x[0];
    assert RowValue(b, x, n - 1) == x[n - 1] && inn[n - 2] == x[n - 1];
    forall k | 0 < k < n - 1
      ensures RowValue(b, x, k) == b.right[k] <==> CurvatureContinuousAt(points, out, inn, k)
    {
      InteriorRow(points, b, x, k);
    }
  }
}
