/**
 * The tangent systems of generateNatural and generateClamped read against the
 * curve that evaluate draws, whose segments are scaled by their time steps.
 *
 * evaluate turns segment k into the cubic in u = (t - times[k]) / h_k with
 * u-slopes h_k * outTangents[k] and h_k * inTangents[k], where
 * h_k = times[k + 1] - times[k]; its second derivative with respect to time
 * is the second u-derivative divided by h_k^2. The systems of the two
 * factories do not look at times, so they describe that curve only when every
 * h_k is 1. The system that describes it for any increasing times has the
 * interior rows
 *   h_k x[k - 1] + 2 (h_{k-1} + h_k) x[k] + h_{k-1} x[k + 1]
 *     == 3 (h_k (p[k] - p[k - 1]) / h_{k-1} + h_{k-1} (p[k + 1] - p[k]) / h_k)
 * which are the factories' rows when every h_k is 1.
 */
module TimedBands {
  import opened HermiteBasis
  import opened TangentSlices
  import opened TridiagonalBands

  /** Consecutive times increase, so every time step is positive. */
  predicate Increasing(times: seq<real>)
  {
    forall k :: 0 <= k < |times| - 1 ==> times[k] < times[k + 1]
  }

  /** Increasing times rise from every entry to every later one. */
  lemma {:induction false} IncreasingBetween(times: seq<real>, j: nat, k: nat)
    requires Increasing(times) && j < k < |times|
    ensures times[j] < times[k]
    decreases k - j
  {
    if j + 1 < k {
      IncreasingBetween(times, j + 1, k);
    }
  }

  /** The time step of segment k. */
  function Step(times: seq<real>, k: nat): real
    requires k + 1 < |times|
  {
    times[k + 1] - times[k]
  }

  /** The chord of segment k: how far the curve moves along it. */
  function Chord(points: seq<real>, k: nat): real
    requires k + 1 < |points|
  {
    points[k + 1] - points[k]
  }

  /**
   * The second time derivative at the start of a segment of time step h and
   * chord d whose time slopes are s at its start and t at its end.
   */
  function StartCurvature(d: real, s: real, t: real, h: real): real
    requires h > 0.0
  {
    (6.0 * d - 4.0 * (s * h) - 2.0 * (t * h)) / h / h
  }

  /** The same at the end of the segment. */
  function EndCurvature(d: real, s: real, t: real, h: real): real
    requires h > 0.0
  {
    (6.0 * -d + 2.0 * (s * h) + 4.0 * (t * h)) / h / h
  }

  /**
   * The left-hand side of the C2 condition at a joint between segments of
   * time steps h0 and h1: x, y0 are the time slopes of the left segment,
   * y1, z those of the right one.
   */
  function JointLeft(h0: real, h1: real, x: real, y0: real, y1: real, z: real): real
  {
    h1 * x + 2.0 * h1 * y0 + 2.0 * h0 * y1 + h0 * z
  }

  /** The right-hand side of that condition, for chords p and q of the two segments. */
  function JointRight(h0: real, h1: real, p: real, q: real): real
    requires h0 > 0.0 && h1 > 0.0
  {
    3.0 * (h1 * p / h0 + h0 * q / h1)
  }

  /** Points, times and per-segment tangents that fit together. */
  predicate TimedShaped(times: seq<real>, points: seq<real>, outTangents: seq<real>, inTangents: seq<real>)
  {
    SegmentsShaped(points, outTangents, inTangents) && |times| == |points| && Increasing(times)
  }

  /** Segment k as evaluate draws it, a cubic in its local parameter u. */
  function TimedSegment(times: seq<real>, points: seq<real>, outTangents: seq<real>, inTangents: seq<real>, k: nat): Cubic
    requires TimedShaped(times, points, outTangents, inTangents) && k < |points| - 1
  {
    SegmentCubic(points[k], points[k + 1], outTangents[k] * Step(times, k), inTangents[k] * Step(times, k))
  }

  /** TimedSegment is the curve evaluate draws on segment k, read at its local parameter. */
  lemma TimedSegmentIsEvaluated(times: seq<real>, points: seq<real>, outTangents: seq<real>, inTangents: seq<real>, k: nat, t: real)
    requires TimedShaped(times, points, outTangents, inTangents) && k < |points| - 1
    ensures SegmentValue(points[k], points[k + 1], outTangents[k], inTangents[k], times[k], times[k + 1], t)
      == CubicAt(TimedSegment(times, points, outTangents, inTangents, k), (t - times[k]) / Step(times, k))
  {
  }

  /** The second time derivative of segment k at its start. */
  function TimeCurvatureAtStart(times: seq<real>, points: seq<real>, outTangents: seq<real>, inTangents: seq<real>, k: nat): real
    requires TimedShaped(times, points, outTangents, inTangents) && k < |points| - 1
  {
    CubicCurvature(TimedSegment(times, points, outTangents, inTangents, k), 0.0) / Step(times, k) / Step(times, k)
  }

  /** The second time derivative of segment k at its end. */
  function TimeCurvatureAtEnd(times: seq<real>, points: seq<real>, outTangents: seq<real>, inTangents: seq<real>, k: nat): real
    requires TimedShaped(times, points, outTangents, inTangents) && k < |points| - 1
  {
    CubicCurvature(TimedSegment(times, points, outTangents, inTangents, k), 1.0) / Step(times, k) / Step(times, k)
  }

  /** The second time derivative does not jump at interior control point k. */
  predicate TimeCurvatureContinuousAt(times: seq<real>, points: seq<real>, outTangents: seq<real>, inTangents: seq<real>, k: nat)
    requires TimedShaped(times, points, outTangents, inTangents) && 0 < k < |points| - 1
  {
    TimeCurvatureAtEnd(times, points, outTangents, inTangents, k - 1)
      == TimeCurvatureAtStart(times, points, outTangents, inTangents, k)
  }

  /** The curve evaluate draws is C2 in time at every interior control point. */
  predicate TimeCurvatureContinuous(times: seq<real>, points: seq<real>, outTangents: seq<real>, inTangents: seq<real>)
    requires TimedShaped(times, points, outTangents, inTangents)
  {
    forall k :: 0 < k < |points| - 1 ==> TimeCurvatureContinuousAt(times, points, outTangents, inTangents, k)
  }

  /** A natural cubic spline in time: C2, second time derivative zero at both ends. */
  predicate IsTimedNaturalCurve(times: seq<real>, points: seq<real>, outTangents: seq<real>, inTangents: seq<real>)
    requires TimedShaped(times, points, outTangents, inTangents)
  {
    var n := |points|;
    TimeCurvatureContinuous(times, points, outTangents, inTangents)
    && TimeCurvatureAtStart(times, points, outTangents, inTangents, 0) == 0.0
    && TimeCurvatureAtEnd(times, points, outTangents, inTangents, n - 2) == 0.0
  }

  /** A clamped cubic spline in time: C2, the given time slopes at both ends. */
  predicate IsTimedClampedCurve(times: seq<real>, points: seq<real>, outTangents: seq<real>, inTangents: seq<real>,
                                firstTangent: real, lastTangent: real)
    requires TimedShaped(times, points, outTangents, inTangents)
  {
    var n := |points|;
    TimeCurvatureContinuous(times, points, outTangents, inTangents)
    && outTangents[0] == firstTangent && inTangents[n - 2] == lastTangent
  }

  /** The C2 row of interior control point k for the actual time steps. */
  predicate IsTimedInteriorRow(times: seq<real>, points: seq<real>, b: Bands, k: nat)
    requires |points| >= 2 && |times| == |points| && Increasing(times) && Shaped(b, |points|) && 0 < k < |points| - 1
  {
    var h0, h1 := Step(times, k - 1), Step(times, k);
    b.lower[k - 1] == h1 && b.diagonal[k] == 2.0 * (h0 + h1) && b.upper[k] == h0
    && b.right[k] == 3.0 * (h1 * Chord(points, k - 1) / h0 + h0 * Chord(points, k) / h1)
  }

  /** The natural system for the actual time steps. */
  predicate IsTimedNaturalBands(times: seq<real>, points: seq<real>, b: Bands)
    requires |points| >= 2 && |times| == |points| && Increasing(times)
  {
    var n := |points|;
    Shaped(b, n)
    && b.diagonal[0] == 2.0 && b.upper[0] == 1.0
    && b.right[0] == 3.0 * Chord(points, 0) / Step(times, 0)
    && (forall k :: 0 < k < n - 1 ==> IsTimedInteriorRow(times, points, b, k))
    && b.lower[n - 2] == 1.0 && b.diagonal[n - 1] == 2.0
    && b.right[n - 1] == 3.0 * Chord(points, n - 2) / Step(times, n - 2)
  }

  /** The clamped system for the actual time steps: the end rows of generateClamped, timed interior rows. */
  predicate IsTimedClampedBands(times: seq<real>, points: seq<real>, firstTangent: real, lastTangent: real, b: Bands)
    requires |points| >= 3 && |times| == |points| && Increasing(times)
  {
    var n := |points|;
    Shaped(b, n)
    && b.diagonal[0] == 1.0 && b.upper[0] == 0.0 && b.right[0] == firstTangent
    && (forall k :: 0 < k < n - 1 ==> IsTimedInteriorRow(times, points, b, k))
    && b.lower[n - 2] == 0.0 && b.diagonal[n - 1] == 1.0 && b.right[n - 1] == lastTangent
  }

  /**
   * The algebra of one interior joint, for segments of time steps a and b > 0:
   * the left segment has chord p and u-slopes x a, y0 a, the right one chord q
   * and u-slopes y1 b, z b. Their second time derivatives at the joint agree
   * exactly when b x + 2 b y0 + 2 a y1 + a z == 3 (b p / a + a q / b).
   */
  lemma InteriorJump(a: real, b: real, x: real, y0: real, y1: real, z: real, p: real, q: real)
    requires a > 0.0 && b > 0.0
    ensures EndCurvature(p, x, y0, a) == StartCurvature(q, y1, z, b)
        <==> JointLeft(a, b, x, y0, y1, z) == JointRight(a, b, p, q)
  {
    var ia, ib := 1.0 / a, 1.0 / b;
    assert a * ia == 1.0 && b * ib == 1.0;
    assert (6.0 * -p + 2.0 * (x * a) + 4.0 * (y0 * a)) / a / a == -6.0 * p * ia * ia + 2.0 * x * ia + 4.0 * y0 * ia;
    assert (6.0 * q - 4.0 * (y1 * b) - 2.0 * (z * b)) / b / b == 6.0 * q * ib * ib - 4.0 * y1 * ib - 2.0 * z * ib;
    assert b * p / a == b * p * ia && a * q / b == a * q * ib;
    var residual := (b * x + 2.0 * b * y0 + 2.0 * a * y1 + a * z) - 3.0 * (b * p / a + a * q / b);
    assert (6.0 * -p + 2.0 * (x * a) + 4.0 * (y0 * a)) / a / a - (6.0 * q - 4.0 * (y1 * b) - 2.0 * (z * b)) / b / b
        == (2.0 * ia * ib) * residual;
    assert 2.0 * ia * ib != 0.0;
    ZeroProduct(2.0 * ia * ib, residual);
  }

  /** The second time derivatives at the two ends of segment k, in closed form. */
  lemma TimedSegmentCurvature(times: seq<real>, points: seq<real>, outTangents: seq<real>, inTangents: seq<real>, k: nat)
    requires TimedShaped(times, points, outTangents, inTangents) && k < |points| - 1
    ensures TimeCurvatureAtStart(times, points, outTangents, inTangents, k)
         == StartCurvature(Chord(points, k), outTangents[k], inTangents[k], Step(times, k))
    ensures TimeCurvatureAtEnd(times, points, outTangents, inTangents, k)
         == EndCurvature(Chord(points, k), outTangents[k], inTangents[k], Step(times, k))
  {
    var h := Step(times, k);
    SegmentCubicCurvature(points[k], points[k + 1], outTangents[k] * h, inTangents[k] * h);
  }

  /** The C2 condition at interior control point k, as a linear equation in the four tangents that meet there. */
  lemma JumpAt(times: seq<real>, points: seq<real>, outTangents: seq<real>, inTangents: seq<real>, k: nat)
    requires TimedShaped(times, points, outTangents, inTangents) && 0 < k < |points| - 1
    ensures var h0, h1 := Step(times, k - 1), Step(times, k);
      TimeCurvatureContinuousAt(times, points, outTangents, inTangents, k)
      <==> JointLeft(h0, h1, outTangents[k - 1], inTangents[k - 1], outTangents[k], inTangents[k])
           == JointRight(h0, h1, Chord(points, k - 1), Chord(points, k))
  {
    TimedSegmentCurvature(times, points, outTangents, inTangents, k - 1);
    TimedSegmentCurvature(times, points, outTangents, inTangents, k);
    InteriorJump(Step(times, k - 1), Step(times, k), outTangents[k - 1], inTangents[k - 1], outTangents[k], inTangents[k],
                 Chord(points, k - 1), Chord(points, k));
  }

  /** A timed interior row holds exactly when the second time derivative is continuous at its control point. */
  lemma TimedInteriorRow(times: seq<real>, points: seq<real>, b: Bands, x: seq<real>, k: nat)
    requires |points| >= 2 && |x| == |points| && |times| == |points| && Increasing(times)
    requires Shaped(b, |x|) && 0 < k < |x| - 1 && IsTimedInteriorRow(times, points, b, k)
    ensures TimedShaped(times, points, OutTangentsOf(x), InTangentsOf(x))
    ensures RowValue(b, x, k) == b.right[k]
        <==> TimeCurvatureContinuousAt(times, points, OutTangentsOf(x), InTangentsOf(x), k)
  {
    var out, inn := OutTangentsOf(x), InTangentsOf(x);
    var h0, h1 := Step(times, k - 1), Step(times, k);
    assert out[k - 1] == x[k - 1] && inn[k - 1] == x[k] && out[k] == x[k] && inn[k] == x[k + 1];
    JumpAt(times, points, out, inn, k);
    Distribute(h0, h1, x[k]);
  }

  lemma Distribute(h0: real, h1: real, y: real)
    ensures 2.0 * (h0 + h1) * y == 2.0 * h1 * y + 2.0 * h0 * y
  {
  }

  /**
   * x solves the timed natural system exactly when the curve evaluate draws
   * with tangents x is a natural cubic spline in time.
   */
  lemma TimedNaturalBandsMeanNaturalSpline(times: seq<real>, points: seq<real>, b: Bands, x: seq<real>)
    requires |points| >= 2 && |times| == |points| && Increasing(times)
    requires IsTimedNaturalBands(times, points, b) && |x| == |points|
    ensures TimedShaped(times, points, OutTangentsOf(x), InTangentsOf(x))
    ensures Solves(b, x) <==> IsTimedNaturalCurve(times, points, OutTangentsOf(x), InTangentsOf(x))
  {
    var n := |points|;
    var out, inn := OutTangentsOf(x), InTangentsOf(x);
    var h0, hl := Step(times, 0), Step(times, n - 2);
    TimedSegmentCurvature(times, points, out, inn, 0);
    TimedSegmentCurvature(times, points, out, inn, n - 2);
    EndRowIsZeroCurvature(Chord(points, 0), out[0], inn[0], h0);
    EndRowIsZeroCurvature(Chord(points, n - 2), out[n - 2], inn[n - 2], hl);
    assert RowValue(b, x, 0) == 2.0 * x[0] + x[1] && out[0] == x[0] && inn[0] == x[1];
    assert RowValue(b, x, n - 1) == x[n - 2] + 2.0 * x[n - 1] && out[n - 2] == x[n - 2] && inn[n - 2] == x[n - 1];
    forall k | 0 < k < n - 1
      ensures RowValue(b, x, k) == b.right[k] <==> TimeCurvatureContinuousAt(times, points, out, inn, k)
    {
      TimedInteriorRow(times, points, b, x, k);
    }
  }

  /**
   * The natural end rows: for a segment of chord d, time step h and time
   * slopes s and t at its ends, 2 s + t == 3 d / h exactly when its second
   * time derivative vanishes at the start, and s + 2 t == 3 d / h exactly
   * when it vanishes at the end.
   */
  lemma EndRowIsZeroCurvature(d: real, s: real, t: real, h: real)
    requires h > 0.0
    ensures 2.0 * s + t == 3.0 * d / h <==> StartCurvature(d, s, t, h) == 0.0
    ensures s + 2.0 * t == 3.0 * d / h <==> EndCurvature(d, s, t, h) == 0.0
  {
    var c := 3.0 * d / h;
    assert c * h == 3.0 * d;
    assert 6.0 * d - 4.0 * (s * h) - 2.0 * (t * h) == 2.0 * h * (c - (2.0 * s + t));
    assert 6.0 * -d + 2.0 * (s * h) + 4.0 * (t * h) == 2.0 * h * ((s + 2.0 * t) - c);
    ZeroOverStep(6.0 * d - 4.0 * (s * h) - 2.0 * (t * h), h);
    ZeroOverStep(6.0 * -d + 2.0 * (s * h) + 4.0 * (t * h), h);
    ZeroProduct(2.0 * h, c - (2.0 * s + t));
    ZeroProduct(2.0 * h, (s + 2.0 * t) - c);
  }

  lemma ZeroOverStep(e: real, h: real)
    requires h > 0.0
    ensures e / h / h == 0.0 <==> e == 0.0
  {
    assert (e / h) * h == e;
    assert (e / h / h) * h == e / h;
  }

  lemma ZeroProduct(a: real, e: real)
    requires a != 0.0
    ensures a * e == 0.0 <==> e == 0.0
  {
  }

  /**
   * x solves the timed clamped system exactly when the curve evaluate draws
   * with tangents x is C2 in time and has the given end slopes.
   */
  lemma TimedClampedBandsMeanClampedSpline(times: seq<real>, points: seq<real>, firstTangent: real, lastTangent: real,
                                            b: Bands, x: seq<real>)
    requires |points| >= 3 && |times| == |points| && Increasing(times)
    requires IsTimedClampedBands(times, points, firstTangent, lastTangent, b) && |x| == |points|
    ensures TimedShaped(times, points, OutTangentsOf(x), InTangentsOf(x))
    ensures Solves(b, x)
        <==> IsTimedClampedCurve(times, points, OutTangentsOf(x), InTangentsOf(x), firstTangent, lastTangent)
  {
    var n := |points|;
    var out, inn := OutTangentsOf(x), InTangentsOf(x);
    assert RowValue(b, x, 0) == x[0] && out[0] == x[0];
    assert RowValue(b, x, n - 1) == x[n - 1] && inn[n - 2] == x[n - 1];
    forall k | 0 < k < n - 1
      ensures RowValue(b, x, k) == b.right[k] <==> TimeCurvatureContinuousAt(times, points, out, inn, k)
    {
      TimedInteriorRow(times, points, b, x, k);
    }
  }

  /** Interior row k of the systems generateNatural and generateClamped fill. */
  predicate IsUnitInteriorRow(points: seq<real>, b: Bands, k: nat)
    requires Shaped(b, |points|) && 0 < k < |points| - 1
  {
    b.lower[k - 1] == 1.0 && b.diagonal[k] == 4.0 && b.upper[k] == 1.0
    && b.right[k] == (points[k + 1] - points[k - 1]) * 3.0
  }

  /** With unit time steps a timed interior row is the interior row the factories fill. */
  lemma UnitStepInteriorRow(times: seq<real>, points: seq<real>, b: Bands, k: nat)
    requires |points| >= 2 && |times| == |points| && Increasing(times) && Shaped(b, |points|) && 0 < k < |points| - 1
    requires Step(times, k - 1) == 1.0 && Step(times, k) == 1.0
    ensures IsTimedInteriorRow(times, points, b, k) <==> IsUnitInteriorRow(points, b, k)
  {
  }

  /** The natural bands, row by row. */
  lemma NaturalBandsByRows(points: seq<real>, b: Bands)
    requires |points| >= 2 && Shaped(b, |points|)
    ensures var n := |points|;
      IsNaturalBands(points, b)
      <==> (b.diagonal[0] == 2.0 && b.upper[0] == 1.0 && b.right[0] == (points[1] - points[0]) * 3.0
            && (forall k :: 0 < k < n - 1 ==> IsUnitInteriorRow(points, b, k))
            && b.lower[n - 2] == 1.0 && b.diagonal[n - 1] == 2.0
            && b.right[n - 1] == (points[n - 1] - points[n - 2]) * 3.0)
  {
    var n := |points|;
    if (forall k :: 0 < k < n - 1 ==> IsUnitInteriorRow(points, b, k)) && b.upper[0] == 1.0 && b.lower[n - 2] == 1.0 {
      forall k | 0 <= k < n - 1
        ensures b.lower[k] == 1.0 && b.upper[k] == 1.0
      {
        if k < n - 2 {
          assert IsUnitInteriorRow(points, b, k + 1);
          assert b.lower[(k + 1) - 1] == 1.0;
        }
        if 0 < k {
          assert IsUnitInteriorRow(points, b, k);
        }
      }
      forall k | 0 < k < n - 1
        ensures b.diagonal[k] == 4.0 && b.right[k] == (points[k + 1] - points[k - 1]) * 3.0
      {
        assert IsUnitInteriorRow(points, b, k);
      }
    }
    if IsNaturalBands(points, b) {
      forall k | 0 < k < n - 1
        ensures IsUnitInteriorRow(points, b, k)
      {
        assert b.lower[k - 1] == 1.0;
      }
    }
  }

  /** The clamped bands, row by row. */
  lemma ClampedBandsByRows(points: seq<real>, firstTangent: real, lastTangent: real, b: Bands)
    requires |points| >= 3 && Shaped(b, |points|)
    ensures var n := |points|;
      IsClampedBands(points, firstTangent, lastTangent, b)
      <==> (b.diagonal[0] == 1.0 && b.upper[0] == 0.0 && b.right[0] == firstTangent
            && (forall k :: 0 < k < n - 1 ==> IsUnitInteriorRow(points, b, k))
            && b.lower[n - 2] == 0.0 && b.diagonal[n - 1] == 1.0 && b.right[n - 1] == lastTangent)
  {
    var n := |points|;
    if forall k :: 0 < k < n - 1 ==> IsUnitInteriorRow(points, b, k) {
      forall k | 0 <= k < n - 2
        ensures b.lower[k] == 1.0
      {
        assert IsUnitInteriorRow(points, b, k + 1);
        assert b.lower[(k + 1) - 1] == 1.0;
      }
      forall k | 0 < k < n - 1
        ensures b.diagonal[k] == 4.0 && b.upper[k] == 1.0 && b.right[k] == (points[k + 1] - points[k - 1]) * 3.0
      {
        assert IsUnitInteriorRow(points, b, k);
      }
    }
    if IsClampedBands(points, firstTangent, lastTangent, b) {
      forall k | 0 < k < n - 1
        ensures IsUnitInteriorRow(points, b, k)
      {
        assert b.lower[k - 1] == 1.0;
      }
    }
  }

  /** With a unit time step the right-hand side of a natural end row is the one generateNatural writes. */
  lemma UnitStepEndRight(points: seq<real>, times: seq<real>, k: nat)
    requires k + 1 < |points| && k + 1 < |times| && Step(times, k) == 1.0
    ensures 3.0 * Chord(points, k) / Step(times, k) == (points[k + 1] - points[k]) * 3.0
  {
  }

  /** With unit time steps the timed natural system is exactly the system generateNatural fills. */
  lemma UnitStepsGiveNaturalBands(times: seq<real>, points: seq<real>, b: Bands)
    requires |points| >= 2 && |times| == |points| && Increasing(times)
    requires forall k :: 0 <= k < |times| - 1 ==> times[k + 1] == times[k] + 1.0
    ensures IsTimedNaturalBands(times, points, b) <==> IsNaturalBands(points, b)
  {
    var n := |points|;
    if Shaped(b, n) {
      NaturalBandsByRows(points, b);
      UnitStepEndRight(points, times, 0);
      UnitStepEndRight(points, times, n - 2);
      forall k | 0 < k < n - 1
        ensures IsTimedInteriorRow(times, points, b, k) <==> IsUnitInteriorRow(points, b, k)
      {
        UnitStepInteriorRow(times, points, b, k);
      }
    }
  }

  /** With unit time steps the timed clamped system is exactly the system generateClamped fills. */
  lemma UnitStepsGiveClampedBands(times: seq<real>, points: seq<real>, firstTangent: real, lastTangent: real, b: Bands)
    requires |points| >= 3 && |times| == |points| && Increasing(times)
    requires forall k :: 0 <= k < |times| - 1 ==> times[k + 1] == times[k] + 1.0
    ensures IsTimedClampedBands(times, points, firstTangent, lastTangent, b)
        <==> IsClampedBands(points, firstTangent, lastTangent, b)
  {
    var n := |points|;
    if Shaped(b, n) {
      ClampedBandsByRows(points, firstTangent, lastTangent, b);
      forall k | 0 < k < n - 1
        ensures IsTimedInteriorRow(times, points, b, k) <==> IsUnitInteriorRow(points, b, k)
      {
        UnitStepInteriorRow(times, points, b, k);
      }
    }
  }

  /**
   * The system generateNatural fills ignores the time steps. For the points
   * 0, 1, 3 at times 0, 2, 4 its solution is the tangents 0.75, 1.5, 2.25, and
   * with those tangents the curve evaluate draws is not C2: the second time
   * derivative jumps from 9/4 to -9/4 at the middle point, and it is -3/2, not
   * zero, at the first point. The solution is unique, so this is what any
   * solver returns.
   */
  lemma NaturalBandsIgnoreTimeSteps(b: Bands)
    requires IsNaturalBands([0.0, 1.0, 3.0], b)
    ensures Solves(b, [0.75, 1.5, 2.25])
    ensures forall x :: Solves(b, x) ==> x == [0.75, 1.5, 2.25]
    ensures TimeCurvatureAtStart([0.0, 2.0, 4.0], [0.0, 1.0, 3.0], OutTangentsOf([0.75, 1.5, 2.25]), InTangentsOf([0.75, 1.5, 2.25]), 0) == -1.5
    ensures TimedShaped([0.0, 2.0, 4.0], [0.0, 1.0, 3.0], OutTangentsOf([0.75, 1.5, 2.25]), InTangentsOf([0.75, 1.5, 2.25]))
    ensures TimeCurvatureAtEnd([0.0, 2.0, 4.0], [0.0, 1.0, 3.0], OutTangentsOf([0.75, 1.5, 2.25]), InTangentsOf([0.75, 1.5, 2.25]), 0) == 2.25
    ensures TimeCurvatureAtStart([0.0, 2.0, 4.0], [0.0, 1.0, 3.0], OutTangentsOf([0.75, 1.5, 2.25]), InTangentsOf([0.75, 1.5, 2.25]), 1) == -2.25
    ensures !IsTimedNaturalCurve([0.0, 2.0, 4.0], [0.0, 1.0, 3.0], OutTangentsOf([0.75, 1.5, 2.25]), InTangentsOf([0.75, 1.5, 2.25]))
  {
    var times, points, x := [0.0, 2.0, 4.0], [0.0, 1.0, 3.0], [0.75, 1.5, 2.25];
    var out, inn := OutTangentsOf(x), InTangentsOf(x);
    assert out == [0.75, 1.5] && inn == [1.5, 2.25];
    assert RowValue(b, x, 0) == b.right[0];
    assert RowValue(b, x, 1) == b.right[1];
    assert RowValue(b, x, 2) == b.right[2];
    forall y | Solves(b, y)
      ensures y == x
    {
      NaturalSolutionUnique(b, y);
    }
    SegmentCubicCurvature(0.0, 1.0, 1.5, 3.0);
    SegmentCubicCurvature(1.0, 3.0, 3.0, 4.5);
    assert TimedSegment(times, points, out, inn, 0) == SegmentCubic(0.0, 1.0, 1.5, 3.0);
    assert TimedSegment(times, points, out, inn, 1) == SegmentCubic(1.0, 3.0, 3.0, 4.5);
    assert !TimeCurvatureContinuousAt(times, points, out, inn, 1);
  }

  /** The natural system for the points 0, 1, 3 has exactly one solution. */
  lemma NaturalSolutionUnique(b: Bands, x: seq<real>)
    requires IsNaturalBands([0.0, 1.0, 3.0], b) && Solves(b, x)
    ensures x == [0.75, 1.5, 2.25]
  {
    assert |x| == 3;
    assert RowValue(b, x, 0) == b.right[0];
    assert RowValue(b, x, 1) == b.right[1];
    assert RowValue(b, x, 2) == b.right[2];
  }
}
