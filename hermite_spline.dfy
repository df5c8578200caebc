/**
 * HermiteSpline for scalar control points: argument validation of the
 * constructor and of the three factories, the object with its cached interval
 * index, and evaluate.
 */
module Splines {
  import opened Wrappers
  import opened HermiteBasis
  import opened TangentSlices
  import opened TridiagonalBands
  import opened TimedBands

  /** The DeveloperErrors the constructor, the factories and evaluate throw. */
  datatype SplineError =
    | MissingArguments        // a required option is undefined
    | TooFewPoints            // points.length must be greater than or equal to 2
    | TimesLengthMismatch     // times.length must be equal to points.length
    | LengthsMismatch         // createC1: times, points and tangents must have the same length
    | TangentsLengthMismatch  // inTangents and outTangents must have a length equal to points.length - 1
    | TimeOutOfRange          // time must be in the range [t0, tn]

  /** What the constructor demands of its arrays. */
  predicate WellFormed(times: seq<real>, points: seq<real>, inTangents: seq<real>, outTangents: seq<real>)
  {
    SegmentsShaped(points, outTangents, inTangents) && |times| == |points|
  }

  /** The constructor's checks, in the order it makes them; None when they all pass. */
  function CheckHermiteOptions(times: Option<seq<real>>, points: Option<seq<real>>,
                               inTangents: Option<seq<real>>, outTangents: Option<seq<real>>): (r: Option<SplineError>)
    ensures r.None? <==> (times.Some? && points.Some? && inTangents.Some? && outTangents.Some?
                          && WellFormed(times.value, points.value, inTangents.value, outTangents.value))
    ensures (times.None? || points.None? || inTangents.None? || outTangents.None?) <==> r == Some(MissingArguments)
    ensures r.Some? ==> r.value in {MissingArguments, TooFewPoints, TimesLengthMismatch, TangentsLengthMismatch}
    // with every option defined, the length errors come in this order
    ensures (times.Some? && points.Some? && inTangents.Some? && outTangents.Some? && |points.value| < 2)
            ==> r == Some(TooFewPoints)
    ensures (times.Some? && points.Some? && inTangents.Some? && outTangents.Some? && |points.value| >= 2
             && |times.value| != |points.value|)
            ==> r == Some(TimesLengthMismatch)
    ensures (times.Some? && points.Some? && inTangents.Some? && outTangents.Some? && |points.value| >= 2
             && |times.value| == |points.value|
             && (|inTangents.value| != |points.value| - 1 || |outTangents.value| != |points.value| - 1))
            ==> r == Some(TangentsLengthMismatch)
  {
    if times.None? || points.None? || inTangents.None? || outTangents.None? then Some(MissingArguments)
    else if |points.value| < 2 then Some(TooFewPoints)
    else if |times.value| != |points.value| then Some(TimesLengthMismatch)
    else if |inTangents.value| != |outTangents.value| || |inTangents.value| != |points.value| - 1 then Some(TangentsLengthMismatch)
    else None
  }

  /** The checks of createC1; None when they all pass. */
  function CheckC1Options(times: Option<seq<real>>, points: Option<seq<real>>, tangents: Option<seq<real>>): (r: Option<SplineError>)
    ensures r.None? <==> (times.Some? && points.Some? && tangents.Some? && |points.value| >= 2
                          && |times.value| == |points.value| && |tangents.value| == |points.value|)
    ensures (times.None? || points.None? || tangents.None?) <==> r == Some(MissingArguments)
    ensures r.Some? ==> r.value in {MissingArguments, TooFewPoints, LengthsMismatch}
    ensures (times.Some? && points.Some? && tangents.Some? && |points.value| < 2) ==> r == Some(TooFewPoints)
    ensures (times.Some? && points.Some? && tangents.Some? && |points.value| >= 2
             && (|times.value| != |points.value| || |tangents.value| != |points.value|))
            ==> r == Some(LengthsMismatch)
  {
    if points.None? || times.None? || tangents.None? then Some(MissingArguments)
    else if |points.value| < 2 then Some(TooFewPoints)
    else if |times.value| != |points.value| || |times.value| != |tangents.value| then Some(LengthsMismatch)
    else None
  }

  /**
   * The checks of createNaturalCubic, and of createClampedCubic when the end
   * tangents are given; None when they all pass.
   */
  function CheckCubicOptions(times: Option<seq<real>>, points: Option<seq<real>>, endTangentsGiven: bool): (r: Option<SplineError>)
    ensures r.None? <==> (times.Some? && points.Some? && endTangentsGiven && |points.value| >= 2
                          && |times.value| == |points.value|)
    ensures (times.None? || points.None? || !endTangentsGiven) <==> r == Some(MissingArguments)
    ensures r.Some? ==> r.value in {MissingArguments, TooFewPoints, TimesLengthMismatch}
    ensures (times.Some? && points.Some? && endTangentsGiven && |points.value| < 2) ==> r == Some(TooFewPoints)
    ensures (times.Some? && points.Some? && endTangentsGiven && |points.value| >= 2
             && |times.value| != |points.value|)
            ==> r == Some(TimesLengthMismatch)
  {
    if points.None? || times.None? || !endTangentsGiven then Some(MissingArguments)
    else if |points.value| < 2 then Some(TooFewPoints)
    else if |times.value| != |points.value| then Some(TimesLengthMismatch)
    else None
  }

  /** The documented demand on times: strictly increasing. */
  predicate StrictlyIncreasing(s: seq<real>)
  {
    forall j, k :: 0 <= j < k < |s| ==> s[j] < s[k]
  }

  /**
   * Slicing one tangent per control point always yields arrays the
   * constructor accepts, so createC1 never fails after its own checks.
   */
  lemma C1SlicesPassConstructorCheck(times: Option<seq<real>>, points: Option<seq<real>>, tangents: Option<seq<real>>)
    requires CheckC1Options(times, points, tangents).None?
    ensures CheckHermiteOptions(times, points, Some(InTangentsOf(tangents.value)), Some(OutTangentsOf(tangents.value))).None?
  {
  }

  /**
   * The spline createC1 builds is C1 at every interior control point k:
   * segment k - 1 ends and segment k starts with the value points[k] and with
   * the time slope tangents[k] (the u-slope divided by the time step).
   */
  lemma C1SplineIsC1(times: seq<real>, points: seq<real>, tangents: seq<real>, k: nat)
    requires |points| >= 2 && |times| == |points| && |tangents| == |points| && StrictlyIncreasing(times)
    requires 0 < k < |points| - 1
    ensures var outs, ins := OutTangentsOf(tangents), InTangentsOf(tangents);
      SegmentValue(points[k - 1], points[k], outs[k - 1], ins[k - 1], times[k - 1], times[k], times[k])
        == points[k]
        == SegmentValue(points[k], points[k + 1], outs[k], ins[k], times[k], times[k + 1], times[k])
    ensures var outs, ins := OutTangentsOf(tangents), InTangentsOf(tangents);
      var h0, h1 := times[k] - times[k - 1], times[k + 1] - times[k];
      CubicSlope(SegmentCubic(points[k - 1], points[k], outs[k - 1] * h0, ins[k - 1] * h0), 1.0) / h0
        == tangents[k]
        == CubicSlope(SegmentCubic(points[k], points[k + 1], outs[k] * h1, ins[k] * h1), 0.0) / h1
  {
    assert times[k - 1] < times[k] < times[k + 1];
    C1SplineValuesMeet(times, points, tangents, k);
    C1SplineSlopesMeet(times, points, tangents, k);
  }

  /** The value half of C1SplineIsC1. */
  lemma C1SplineValuesMeet(times: seq<real>, points: seq<real>, tangents: seq<real>, k: nat)
    requires |times| == |points| && |tangents| == |points| && 0 < k < |points| - 1
    requires times[k - 1] < times[k] < times[k + 1]
    ensures var outs, ins := OutTangentsOf(tangents), InTangentsOf(tangents);
      SegmentValue(points[k - 1], points[k], outs[k - 1], ins[k - 1], times[k - 1], times[k], times[k])
        == points[k]
        == SegmentValue(points[k], points[k + 1], outs[k], ins[k], times[k], times[k + 1], times[k])
  {
    var outs, ins := OutTangentsOf(tangents), InTangentsOf(tangents);
    SegmentValueAtEnd(points[k - 1], points[k], outs[k - 1], ins[k - 1], times[k - 1], times[k]);
    SegmentValueAtStart(points[k], points[k + 1], outs[k], ins[k], times[k], times[k + 1]);
  }

  /** The slope half of C1SplineIsC1: both segments meet with the shared tangent. */
  lemma C1SplineSlopesMeet(times: seq<real>, points: seq<real>, tangents: seq<real>, k: nat)
    requires |times| == |points| && |tangents| == |points| && 0 < k < |points| - 1
    requires times[k - 1] < times[k] < times[k + 1]
    ensures var outs, ins := OutTangentsOf(tangents), InTangentsOf(tangents);
      var h0, h1 := times[k] - times[k - 1], times[k + 1] - times[k];
      CubicSlope(SegmentCubic(points[k - 1], points[k], outs[k - 1] * h0, ins[k - 1] * h0), 1.0) / h0
        == tangents[k]
        == CubicSlope(SegmentCubic(points[k], points[k + 1], outs[k] * h1, ins[k] * h1), 0.0) / h1
  {
    var outs, ins := OutTangentsOf(tangents), InTangentsOf(tangents);
    SegmentTimeSlopes(points[k - 1], points[k], outs[k - 1], ins[k - 1], times[k - 1], times[k]);
    SegmentTimeSlopes(points[k], points[k + 1], outs[k], ins[k], times[k], times[k + 1]);
    SlicesShareInteriorTangents(tangents);
    assert ins[k - 1] == tangents[k] == outs[k];
  }

  /** Times that increase from each entry to the next increase pairwise, and back. */
  lemma StrictlyIncreasingIsIncreasing(times: seq<real>)
    ensures StrictlyIncreasing(times) <==> Increasing(times)
  {
    if Increasing(times) {
      forall j, k | 0 <= j < k < |times|
        ensures times[j] < times[k]
      {
        IncreasingBetween(times, j, k);
      }
    }
  }

  /** What createNaturalCubic and createClampedCubic return: a linear spline for two points. */
  datatype Spline = Linear(times: seq<real>, points: seq<real>) | Hermite(spline: HermiteSpline)

  class HermiteSpline {
    const times: seq<real>
    const points: seq<real>
    const inTangents: seq<real>
    const outTangents: seq<real>
    /** The interval found by the last evaluate, the search hint for the next one. */
    var lastTimeIndex: nat

    ghost predicate Valid()
      reads this
    {
      WellFormed(times, points, inTangents, outTangents) && lastTimeIndex + 1 < |times|
    }

    /** The part of the constructor after its checks: store the arrays, reset the hint. */
    constructor (times: seq<real>, points: seq<real>, inTangents: seq<real>, outTangents: seq<real>)
      requires WellFormed(times, points, inTangents, outTangents)
      ensures Valid()
      ensures this.times == times && this.points == points
      ensures this.inTangents == inTangents && this.outTangents == outTangents
      ensures lastTimeIndex == 0
    {
      this.times := times;
      this.points := points;
      this.inTangents := inTangents;
      this.outTangents := outTangents;
      lastTimeIndex := 0;
    }

    /** new HermiteSpline(options): the checks, then a fresh spline. */
    static method Create(times: Option<seq<real>>, points: Option<seq<real>>,
                         inTangents: Option<seq<real>>, outTangents: Option<seq<real>>)
      returns (r: Result<HermiteSpline, SplineError>)
      ensures r.Failure? <==> CheckHermiteOptions(times, points, inTangents, outTangents).Some?
      ensures r.Failure? ==> Some(r.error) == CheckHermiteOptions(times, points, inTangents, outTangents)
      ensures r.Success? ==> fresh(r.value) && r.value.Valid() && r.value.lastTimeIndex == 0
      ensures r.Success? ==> r.value.times == times.value && r.value.points == points.value
      ensures r.Success? ==> r.value.inTangents == inTangents.value && r.value.outTangents == outTangents.value
    {
      var check := CheckHermiteOptions(times, points, inTangents, outTangents);
      if check.Some? {
        return Failure(check.value);
      }
      var spline := new HermiteSpline(times.value, points.value, inTangents.value, outTangents.value);
      r := Success(spline);
    }

    /**
     * findTimeInterval: an index i with times[i] <= time <= times[i + 1],
     * searched from the hint startIndex; an error when time lies outside
     * [times[0], times[n - 1]].
     */
    method FindTimeInterval(time: real, startIndex: nat) returns (r: Result<nat, SplineError>)
      requires Valid()
      ensures r.Success? <==> times[0] <= time <= times[|times| - 1]
      ensures r.Failure? ==> r.error == TimeOutOfRange
      ensures r.Success? ==> r.value + 1 < |times| && times[r.value] <= time <= times[r.value + 1]
    {
      var n := |times|;
      if time < times[0] || time > times[n - 1] {
        return Failure(TimeOutOfRange);
      }
      var i := if startIndex + 1 < n && times[startIndex] <= time then startIndex else 0;
      while i + 2 < n && times[i + 1] <= time
        invariant i + 1 < n && times[i] <= time
      {
        i := i + 1;
      }
      r := Success(i);
    }

    /**
     * evaluate for scalar points: the segment of the interval that contains
     * time, with the tangent weights scaled by the time delta. It updates the
     * cached interval index and interpolates the control points.
     */
    method Evaluate(time: real) returns (r: Result<real, SplineError>)
      requires Valid() && StrictlyIncreasing(times)
      modifies this`lastTimeIndex
      ensures Valid()
      ensures r.Success? <==> times[0] <= time <= times[|times| - 1]
      ensures r.Failure? ==> r.error == TimeOutOfRange && lastTimeIndex == old(lastTimeIndex)
      ensures r.Success? ==>
        var i := lastTimeIndex;
        times[i] <= time <= times[i + 1]
        && 0.0 <= (time - times[i]) / (times[i + 1] - times[i]) <= 1.0
        && r.value == SegmentValue(points[i], points[i + 1], outTangents[i], inTangents[i], times[i], times[i + 1], time)
      ensures forall k :: 0 <= k < |times| && times[k] == time ==> r == Success(points[k])
    {
      var found := FindTimeInterval(time, lastTimeIndex);
      if found.Failure? {
        return Failure(found.error);
      }
      lastTimeIndex := found.value;
      var i := lastTimeIndex;

      // the Number branch: the scalar segment formula
      r := Success(SegmentValue(points[i], points[i + 1], outTangents[i], inTangents[i], times[i], times[i + 1], time));
      LocalParameterInUnitInterval(times[i], times[i + 1], time);
      forall k | 0 <= k < |times| && times[k] == time
        ensures r == Success(points[k])
      {
        assert k == i || k == i + 1;
        if k == i {
          SegmentValueAtStart(points[i], points[i + 1], outTangents[i], inTangents[i], times[i], times[i + 1]);
        } else {
          SegmentValueAtEnd(points[i], points[i + 1], outTangents[i], inTangents[i], times[i], times[i + 1]);
        }
      }
    }

    /**
     * createC1: one tangent per control point; segment i leaves with
     * tangents[i] and arrives with tangents[i + 1].
     */
    static method CreateC1(times: Option<seq<real>>, points: Option<seq<real>>, tangents: Option<seq<real>>)
      returns (r: Result<HermiteSpline, SplineError>)
      ensures r.Failure? <==> CheckC1Options(times, points, tangents).Some?
      ensures r.Failure? ==> Some(r.error) == CheckC1Options(times, points, tangents)
      ensures r.Success? ==> fresh(r.value) && r.value.Valid() && r.value.lastTimeIndex == 0
      ensures r.Success? ==> r.value.times == times.value && r.value.points == points.value
      ensures r.Success? ==> (r.value.outTangents == OutTangentsOf(tangents.value)
                              && r.value.inTangents == InTangentsOf(tangents.value))
    {
      var check := CheckC1Options(times, points, tangents);
      if check.Some? {
        return Failure(check.value);
      }
      C1SlicesPassConstructorCheck(times, points, tangents);
      r := Create(times, points, Some(InTangentsOf(tangents.value)), Some(OutTangentsOf(tangents.value)));
    }

    /**
     * The rest of both cubic factories once the solver has produced the
     * tangents: slice them and run the constructor, which rejects a tangent
     * list of the wrong length.
     */
    static method FromSolvedTangents(times: seq<real>, points: seq<real>, tangents: seq<real>)
      returns (r: Result<Spline, SplineError>)
      requires |points| >= 3 && |times| == |points|
      ensures r.Failure? <==> |tangents| != |points|
      ensures r.Failure? ==> r.error == TangentsLengthMismatch
      ensures r.Success? ==> r.value.Hermite? && fresh(r.value.spline) && r.value.spline.Valid()
      ensures r.Success? ==> (r.value.spline.times == times && r.value.spline.points == points
                              && r.value.spline.outTangents == OutTangentsOf(tangents)
                              && r.value.spline.inTangents == InTangentsOf(tangents)
                              && r.value.spline.lastTimeIndex == 0)
    {
      var outTangents := OutTangentsOf(tangents);
      var inTangents := InTangentsOf(tangents);
      var created := Create(Some(times), Some(points), Some(inTangents), Some(outTangents));
      if created.Failure? {
        return Failure(created.error);
      }
      r := Success(Hermite(created.value));
    }

    /**
     * createNaturalCubic: a linear spline for two points; otherwise the
     * tangents solve the natural band system (the solver is the parameter
     * solve) and are sliced as in createC1.
     */
    static method CreateNaturalCubic(times: Option<seq<real>>, points: Option<seq<real>>, solve: Bands -> seq<real>)
      returns (r: Result<Spline, SplineError>)
      ensures CheckCubicOptions(times, points, true).Some? ==> r == Failure(CheckCubicOptions(times, points, true).value)
      ensures CheckCubicOptions(times, points, true).None? && |points.value| == 2 ==>
        r == Success(Linear(times.value, points.value))
      ensures CheckCubicOptions(times, points, true).None? && |points.value| >= 3 ==>
        exists bands :: IsNaturalBands(points.value, bands) && BuiltFromTangents(r, times.value, points.value, solve(bands))
      ensures r.Success? && r.value.Hermite? ==> fresh(r.value.spline)
    {
      var check := CheckCubicOptions(times, points, true);
      if check.Some? {
        return Failure(check.value);
      }
      if |points.value| < 3 {
        return Success(Linear(times.value, points.value));
      }
      var bands := GenerateNatural(points.value);
      var tangents := solve(bands);
      r := FromSolvedTangents(times.value, points.value, tangents);
    }

    /**
     * createClampedCubic: a linear spline for two points; otherwise the
     * tangents solve the clamped band system with the given end tangents.
     */
    static method CreateClampedCubic(times: Option<seq<real>>, points: Option<seq<real>>,
                                     firstTangent: Option<real>, lastTangent: Option<real>, solve: Bands -> seq<real>)
      returns (r: Result<Spline, SplineError>)
      ensures var check := CheckCubicOptions(times, points, firstTangent.Some? && lastTangent.Some?);
        check.Some? ==> r == Failure(check.value)
      ensures CheckCubicOptions(times, points, firstTangent.Some? && lastTangent.Some?).None? && |points.value| == 2 ==>
        r == Success(Linear(times.value, points.value))
      ensures CheckCubicOptions(times, points, firstTangent.Some? && lastTangent.Some?).None? && |points.value| >= 3 ==>
        exists bands :: IsClampedBands(points.value, firstTangent.value, lastTangent.value, bands)
                     && BuiltFromTangents(r, times.value, points.value, solve(bands))
      ensures r.Success? && r.value.Hermite? ==> fresh(r.value.spline)
    {
      var check := CheckCubicOptions(times, points, firstTangent.Some? && lastTangent.Some?);
      if check.Some? {
        return Failure(check.value);
      }
      if |points.value| < 3 {
        return Success(Linear(times.value, points.value));
      }
      var bands := GenerateClamped(points.value, firstTangent.value, lastTangent.value);
      var tangents := solve(bands);
      r := FromSolvedTangents(times.value, points.value, tangents);
    }
  }

  /**
   * r is what slicing tangents and constructing a spline from them gives: a
   * Hermite spline over times and points when there is one tangent per point,
   * otherwise the constructor's length error.
   */
  ghost predicate BuiltFromTangents(r: Result<Spline, SplineError>, times: seq<real>, points: seq<real>, tangents: seq<real>)
    reads if r.Success? && r.value.Hermite? then {r.value.spline} else {}
  {
    if |tangents| == |points| then
      r.Success? && r.value.Hermite? && r.value.spline.Valid()
      && r.value.spline.times == times && r.value.spline.points == points
      && r.value.spline.outTangents == OutTangentsOf(tangents)
      && r.value.spline.inTangents == InTangentsOf(tangents)
      && r.value.spline.lastTimeIndex == 0
    else
      r == Failure(TangentsLengthMismatch)
  }

  /**
   * When consecutive times are one apart, segment i of evaluate is the unit-step
   * segment cubic that the band systems constrain, at the offset from its start.
   */
  lemma UnitStepSegmentValue(times: seq<real>, points: seq<real>, inTangents: seq<real>, outTangents: seq<real>, i: nat, time: real)
    requires WellFormed(times, points, inTangents, outTangents) && i + 1 < |times|
    requires times[i + 1] == times[i] + 1.0
    ensures SegmentValue(points[i], points[i + 1], outTangents[i], inTangents[i], times[i], times[i + 1], time)
         == CubicAt(Segment(points, outTangents, inTangents, i), time - times[i])
  {
    assert outTangents[i] * (times[i + 1] - times[i]) == outTangents[i];
    assert inTangents[i] * (times[i + 1] - times[i]) == inTangents[i];
    assert (time - times[i]) / (times[i + 1] - times[i]) == time - times[i];
  }
}
