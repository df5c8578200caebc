# HermiteSpline — a Dafny model

This project models Cesium's `HermiteSpline`, a cubic Hermite interpolating
spline. Arithmetic is over Dafny's `real`. `evaluate` is modelled for scalar
control points (its `Number` branch). In the band assembly of the natural and
clamped factories, each `real` stands for one coordinate of a `Cartesian3`
value, since the source assembles those bands coordinate by coordinate with the
same formula (see "Left out"). The model covers these parts:

- **The constructor.** It checks the option arrays and stores them. It resets the
  cached interval index `_lastTimeIndex` to 0 (`Splines.HermiteSpline.Create`
  and its constructor).
- **`evaluate`.** It finds the interval that holds the time and updates the cached
  index. It then builds the basis weights from `hermiteCoefficientMatrix` times
  (u³, u², u, 1), with the tangent weights scaled by the time step
  (`Splines.HermiteSpline.Evaluate`, with the pure segment formula
  `HermiteBasis.SegmentValue`).
- **The three factories.** `createC1` slices one tangent list into out- and
  in-tangents. `createNaturalCubic` and `createClampedCubic` assemble a
  tridiagonal band system (`generateNatural`, `generateClamped`), hand it to
  the solver and slice its result the same way. For two points they return a
  linear spline instead.

Files and modules:

- `wrappers.dfy` (`Wrappers`): `Option` stands for an undefined option. `Result`
  stands for a thrown `DeveloperError`.
- `hermite_basis.dfy` (`HermiteBasis`): the coefficient matrix, the basis weights,
  the cubic of one segment, its derivatives, and the scalar segment value.
- `tangent_slices.dfy` (`TangentSlices`): the two `Array.slice` calls of the
  factories, and their inverse.
- `tridiagonal_bands.dfy` (`TridiagonalBands`): filling the band arrays in place,
  and what a solution of each system means for the curve.
- `timed_bands.dfy` (`TimedBands`): the band systems compared with the curve
  that `evaluate` actually draws, whose time steps need not be 1 (see
  "Findings").
- `hermite_spline.dfy` (`Splines`): the validation functions, the `HermiteSpline`
  class, `findTimeInterval`, `evaluate` and the factories.

The main results:

- `evaluate(times[k])` returns `points[k]`. Every access stays in bounds. The
  local parameter lies in [0, 1].
- The start and end weights always sum to 1. The weights are the textbook
  Hermite basis.
- The tangent weights are multiplied by Δt, so the time derivative of a segment
  at its two ends is its out-tangent and its in-tangent.
- `createC1` always passes the constructor check, and the curve it builds is
  C1 at every interior control point. Slicing and merging the tangents are
  inverse to each other.
- The bands filled by `generateNatural` have exactly the promised entries, and
  so do those filled by `generateClamped`. A tangent vector solves the natural
  system exactly when the curve with those tangents is a natural cubic spline.
  It solves the clamped system exactly when the curve is C2 and has the given
  end slopes. Both statements read the curve with unit time steps, because the
  band systems do not look at `times`. With other time steps the promise of
  C2 fails (see "Findings"). The time-aware systems in `TimedBands` keep it for
  every strictly increasing `times`, and they reduce to the source's bands when
  every step is 1.

The row convention of the band system: `lower[k-1]` is the sub-diagonal entry
of row `k`, and `upper[k]` is its super-diagonal entry. Under this convention
the assembled rows are the spline conditions proved above.

## Model

| member | source | states |
|---|---|---|
| `Splines.CheckHermiteOptions` | packages/engine/Source/Core/HermiteSpline.js:177-203 | The constructor accepts its options exactly when all four are defined, `points.length >= 2`, `times.length == points.length` and both tangent arrays have length `points.length - 1`. A missing option is reported before any length error, and the length errors come in the source's order: too few points, then the times length, then the tangent lengths. |
| `Splines.HermiteSpline.constructor` | packages/engine/Source/Core/HermiteSpline.js:206-223 | The constructor stores the four arrays unchanged and sets the cached interval index to 0. |
| `Splines.HermiteSpline.Create` | packages/engine/Source/Core/HermiteSpline.js:169-224 | `new HermiteSpline(options)` fails with the first failing check's error. Otherwise it returns a fresh valid spline holding exactly the given arrays, with `_lastTimeIndex == 0`. |
| `Splines.HermiteSpline.FindTimeInterval` | packages/engine/Source/Core/HermiteSpline.js:521-533 | For a time inside `[times[0], times[n-1]]` it returns an index `i < n - 1` with `times[i] <= time <= times[i+1]`. For a time outside that range it fails with the out-of-range error. |
| `Splines.HermiteSpline.Evaluate` | packages/engine/Source/Core/HermiteSpline.js:567-606 | It fails exactly when the time is out of range, and then leaves the cached index unchanged. Otherwise it stores the found interval `i` in `_lastTimeIndex`, with `u` in [0, 1]. The result is the segment value of `points[i]`, `points[i+1]`, `outTangents[i]` and `inTangents[i]`. At any `times[k]` it returns `points[k]`. |
| `HermiteBasis.CoefficientMatrixInvertsEndConditions` | packages/engine/Source/Core/HermiteSpline.js:514-519 | `hermiteCoefficientMatrix` is the inverse of the end-condition matrix (value at 0, value at 1, slope at 0, slope at 1 of u³, u², u, 1), so row `k` is the basis weight that meets end condition `k` and vanishes under the other three. |
| `HermiteBasis.BasisWeights` | packages/engine/Source/Core/HermiteSpline.js:579-591 | The matrix times (u³, u², u, 1) gives, in order start, end, out-tangent, in-tangent, the Hermite basis (1+2u)(1-u)², u²(3-2u), u(1-u)² and u²(u-1). |
| `HermiteBasis.WeightsAtStart` | packages/engine/Source/Core/HermiteSpline.js:579-591 | At u = 0 the weights are (1, 0, 0, 0). |
| `HermiteBasis.WeightsAtEnd` | packages/engine/Source/Core/HermiteSpline.js:579-591 | At u = 1 the weights are (0, 1, 0, 0). |
| `HermiteBasis.EndpointWeightsSumToOne` | packages/engine/Source/Core/HermiteSpline.js:514-519 | For every u, the start and end weights sum to 1. |
| `HermiteBasis.SegmentCubicEnds` | packages/engine/Source/Core/HermiteSpline.js:514-519 | The cubic built from the matrix columns passes through `p0` at u = 0 and `p1` at u = 1. Its u-slopes there are `m0` and `m1`. |
| `HermiteBasis.SegmentCubicCurvature` | packages/engine/Source/Core/HermiteSpline.js:514-519 | The second u-derivative of a segment at its two ends, in closed form in terms of the points and slopes. |
| `HermiteBasis.WeightsEvaluateSegmentCubic` | packages/engine/Source/Core/HermiteSpline.js:579-591 | Weighting the four basis weights by (p0, p1, m0, m1) equals the segment cubic at u. |
| `HermiteBasis.ScaledTangentWeights` | packages/engine/Source/Core/HermiteSpline.js:593-595 | Multiplying the tangent weights by Δt, as `evaluate` does, gives the same sum as multiplying the tangents by Δt. |
| `HermiteBasis.SegmentValue` | packages/engine/Source/Core/HermiteSpline.js:576-606 | The `Number` branch of `evaluate` on segment `i`: with `u = (t - t0) / (t1 - t0)` and the tangent weights scaled by Δt, the result is the segment cubic at `u` whose end slopes are the tangents times Δt. `Evaluate`'s result equals it; the lemmas `SegmentValueAtStart`, `SegmentValueAtEnd`, `LocalParameterInUnitInterval` and `SegmentTimeSlopes` are its properties. |
| `HermiteBasis.SegmentValueAtStart` | packages/engine/Source/Core/HermiteSpline.js:576-606 | Evaluating a segment at `times[i]` gives `points[i]`. |
| `HermiteBasis.SegmentValueAtEnd` | packages/engine/Source/Core/HermiteSpline.js:576-606 | Evaluating a segment at `times[i+1]` gives `points[i+1]`. |
| `HermiteBasis.LocalParameterInUnitInterval` | packages/engine/Source/Core/HermiteSpline.js:576-577 | For `times[i] < times[i+1]` and a time between them, `u = (t - times[i]) / Δ` lies in [0, 1]. |
| `HermiteBasis.SegmentTimeSlopes` | packages/engine/Source/Core/HermiteSpline.js:593-595 | Because the tangent weights are multiplied by Δt, the time derivative of a segment is its out-tangent at the start and its in-tangent at the end. |
| `TangentSlices.OutTangentsOf` | packages/engine/Source/Core/HermiteSpline.js:345 | `tangents.slice(0, n - 1)` has `n - 1` entries: entry `i` is `tangents[i]`. An empty list gives an empty slice. |
| `TangentSlices.InTangentsOf` | packages/engine/Source/Core/HermiteSpline.js:346 | `tangents.slice(1, n)` has `n - 1` entries: entry `i` is `tangents[i+1]`. An empty list gives an empty slice. |
| `TangentSlices.SlicesShareInteriorTangents` | packages/engine/Source/Core/HermiteSpline.js:284-286 | The in-tangent that ends segment `i` is the out-tangent that starts segment `i+1`. This is the shared tangent of `createC1`. |
| `TangentSlices.MergeAfterSlice` | packages/engine/Source/Core/HermiteSpline.js:345-346 | Merging the two slices gives back the tangent list. |
| `TangentSlices.SliceAfterMerge` | packages/engine/Source/Core/HermiteSpline.js:345-346 | Out/in tangent arrays whose interior tangents are shared are exactly the slices of their merge. |
| `Splines.C1SplineIsC1` | packages/engine/Source/Core/HermiteSpline.js:284-286 | The spline `createC1` builds is C1: for strictly increasing times, at every interior control point `k`, segment `k-1` ends and segment `k` starts with the same value `points[k]` and the same time slope `tangents[k]` (the u-slope divided by the time step). |
| `Splines.C1SplineValuesMeet` | packages/engine/Source/Core/HermiteSpline.js:284-286 | The value half of `C1SplineIsC1`: both segments at an interior control point take the value `points[k]` there. |
| `Splines.C1SplineSlopesMeet` | packages/engine/Source/Core/HermiteSpline.js:284-286 | The slope half of `C1SplineIsC1`: both segments at an interior control point have the time slope `tangents[k]` there, the tangent the two slices share. |
| `Splines.StrictlyIncreasingIsIncreasing` | packages/engine/Source/Core/HermiteSpline.js:123 | The documented "strictly increasing" times, stated pairwise, are exactly the times whose consecutive steps are all positive, so the timed band lemmas apply to every spline `evaluate` accepts. |
| `TimedBands.IncreasingBetween` | packages/engine/Source/Core/HermiteSpline.js:123 | Times that increase step by step increase from every entry to every later one. |
| `TimedBands.TimedSegmentIsEvaluated` | packages/engine/Source/Core/HermiteSpline.js:576-606 | The segment cubic the timed band lemmas read is the curve `evaluate` returns: `SegmentValue` on segment `k` at time `t` is that cubic at `(t - times[k]) / Δt`. |
| `Splines.CheckC1Options` | packages/engine/Source/Core/HermiteSpline.js:329-342 | `createC1` accepts its options exactly when all three are defined, there are at least 2 points, and times, points and tangents have one length. A missing option is reported first, then too few points, then the length mismatch. |
| `Splines.C1SlicesPassConstructorCheck` | packages/engine/Source/Core/HermiteSpline.js:345-353 | Once `createC1`'s checks pass, the sliced tangents always pass the constructor's checks. |
| `Splines.HermiteSpline.CreateC1` | packages/engine/Source/Core/HermiteSpline.js:322-354 | `createC1` fails exactly on its own checks. Otherwise the spline's out-tangents are `tangents[0..n-2]`, its in-tangents are `tangents[1..n-1]`, and its times and points are the given ones. The resulting curve is C1 (`C1SplineIsC1`). |
| `Splines.CheckCubicOptions` | packages/engine/Source/Core/HermiteSpline.js:388-478 | The checks of lines 388-399 (natural factory) and 460-478 (clamped factory). The natural and clamped factories accept exactly when points, times (and for clamped, both end tangents) are defined, there are at least 2 points and `times.length == points.length`. A missing option is reported first, then too few points, then the times length. |
| `TridiagonalBands.GenerateNatural` | packages/engine/Source/Core/HermiteSpline.js:68-107 | Fills fresh arrays in place. The off-diagonals are n−1 ones. The diagonal is 2 at both ends and 4 inside. The right-hand side is `3(p1−p0)`, then `3(p[i+1]−p[i−1])`, then `3(p[n−1]−p[n−2])`. |
| `TridiagonalBands.GenerateClamped` | packages/engine/Source/Core/HermiteSpline.js:16-63 | For n ≥ 3, with the loop leaving `i` at n−2: `d[0]=1`, `u[0]=0`, `r[0]=firstTangent`. `l[n−2]=0`, `d[n−1]=1`, `r[n−1]=lastTangent`. The interior rows have `l=u=1`, `d=4` and `r[i]=3(p[i+1]−p[i−1])`. |
| `TridiagonalBands.NaturalBandsUnique` | packages/engine/Source/Core/HermiteSpline.js:68-107 | The natural bands are a function of the points. |
| `TridiagonalBands.ClampedBandsUnique` | packages/engine/Source/Core/HermiteSpline.js:16-63 | The clamped bands are a function of the points and the two end tangents. |
| `TridiagonalBands.InteriorRow` | packages/engine/Source/Core/HermiteSpline.js:88-98 | An interior row `x[k−1] + 4x[k] + x[k+1] = 3(p[k+1]−p[k−1])` holds exactly when the second derivative is continuous at control point `k`. |
| `TridiagonalBands.NaturalBandsMeanNaturalSpline` | packages/engine/Source/Core/HermiteSpline.js:356-358 | A tangent vector solves the natural system exactly when the sliced spline, read with unit time steps, is C2 and has zero second derivative at both ends. |
| `TridiagonalBands.ClampedBandsMeanClampedSpline` | packages/engine/Source/Core/HermiteSpline.js:421-430 | A tangent vector solves the clamped system exactly when the sliced spline, read with unit time steps, is C2, starts with `firstTangent` and ends with `lastTangent`. |
| `Splines.HermiteSpline.FromSolvedTangents` | packages/engine/Source/Core/HermiteSpline.js:409-418 | Slicing the solver's tangents and constructing gives a fresh Hermite spline when there is one tangent per point. Otherwise it gives the constructor's tangent length error. |
| `Splines.HermiteSpline.CreateNaturalCubic` | packages/engine/Source/Core/HermiteSpline.js:382-419 | It fails on its own checks. For exactly 2 points it returns a linear spline over the same times and points. For 3 or more it returns the spline built from the solver's tangents for the natural bands. |
| `Splines.HermiteSpline.CreateClampedCubic` | packages/engine/Source/Core/HermiteSpline.js:452-511 | The same as `CreateNaturalCubic`, with the missing-argument check also covering both end tangents, and with the clamped bands. |
| `Splines.UnitStepSegmentValue` | packages/engine/Source/Core/HermiteSpline.js:576-606 | When consecutive times are one apart, segment `i` of `evaluate` is the unit-step segment cubic that the band systems constrain. |
| `TimedBands.InteriorJump` | packages/engine/Source/Core/HermiteSpline.js:356-358 | For positive steps `a` and `b`, the second time derivative at the end of one segment equals the one at the start of the next exactly when the timed joint equation `b·x[k-1] + 2(a+b)·x[k] + a·x[k+1] = 3(b·p/a + a·q/b)` holds. |
| `TimedBands.TimedSegmentCurvature` | packages/engine/Source/Core/HermiteSpline.js:576-606 | The second time derivative of segment `k` of `evaluate`, at each end, in closed form in terms of its chord, its tangents and its time step. |
| `TimedBands.JumpAt` | packages/engine/Source/Core/HermiteSpline.js:356-358 | The curve of `evaluate` has a continuous second time derivative at interior point `k` exactly when the timed joint equation holds there. |
| `TimedBands.TimedInteriorRow` | packages/engine/Source/Core/HermiteSpline.js:356-358 | A timed interior band row holds for a tangent vector exactly when the second time derivative is continuous at that point. |
| `TimedBands.TimedNaturalBandsMeanNaturalSpline` | packages/engine/Source/Core/HermiteSpline.js:356-358 | For every strictly increasing `times`, a tangent vector solves the timed natural system exactly when the curve that `evaluate` draws is C2 and has zero second time derivative at both ends. |
| `TimedBands.EndRowIsZeroCurvature` | packages/engine/Source/Core/HermiteSpline.js:356-358 | A natural end row `2s + t = 3d/h` (or `s + 2t = 3d/h`) holds exactly when the second time derivative is zero at that end. |
| `TimedBands.TimedClampedBandsMeanClampedSpline` | packages/engine/Source/Core/HermiteSpline.js:421-423 | For every strictly increasing `times`, a tangent vector solves the timed clamped system exactly when the curve that `evaluate` draws is C2, starts with `firstTangent` and ends with `lastTangent`. |
| `TimedBands.UnitStepInteriorRow` | packages/engine/Source/Core/HermiteSpline.js:88-98 | When both neighbouring steps are 1, a timed interior row is exactly the source's row: entries 1, 4, 1 and right-hand side `3(p[k+1]-p[k-1])`. |
| `TimedBands.NaturalBandsByRows` | packages/engine/Source/Core/HermiteSpline.js:68-107 | The source's natural bands, stated row by row: the end rows and every interior row. |
| `TimedBands.ClampedBandsByRows` | packages/engine/Source/Core/HermiteSpline.js:16-63 | The source's clamped bands, stated row by row: the end rows and every interior row. |
| `TimedBands.UnitStepsGiveNaturalBands` | packages/engine/Source/Core/HermiteSpline.js:68-107 | When every time step is 1, the timed natural bands are exactly the bands `generateNatural` builds: the interior rows agree, and each end right-hand side `3·chord/h` becomes the source's `3(p[1]-p[0])` and `3(p[n-1]-p[n-2])` (the step `UnitStepEndRight`). |
| `TimedBands.UnitStepsGiveClampedBands` | packages/engine/Source/Core/HermiteSpline.js:16-63 | When every time step is 1, the timed clamped bands are exactly the bands `generateClamped` builds. |
| `TimedBands.NaturalBandsIgnoreTimeSteps` | packages/engine/Source/Core/HermiteSpline.js:68-107 | The counterexample of "Findings": for points 0, 1, 3 the source's natural bands have the one solution 0.75, 1.5, 2.25, so every solver returns it. Over times 0, 2, 4 the curve with those tangents has a second time derivative that is -1.5 at the first point and jumps from 2.25 to -2.25 at the middle point, so it is not a natural C2 spline. |
| `TimedBands.NaturalSolutionUnique` | packages/engine/Source/Core/HermiteSpline.js:68-107 | Every solution of the natural bands for points 0, 1, 3 is 0.75, 1.5, 2.25. |

## Left out

- `TridiagonalSystemSolver.solve` (lines 65 and 109) is foreign code. The factories take it as a parameter `solve: Bands -> seq<real>`. `GenerateNatural` and `GenerateClamped` return the filled bands, and the factory applies `solve` to them.
- `findTimeInterval`, `wrapTime` and `clampTime` are inherited from `Spline`, whose code is not part of this model. `FindTimeInterval` is a linear scan from the hint. It realises only the documented interval contract (lines 521-532), not Spline's own search order. `wrapTime` and `clampTime` are not modelled, because `evaluate` does not call them.
- `Spline.getPointType` and the point-type checks (lines 208-217, 481-491) are left out: all points and tangents are `real`.
- The `Cartesian3` branch of `evaluate` (lines 608-618) and the optional `result` argument are left out: points are scalars.
- `Matrix4.multiplyByVector` and the scratch time vector (lines 579-591) are not separate members: `BasisWeights` computes the product of the coefficient matrix and (u³, u², u, 1) directly, and its contract states the basis property.
- `LinearSpline` appears only as the `Linear(times, points)` result variant.
- Floating-point rounding and NaN are not modelled: arithmetic is exact over `real`.
- Scratch arrays and vectors shared between calls (lines 11-14, 535-536) are modelled as fresh arrays on each call.
- Options are modelled as separate `Option` arguments. An undefined options object (`options ?? Frozen.EMPTY_OBJECT`) is the case where every argument is `None`. The debug-only checks (`includeStart('debug')`) are always on.
- The read-only getters (lines 226-282) are the class's `const` fields holding `seq` values. The source keeps the caller's arrays by reference (lines 206-207 and 220-221), the getters hand those same arrays back (lines 235-281), and `createC1` passes its `times` and `points` on unchanged. Aliasing is therefore not modelled: a caller that later mutates one of those arrays can break the lengths checked at lines 188-203, and the immutable fields of the model cannot show that.
- Band assembly over `Cartesian3`: `generateNatural`, `generateClamped`, `createNaturalCubic` and `createClampedCubic` do their band arithmetic with `Cartesian3` operations (lines 29-33, 39-44, 51-63, 81-86, 92-97 and 102-107), so only `Cartesian3` points are supported there. `GenerateNatural`, `GenerateClamped`, `CreateNaturalCubic` and `CreateClampedCubic` model one coordinate of those vectors as a `real`. The per-coordinate formula is the same for x, y and z, so their contracts hold coordinate by coordinate. What happens with `Number` points cannot be read from the code modelled: `Cartesian3.subtract` is not part of this model.
- Splines.HermiteSpline.Evaluate: it requires strictly increasing times, the documented demand of line 123, so that Δt is never zero. The code does not check this, and with two equal times it divides by zero.
- TridiagonalBands.NaturalBandsMeanNaturalSpline: the C2 statement is made only for unit time steps. The band rows ignore `times`, while `evaluate` scales the tangents by Δt. With other time steps the solved tangents do not in general make the curve C2; "Findings" gives an input and the time-aware system that keeps the promise.
- TridiagonalBands.ClampedBandsMeanClampedSpline: the same unit-time-step restriction as the natural case, for the same reason.

## Findings

| source | as written | input that shows it | evidently intended | confidence | as-written member | corrected member |
|---|---|---|---|---|---|---|
| packages/engine/Source/Core/HermiteSpline.js:68-107 | The natural band rows are `1, 4, 1` with right-hand sides `3(p[i+1]-p[i-1])`, whatever `times` is, while `evaluate` scales the tangents by each Δt; the documentation (lines 356-358, and 421-423 for the clamped factory) promises a C2 curve for any times. | points 0, 1, 3 at times 0, 2, 4: the only solution of the bands is the tangents 0.75, 1.5, 2.25, and the second time derivative is 2.25 at the end of the first segment and -2.25 at the start of the second, so the curve is not C2. | Rows that weight each chord by its time step (`b·x[k-1] + 2(a+b)·x[k] + a·x[k+1] = 3(b·p/a + a·q/b)`, with natural end rows `2x[0] + x[1] = 3·chord/h`), which give a C2 curve for every strictly increasing `times` and are the source's rows when every step is 1. | medium, not executed | `TimedBands.NaturalBandsIgnoreTimeSteps` | `TimedBands.TimedNaturalBandsMeanNaturalSpline` (and `TimedBands.TimedClampedBandsMeanClampedSpline`; `TimedBands.UnitStepsGiveNaturalBands` shows they coincide with the source's bands at unit steps) |

The factories of the model keep the source's bands as written: `GenerateNatural` and `GenerateClamped` fill exactly the entries the source fills, and the time-aware systems are stated beside them.
