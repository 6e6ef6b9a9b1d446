# River water-quality engine, modelled in Dafny

This project models the computational core of a river water-quality web app.
The river reach is 8013 m long. It runs from the Sài Đồng gate (Z = 0) past
four discharge stations (Đài Tư 1112, An Lạc 3170, Trâu Quỳ 4590, Đa Tốn 7070)
to the Xuân Thụy gate (Z = 8013). The engine maps a position Z, a rainfall X
and a temperature Y to five concentrations: two BOD5 samples, two NH4+
samples and one NO3- sample.

The code holds two lineages, and they are modelled side by side rather than merged:

- **Live engine** (`LiveEngine`, lib/water-quality-calculations.ts).
  - A recursive piecewise function: a closed form at the Sài Đồng gate, exponential
    decay along each segment with one factor shared by all five outputs, and
    flow-weighted mixing with fixed discharge concentrations at each station.
  - Zeros off the reach; no clamping of Z.
  - The same file also holds the live temperature factor, the pixel/metre
    conversions and the three-stop heat-map colour scale.
- **Older engine**.
  - The dispatcher (`OldClassifier`) clamps Z to the reach and picks one of eighteen
    case functions by exact match with a breakpoint or by lying in an open interval
    between breakpoints.
  - Its disabled blocks (`ReferenceChain`) spell out the intended chain: mass-balanced
    flows, decay through the kinetics ratios (`Coefficients`) and degradation
    polynomials (`Degradation`) under the monotonic constraint (`Utils`), and
    flow-weighted mixing with lateral inflows.
  - The breakpoint tables are in `Stations`.
  - `Lineages` relates the two engines.

Around the engines:

- `FormulaDemo`: the documented weather conversion rules and the old/new comparison record.
- `Export`: the 53-row export table (an imperative builder proved against its
  specification) and the CSV rendering.
- `Chart`: the chart's position-sampling loop, its sort and its y-axis scale, as
  methods proved against specification functions.

Modelling conventions:

- JavaScript numbers are Dafny `real`s. Where the source tests for NaN or
  Infinity, or divides by a value the caller chooses, a `Num` datatype stands for
  the non-finite results.
- `Math.exp` and `Math.pow` are a parameter `m: MathLib`. The ghost predicate
  `Sound(m)` holds the facts the proofs use: exp(0) = 1, exp is positive and
  monotone, pow(b, 0) = 1, and pow(b, e) > 0 for b > 0.
- `Math.floor` is `.Floor`. `Math.round` is `floor(x + 0.5)`.
- Text formatting that the source delegates to the runtime (`toLocaleString`,
  `toFixed`, template interpolation of numbers) is a `Formatter` parameter.

Modules, one file each: `Numeric` (numeric.dfy), `Text` (text.dfy), `Stations`
(stations.dfy), `QualityData` (quality.dfy), `Utils` (utils.dfy), `Coefficients`
(coefficients.dfy), `Degradation` (degradation.dfy), `LiveEngine`
(live_engine.dfy), `OldClassifier` (old_classifier.dfy), `ReferenceChain`
(reference_chain.dfy), `Lineages` (lineages.dfy), `FormulaDemo`
(formula_demo.dfy), `Export` (export.dfy), `Chart` (chart.dfy).

## Model

| member | source | states |
|---|---|---|
| Stations.StationsOrdered | lib/water-quality/constants.ts:3-10 | six stations, positions strictly increasing from 0 to the river length |
| Stations.CriticalPositionsOrdered | lib/water-quality/constants.ts:13-30 | fourteen strictly increasing breakpoints, first 0, last equal to RIVER_LENGTH (8013) |
| Stations.StationsAreBreakpoints | lib/water-quality/constants.ts:3-28 | every station is a breakpoint; for each interior station s, s-2, s and s+2 are all breakpoints |
| Utils.TruncateToTwoDecimals | lib/water-quality/utils.ts:2-8 | NaN and ±Infinity give 0; a finite v gives the unique whole number of hundredths r with r ≤ v < r + 0.01 |
| Utils.TruncateIdempotent | lib/water-quality/utils.ts:7 | truncating a truncated value changes nothing |
| Utils.TruncateIsUnique | lib/water-quality/utils.ts:7 | any whole number of hundredths within 0.01 below v is the truncation of v |
| Utils.ApplyAlgorithmConstraints | lib/water-quality/utils.ts:13-33 | result always finite; non-finite new value falls back to the previous value or 0; finite new over non-finite previous passes through; otherwise min for 'decreasing', max for 'increasing', unchanged for 'none' |
| Utils.ConstraintDirection | lib/water-quality/utils.ts:26-29 | against a finite previous value, 'decreasing' never exceeds it and 'increasing' never falls below it |
| Coefficients.CalculateT | lib/water-quality/coefficients.ts:2-4 | the older temperature factor 2.5^((Y-26)/10) is positive and equals 1 at 26 °C |
| Coefficients.TimeInDays | lib/water-quality/coefficients.ts:8 | minutes converted to days: days × 1440 = minutes |
| Coefficients.BodRate | lib/water-quality/coefficients.ts:9 | the BOD rate 0.165·1.091^(Y-20) is positive and exactly 0.165 at 20 °C |
| Coefficients.CalculateTBOD | lib/water-quality/coefficients.ts:7-12 | the guarded zero denominator at travel time 0 yields 0 |
| Coefficients.TbodNonNegative | lib/water-quality/coefficients.ts:7-12 | the BOD kinetics ratio is never negative for non-negative travel times |
| Coefficients.CalculateTN | lib/water-quality/coefficients.ts:15-20 | the nitrogen ratio is positive and equals exp(0)/exp(0) = 1 at time 0 |
| Degradation.DBod1 | lib/water-quality/degradation.ts:2-4 | definition of D_BOD1; its curvature, value at 0 and sign for short travel are stated by Degradation.LeadingCoefficients, Degradation.ValuesAtZero and Degradation.DBod1NegativeEarly |
| Degradation.DBod0 | lib/water-quality/degradation.ts:7-9 | definition of D_BOD0; stated by Degradation.DBod0Increasing and Degradation.ValuesAtZero |
| Degradation.DNh41 | lib/water-quality/degradation.ts:12-14 | definition of D_NH41; stated by Degradation.LeadingCoefficients and Degradation.ValuesAtZero |
| Degradation.DNh40 | lib/water-quality/degradation.ts:17-19 | definition of D_NH40; stated by Degradation.LeadingCoefficients and Degradation.ValuesAtZero |
| Degradation.DNo31 | lib/water-quality/degradation.ts:22-24 | definition of D_NO31; stated by Degradation.LeadingCoefficients and Degradation.ValuesAtZero |
| Degradation.LeadingCoefficients | lib/water-quality/degradation.ts:2-24 | second differences fix the quadratic coefficients: BOD1, NH41, NH40 curve down, NO31 curves up, BOD0 is linear |
| Degradation.ValuesAtZero | lib/water-quality/degradation.ts:2-24 | values at t = 0: BOD1 -0.4113, BOD0 slightly negative, NH41 -0.0121, NH40 -0.0006, NO31 -0.0085 |
| Degradation.DBod0Increasing | lib/water-quality/degradation.ts:7-9 | BOD0 is strictly increasing with slope 0.0012 |
| Degradation.DBod1NegativeEarly | lib/water-quality/degradation.ts:2-4 | BOD1 is negative for travel times up to 13 minutes |
| LiveEngine.Q1 | lib/water-quality-calculations.ts:54 | definition of the live flow at Sài Đồng, 1250 + 13550X; compared with Q2 by LiveEngine.AveragingIff |
| LiveEngine.Q2 | lib/water-quality-calculations.ts:75 | definition of the live flow after Đài Tư; LiveEngine.AveragingIff states when it is at least Q1 |
| LiveEngine.Q3 | lib/water-quality-calculations.ts:121 | definition of the live flow after An Lạc; LiveEngine.AveragingIff states when it is at least Q2 |
| LiveEngine.Q4 | lib/water-quality-calculations.ts:161 | definition of the live flow after Trâu Quỳ; LiveEngine.AveragingIff states when it is at least Q3 |
| LiveEngine.Q5 | lib/water-quality-calculations.ts:200 | definition of the live flow after Đa Tốn; LiveEngine.AveragingIff states when it is at least Q4 |
| LiveEngine.Origin | lib/water-quality-calculations.ts:42-50 | definition of the Z = 0 closed form; stated by LiveEngine.OriginClosedForm and LiveEngine.OriginPositive |
| LiveEngine.Scale | lib/water-quality-calculations.ts:63-69 | definition of the five outputs times one decay factor; stated by LiveEngine.ScaleAgree, LiveEngine.ScalePositive and LiveEngine.ScaleMono |
| LiveEngine.Mix | lib/water-quality-calculations.ts:89-95 | definition of the five-output station mix; stated by LiveEngine.MixAverages, LiveEngine.MixWeights and LiveEngine.MixAgree |
| LiveEngine.DecayFactor | lib/water-quality-calculations.ts:61 | definition of `decay_factor`; stated by LiveEngine.DecayFactorBounds and LiveEngine.DecayFactorAntitone |
| LiveEngine.CalculateT | lib/water-quality-calculations.ts:29-31 | the live temperature factor 2.5·10^((Y-26)/10) is positive and equals 2.5 at 26 °C |
| LiveEngine.NonNegativeRainDefined | lib/water-quality-calculations.ts:34-244 | for non-negative rainfall none of the engine's denominators is zero |
| LiveEngine.MixOne | lib/water-quality-calculations.ts:89-95 | one mixed output is the weighted sum with weights Q_up/Q_down and (Q_down-Q_up)/Q_down, and lies between the upstream value and the discharge constant when Q_down ≥ Q_up > 0 |
| LiveEngine.MixOneBetween | lib/water-quality-calculations.ts:89-95 | the weighted form lies between its two inputs when Q_down ≥ Q_up > 0 |
| LiveEngine.WeightsSumToOne | lib/water-quality-calculations.ts:89-95 | the two mixing weights sum to 1 |
| LiveEngine.WeightedForm | lib/water-quality-calculations.ts:89-95 | the source's `(Q_up·C + (Q_down-Q_up)·D)/Q_down` equals the weighted form |
| LiveEngine.MixAverages | lib/water-quality-calculations.ts:89-95 | all five mixed outputs lie between upstream and discharge values when Q_down ≥ Q_up > 0 |
| LiveEngine.MixWeights | lib/water-quality-calculations.ts:89-95 | each of the five mixed outputs uses the same two weights, which sum to 1 |
| LiveEngine.MixAgree | lib/water-quality-calculations.ts:204-207 | mixing keeps equal BOD5 samples equal and equal NH4 samples equal when the discharge pairs are equal |
| LiveEngine.ScaleAgree | lib/water-quality-calculations.ts:63-69 | one shared decay factor keeps equal sample pairs equal |
| LiveEngine.CalculateConcentration | lib/water-quality-calculations.ts:34-244 | positions below 0 or above 8013 give the all-zero vector; every recursive call is on a smaller rank, so evaluation terminates |
| LiveEngine.SegmentStart | lib/water-quality-calculations.ts:53-234 | the position a segment decays from (0, 1112, 3170, 4590, 7070) lies below Z, has smaller rank and is not itself inside a segment |
| LiveEngine.OriginClosedForm | lib/water-quality-calculations.ts:42-50 | at Z = 0 the outputs do not depend on temperature or on exp/pow, the sample pairs agree, and each output is (1250+13550X) over its own affine denominator in X |
| LiveEngine.OffReachIsZero | lib/water-quality-calculations.ts:236-243 | off the reach the result is all zeros; below 0 it differs from the value at 0, so there is no clamping |
| LiveEngine.SegmentDecay | lib/water-quality-calculations.ts:53-234 | inside a segment every output is the segment start's value times one shared factor, and that factor lies in (0, 1] when the segment flow is positive |
| LiveEngine.SegmentFactorBounds | lib/water-quality-calculations.ts:53-234 | the segment factor exp(-0.23·T·time/86400) lies in (0, 1] whenever the segment flow is positive |
| LiveEngine.SegmentUnfold | lib/water-quality-calculations.ts:53-234 | a position inside a segment evaluates to its start's value scaled by the segment factor |
| LiveEngine.DecayFactorBounds | lib/water-quality-calculations.ts:61 | for non-negative travel time the decay factor is in (0, 1] |
| LiveEngine.DecayFactorAntitone | lib/water-quality-calculations.ts:61 | a longer travel time never gives a larger decay factor |
| LiveEngine.ScalePositive | lib/water-quality-calculations.ts:63-69 | scaling positive concentrations by a positive factor keeps them positive |
| LiveEngine.NodeAverages | lib/water-quality-calculations.ts:73-216 | at each station the result lies between the value one metre upstream and the station's discharge constants whenever Q_down ≥ Q_up > 0 |
| LiveEngine.NodeUnfold | lib/water-quality-calculations.ts:73-216 | a station evaluates to the mixing of the value one metre upstream with its discharge constants |
| LiveEngine.SamplesAgreeEverywhere | lib/water-quality-calculations.ts:34-244 | BOD5_sample0 = BOD5_sample1 and NH4_sample0 = NH4_sample1 at every position |
| LiveEngine.AveragingIff | lib/water-quality-calculations.ts:73-216 | for X ≥ 0 the downstream flow is at least the upstream flow at all four stations exactly when X ≤ 23/1005 |
| LiveEngine.PositiveOnReach | lib/water-quality-calculations.ts:34-234 | for rainfall in [0, 23/1005] all five outputs are positive everywhere on the reach |
| LiveEngine.OriginPositive | lib/water-quality-calculations.ts:42-50 | the closed form at Z = 0 is positive for low rainfall |
| LiveEngine.PositiveAfterSegment | lib/water-quality-calculations.ts:53-234 | decay from a positive segment start stays positive |
| LiveEngine.PositiveAfterNode | lib/water-quality-calculations.ts:73-216 | mixing a positive upstream value at a station stays positive for low rainfall |
| LiveEngine.BetweenPositive | lib/water-quality-calculations.ts:73-216 | a value between two positive vectors is positive |
| LiveEngine.NegativeAtDaiTuInHeavyRain | lib/water-quality-calculations.ts:73-96 | at X = 1 the Đài Tư mix has a negative discharge weight and gives a negative BOD5 |
| LiveEngine.MonotoneWithinSegment | lib/water-quality-calculations.ts:53-234 | for low rainfall every output is non-increasing along a segment |
| LiveEngine.SegmentBelowStart | lib/water-quality-calculations.ts:53-234 | for rainfall in [0, 23/1005], no output at a position inside a segment exceeds the value at the station the segment decays from |
| LiveEngine.SegmentFactorAntitone | lib/water-quality-calculations.ts:53-234 | further along the same segment the shared decay factor is no larger |
| LiveEngine.ScaleMono | lib/water-quality-calculations.ts:63-69 | a smaller factor gives no larger positive outputs |
| LiveEngine.PixelToMeter | lib/water-quality-calculations.ts:247-249 | the result is finite exactly when the canvas width is non-zero |
| LiveEngine.MeterToPixel | lib/water-quality-calculations.ts:252-254 | a position on the reach maps into the canvas [0, width] |
| LiveEngine.PixelMeterRoundTrip | lib/water-quality-calculations.ts:247-254 | pixelToMeter(meterToPixel(m)) = m and meterToPixel(pixelToMeter(p)) = p for a non-zero width |
| LiveEngine.ColorValues | lib/water-quality-calculations.ts:299-308 | every channel is in [0, 255]; an unknown colour name gives [0, 0, 0] |
| LiveEngine.Lerp | lib/water-quality-calculations.ts:313-315 | for t in [0, 1] the rounded channel lies between the endpoints, and equals them at t = 0 and t = 1 |
| LiveEngine.InterpolateRgb | lib/water-quality-calculations.ts:297-318 | for t in [0, 1] every channel lies between the two colours' channels; t = 0 and t = 1 give the endpoint colours |
| LiveEngine.RgbText | lib/water-quality-calculations.ts:317 | definition of the `rgb(r, g, b)` text; the channels it prints are stated by LiveEngine.InterpolateRgb and LiveEngine.ColorRgb |
| LiveEngine.InterpolateColor | lib/water-quality-calculations.ts:297-318 | definition: the text of LiveEngine.InterpolateRgb's colour, whose channels lie between the two colours' channels |
| LiveEngine.ColorAt | lib/water-quality-calculations.ts:287-292 | an index past the end of the colour list is not a known colour, so it falls back to black |
| LiveEngine.Normalized | lib/water-quality-calculations.ts:283 | the normalized value is clamped to [0, 1]; values at or above max give 1, values at or below a zero min give 0 |
| LiveEngine.ColorRgb | lib/water-quality-calculations.ts:282-294 | a normalized value ≤ 0.5 interpolates colours[0]→colours[1], above 0.5 colours[1]→colours[2]; the extremes give the first and last colour |
| LiveEngine.GetColorFromValue | lib/water-quality-calculations.ts:282-294 | definition: the text of LiveEngine.ColorRgb's colour; the blend chosen and the extremes are stated there |
| LiveEngine.ColorScalesWellFormed | lib/water-quality-calculations.ts:263-279 | the three scales BOD5, NH4 and NO3 have min 0 < max and three known colours each |
| OldClassifier.Clamp | lib/water-quality-calculations-old.ts:20 | the clamped position is in [0, 8013], unchanged on the reach, 0 below it and 8013 above it |
| OldClassifier.ExactRegion | lib/water-quality-calculations-old.ts:24-56 | each of the first thirteen breakpoints lies in the region of its dedicated exact case |
| OldClassifier.IntervalRegion | lib/water-quality-calculations-old.ts:29-654 | points strictly between breakpoints 3j and 3j+1 lie in the region of segment case 4j+2 |
| OldClassifier.RegionsSpelledOut | lib/water-quality/constants.ts:13-28 | the regions read off the breakpoint table are exactly the written-out positions and intervals |
| OldClassifier.RegionFromTable | lib/water-quality/constants.ts:13-28 | a table region is one of the written-out regions |
| OldClassifier.RegionToTable | lib/water-quality/constants.ts:13-28 | a written-out region is a table region |
| OldClassifier.Classify | lib/water-quality-calculations-old.ts:20-694 | definition of the dispatcher's choice of case; OldClassifier.ClassifyMatchesTable states which case it picks for each region, OldClassifier.RegionsDisjoint that the choice is unambiguous |
| OldClassifier.CalculateConcentration | lib/water-quality-calculations-old.ts:15-694 | definition: clamp, then call the chosen case function; stated by OldClassifier.ClampedDispatch and OldClassifier.StationCasesIgnoreTemperature |
| OldClassifier.ClassifyMatchesTable | lib/water-quality-calculations-old.ts:24-694 | the dispatcher picks case k exactly when the clamped position lies in region k, and the default case exactly when it lies in none |
| OldClassifier.RegionsDisjoint | lib/water-quality-calculations-old.ts:24-694 | no position lies in two case regions |
| OldClassifier.GapsAreDefault | lib/water-quality-calculations-old.ts:694 | positions strictly inside the 2-m gaps either side of a station reach the default case |
| OldClassifier.ClampedDispatch | lib/water-quality-calculations-old.ts:20 | a position below the reach behaves as 0 and one above it as 8013, which selects case 18 |
| OldClassifier.StationCasesIgnoreTemperature | lib/water-quality-calculations-old.ts:119-128 | at the four stations the selected cases 4, 8, 12 and 16 depend on rainfall only |
| ReferenceChain.Q1 | lib/water-quality-calculations-old.ts:64 | definition of Q1 = 1250 + 13550X; stated by ReferenceChain.MassBalance and ReferenceChain.FlowsPositive |
| ReferenceChain.Q2 | lib/water-quality-calculations-old.ts:60 | definition of Q2 = 1480 + 17370X; stated by ReferenceChain.MassBalance and ReferenceChain.FlowsPositive |
| ReferenceChain.Q3 | lib/water-quality-calculations-old.ts:213 | definition of Q3 = 2522 + 35700X; stated by ReferenceChain.MassBalance and ReferenceChain.FlowsPositive |
| ReferenceChain.Q4 | lib/water-quality-calculations-old.ts:453 | definition of Q4 = 4839 + 46720X; stated by ReferenceChain.MassBalance and ReferenceChain.FlowsPositive |
| ReferenceChain.Q5 | lib/water-quality-calculations-old.ts:660 | definition of Q5 = 6074 + 53610X; stated by ReferenceChain.MassBalance and ReferenceChain.FlowsPositive |
| ReferenceChain.LateralQ2 | lib/water-quality-calculations-old.ts:65 | definition of q2; stated by ReferenceChain.MassBalance and ReferenceChain.FlowsPositive |
| ReferenceChain.LateralQ3 | lib/water-quality-calculations-old.ts:133 | definition of q3; stated by ReferenceChain.MassBalance and ReferenceChain.FlowsPositive |
| ReferenceChain.LateralQ4 | lib/water-quality-calculations-old.ts:318 | definition of q4; stated by ReferenceChain.MassBalance and ReferenceChain.FlowsPositive |
| ReferenceChain.LateralQ5 | lib/water-quality-calculations-old.ts:594 | definition of q5; stated by ReferenceChain.MassBalance and ReferenceChain.FlowsPositive |
| ReferenceChain.Initial | lib/water-quality-calculations-old.ts:68-70 | definition of the initial loads over Q1; ReferenceChain.DecayLegsMonotone bounds the value at 1110 by it |
| ReferenceChain.MixAt | lib/water-quality-calculations-old.ts:90-94 | definition of the five-output weighted mix; stated by ReferenceChain.MixAtAverages |
| ReferenceChain.MassBalance | lib/water-quality-calculations-old.ts:60-65 | each main-channel flow is the flow above it plus that station's lateral inflow (Q2 = Q1+q2, Q3 = Q2+q3, Q4 = Q3+q4, Q5 = Q4+q5) |
| ReferenceChain.FlowsPositive | lib/water-quality-calculations-old.ts:60-65 | for non-negative rainfall every main and lateral flow is positive |
| ReferenceChain.Step | lib/water-quality-calculations-old.ts:72-82 | a constrained decay step is the min of decayed and reference value for 'decreasing', the max for 'increasing' |
| ReferenceChain.DecayStep | lib/water-quality-calculations-old.ts:72-82 | after a decay step the BOD and NH4 variants never exceed the step's reference value and NO3 never falls below it |
| ReferenceChain.ShortTravelClampsBod1 | lib/water-quality-calculations-old.ts:72-78 | since D_BOD1 is negative for short travel, the 'decreasing' constraint pins BOD1 to its reference value |
| ReferenceChain.MixOne | lib/water-quality-calculations-old.ts:90-94 | the mixed value lies between the upstream and lateral values when both flows are positive and Q_down = Q_up + q |
| ReferenceChain.WeightedAverage | lib/water-quality-calculations-old.ts:90-94 | a flow-weighted average of two values lies between them |
| ReferenceChain.MixAtAverages | lib/water-quality-calculations-old.ts:90-94 | all five mixed outputs lie between the upstream and lateral vectors |
| ReferenceChain.Output | lib/water-quality-calculations-old.ts:109-115 | `max(0, truncate(v))` is a non-negative whole number of hundredths, within 0.01 below a non-negative v, and 0 for a negative v |
| ReferenceChain.OutputQ | lib/water-quality-calculations-old.ts:109-115 | every output vector is non-negative |
| ReferenceChain.Lateral1112 | lib/water-quality-calculations-old.ts:84-88 | definition of the Đài Tư inflow concentrations; ReferenceChain.StationsAverage bounds the mix at 1114 by them |
| ReferenceChain.Lateral3170 | lib/water-quality-calculations-old.ts:184-188 | definition of the An Lạc inflow concentrations; ReferenceChain.StationsAverage bounds the mix at 3172 by them |
| ReferenceChain.Lateral4590 | lib/water-quality-calculations-old.ts:317-333 | definition of the Trâu Quỳ inflow concentrations; the 4590 block returns their output, covered by ReferenceChain.ReferenceOutputsRounded |
| ReferenceChain.Lateral7070 | lib/water-quality-calculations-old.ts:593-609 | definition of the Đa Tốn inflow concentrations; the 7070 block returns their output, covered by ReferenceChain.ReferenceOutputsRounded |
| ReferenceChain.At1110 | lib/water-quality-calculations-old.ts:72-82 | definition of the decay from the initial values to 1110; stated by ReferenceChain.DecayLegsMonotone |
| ReferenceChain.At1114 | lib/water-quality-calculations-old.ts:90-94 | definition of the mix at Đài Tư; stated by ReferenceChain.StationsAverage |
| ReferenceChain.At3168 | lib/water-quality-calculations-old.ts:97-107 | definition of the decay from 1114 to 3168; stated by ReferenceChain.DecayLegsMonotone |
| ReferenceChain.At3172 | lib/water-quality-calculations-old.ts:131-204 | definition of the mix at An Lạc; stated by ReferenceChain.StationsAverage |
| ReferenceChain.Segment10 | lib/water-quality-calculations-old.ts:212-298 | definition of the decay from 3172 to Z; stated by ReferenceChain.DecayLegsMonotone |
| ReferenceChain.At4588 | lib/water-quality-calculations-old.ts:346-421 | definition of the decay from 3172 to 4588 inside the 4592 block; ReferenceChain.StationsAverage uses it as the upstream value at Trâu Quỳ |
| ReferenceChain.At4592 | lib/water-quality-calculations-old.ts:341-444 | definition of the mix at Trâu Quỳ; stated by ReferenceChain.StationsAverage |
| ReferenceChain.Segment14 | lib/water-quality-calculations-old.ts:452-575 | definition of the decay from 4592 to Z; stated by ReferenceChain.DecayLegsMonotone |
| ReferenceChain.At7072 | lib/water-quality-calculations-old.ts:617-651 | definition of the mix at Đa Tốn from the output at 7067; stated by ReferenceChain.StationsAverage |
| ReferenceChain.Segment18 | lib/water-quality-calculations-old.ts:659-691 | definition of the decay from the output at 7072 to Z; stated by ReferenceChain.DecayLegsMonotone |
| ReferenceChain.Reference | lib/water-quality-calculations-old.ts:59-691 | definition: which disabled block a clamped position reaches and what it returns; stated by ReferenceChain.ReferenceOutputsRounded |
| ReferenceChain.ReferenceOutputsRounded | lib/water-quality-calculations-old.ts:59-691 | everything a disabled block returns is non-negative and truncated to hundredths |
| ReferenceChain.StationsAverage | lib/water-quality-calculations-old.ts:59-651 | after each station the chain value lies between the upstream value and the lateral inflow |
| ReferenceChain.DecayLegsMonotone | lib/water-quality-calculations-old.ts:59-691 | along each decay leg BOD and NH4 never rise above the leg's starting value |
| Lineages.OriginsReciprocal | lib/water-quality-calculations.ts:42-50 | the live engine's starting concentrations are the reciprocals of the older chain's initial values (lib/water-quality-calculations-old.ts:68-70) |
| Lineages.TemperatureFactorsDiffer | lib/water-quality/coefficients.ts:2-4 | at 26 °C the live factor is 2.5 while the older one is 1, so the two temperature factors differ |
| FormulaDemo.ConvertAirTemperature | lib/water-quality/formula-demo.ts:10 | water temperature is 0.7 × air temperature, so it lies between 0 and the air temperature |
| FormulaDemo.ConvertRainfall | lib/water-quality/formula-demo.ts:18-19 | converted rainfall is 0 exactly when raw rainfall ≤ 3 mm/h, otherwise 0.5(R-3); never negative and never above R for R ≥ 0 |
| FormulaDemo.ConvertRainfallMonotone | lib/water-quality/formula-demo.ts:18-19 | more raw rainfall never gives less converted rainfall |
| FormulaDemo.CompareCalculationResults | lib/water-quality/formula-demo.ts:33-62 | the old method passes inputs through and the new one converts them; changes are new minus old; the temperature change is -30 % (NaN at 0 °C); the rainfall percentage is N/A exactly when raw rainfall is 0, -100 % up to 3 mm/h, else 100 × change / raw |
| Export.SaiDongPlan | lib/export-utils.ts:26-39 | definition of the Sài Đồng points with their captions in `forEach` order; their positions are stated by Export.RegionRuns and their captions by Export.ExportPlanLabels |
| Export.ExportPlan | lib/export-utils.ts:26-169 | definition of the six regions' points in push order; stated by Export.ExportPlanSizes, Export.ExportPlanOrdered and Export.ExportPlanLabels |
| Export.Row | lib/export-utils.ts:28-37 | definition of one pushed row; stated for the whole table by Export.ExportRows and Export.GeneratedRows |
| Export.ExportRows | lib/export-utils.ts:28-37 | one row per plan point; row i has counter start + i, point i's caption and position, and exactly the engine's BOD5, NH4 and NO3 values at that position, each in its own column |
| Export.ExportRowsAppend | lib/export-utils.ts:19-172 | building the table for two consecutive plans is building both, numbering the second after the first |
| Export.PushRegion | lib/export-utils.ts:42-70 | one `forEach` loop appends exactly the rows of its points, numbered on from `tt`, and advances `tt` by the number of points |
| Export.PushSaiDong | lib/export-utils.ts:26-39 | the first loop produces the Sài Đồng rows numbered from 1 |
| Export.GenerateExportData | lib/export-utils.ts:19-172 | the built array is the table of the whole plan, 53 rows, with tt = i + 1 on row i |
| Export.ExportRowsByRegion | lib/export-utils.ts:19-172 | the whole table is the six regions' tables numbered from 1, 8, 21, 31, 46 and 53 |
| Export.RegionRuns | lib/export-utils.ts:26-156 | the five regions' positions are the listed values and each run is strictly increasing |
| Export.ExportPlanSizes | lib/export-utils.ts:26-169 | the regions hold 7, 13, 10, 15, 7 and 1 points, 53 in all |
| Export.ExportPlanOrdered | lib/export-utils.ts:26-169 | positions are strictly increasing across the whole plan, from 0 to 8013 |
| Export.ExportPlanLabels | lib/export-utils.ts:31 | the z = 0 row is "1. Sài Đồng Tại cống", the other Sài Đồng rows use the position's decimal text, and the last row is "6. Xuân Thụy Tại cống" |
| Export.GeneratedRows | lib/export-utils.ts:19-172 | the 53 rows run from z = 0 to 8013, strictly increasing, numbered 1 to 53, each carrying the engine's five values at its z |
| Export.ParameterLine | lib/export-utils.ts:191 | definition of the rainfall and temperature line; Export.PreambleFree states it holds no newline and Export.CsvLayout that it is the second line |
| Export.RowFields | lib/export-utils.ts:194-203 | a data line has one cell per header |
| Export.CsvLines | lib/export-utils.ts:177-207 | the CSV has four preamble lines and then one line per row |
| Export.ExportToCsv | lib/export-utils.ts:177-207 | definition: the lines joined with newlines; Export.CsvLayout states that splitting it at newlines gives the title, parameter line, blank line, header and row lines |
| Export.HeaderColumns | lib/export-utils.ts:178-187 | the header has eight names and splits back into them at the commas |
| Export.RowColumns | lib/export-utils.ts:194-203 | when no formatted value holds a comma, a data line splits back into its eight cells, the second being the quoted caption |
| Export.GroupedPositionBreaksColumns | lib/export-utils.ts:197 | a position formatted with a thousands comma breaks the column layout of its line |
| Export.CsvLayout | lib/export-utils.ts:177-207 | split at newlines, the file is title, parameter line, blank line, header and then each row's line in order |
| Export.CsvLinesFree | lib/export-utils.ts:189-204 | no emitted line contains a newline when no formatted value does |
| Export.IntToStringFree | lib/export-utils.ts:195 | the decimal text of the row counter holds no comma or newline |
| Export.RowFieldsFree | lib/export-utils.ts:194-203 | a row with separator-free formatted values gives separator-free cells |
| Export.PreambleFree | lib/export-utils.ts:189-193 | the title, parameter line and header contain no newline |
| Text.NatToStringRoundTrip | lib/export-utils.ts:31 | reading back the decimal text of a natural number gives the number |
| Text.IntToString | lib/export-utils.ts:31 | never empty; for i ≥ 0 all digits, reading back as i, with a leading 0 only in "0"; for i < 0 a '-' then digits with no leading 0 that read back as -i |
| Text.Join | lib/export-utils.ts:204 | definition of `Array.prototype.join`; stated by Text.SplitJoin and Text.JoinLength |
| Text.Split | lib/export-utils.ts:204 | definition of splitting at a separator, the inverse of Text.Join stated by Text.SplitJoin |
| Text.SplitJoin | lib/export-utils.ts:204 | splitting a join at a separator that no piece contains gives the pieces back |
| Text.JoinLength | lib/export-utils.ts:204 | a join is the pieces' total length plus one separator between each pair |
| Chart.Intermediates | components/water-quality-chart.tsx:94-109 | definition of the inner loop's points for i = 1 .. n; Chart.IntermediatesShape states their count, order, bounds, names and values |
| Chart.IntermediatesShape | components/water-quality-chart.tsx:94-109 | a gap gets samplingStep intermediates (none for a negative step), strictly ascending, each strictly between the two gates, with an empty name and the engine's values at its own position |
| Chart.Gaps | components/water-quality-chart.tsx:77-110 | definition of the first n outer-loop iterations; stated by Chart.GapsLength, Chart.GapsShape and Chart.GapsPrefix |
| Chart.ChartSpec | components/water-quality-chart.tsx:77-121 | definition of the five gaps, then the last gate; stated by Chart.ChartSpecShape |
| Chart.GapPoints | components/water-quality-chart.tsx:77-110 | each gate gap adds the gate and samplingStep intermediates |
| Chart.SampleChart | components/water-quality-chart.tsx:75-124 | the sampling method builds exactly the specified sequence of 5·(samplingStep+1)+1 points, strictly ascending in position |
| Chart.PushIntermediates | components/water-quality-chart.tsx:94-109 | the inner loop appends exactly the gap's intermediates |
| Chart.GatesIncrease | components/water-quality-chart.tsx:77-93 | consecutive gates are strictly increasing |
| Chart.IntermediateBetween | components/water-quality-chart.tsx:94-98 | intermediate positions lie strictly between consecutive gates and increase with i |
| Chart.ProgressBounds | components/water-quality-chart.tsx:95 | progress i/(step+1) is strictly between 0 and 1 for 1 ≤ i ≤ step |
| Chart.GapAscending | components/water-quality-chart.tsx:77-110 | a gap's points are strictly ascending, start at the gate and stay below the next gate |
| Chart.GapsLength | components/water-quality-chart.tsx:77-110 | n gaps give n·(samplingStep+1) points |
| Chart.GapsShape | components/water-quality-chart.tsx:77-110 | the points of the first n gaps are strictly ascending and lie below gate n |
| Chart.ChartSpecShape | components/water-quality-chart.tsx:77-121 | the sampled data has 5·(samplingStep+1)+1 points, strictly ascending, from 0 to 8013 |
| Chart.GapsPrefix | components/water-quality-chart.tsx:77-110 | the points of fewer gaps are a prefix of the points of more |
| Chart.GapNames | components/water-quality-chart.tsx:89-108 | a gate point carries the station's name and every intermediate an empty name, strictly between the gates |
| Chart.Insert | components/water-quality-chart.tsx:122 | definition of inserting one point by position; stated by Chart.InsertSpec |
| Chart.SortByPosition | components/water-quality-chart.tsx:122 | definition of the sort by position; stated by Chart.SortByPositionSpec and Chart.SortKeepsAscending |
| Chart.InsertSpec | components/water-quality-chart.tsx:122 | inserting adds exactly the new point to the multiset and keeps a non-decreasing sequence non-decreasing |
| Chart.SortByPositionSpec | components/water-quality-chart.tsx:122 | the sort is a permutation and its result is non-decreasing in position |
| Chart.SortKeepsAscending | components/water-quality-chart.tsx:122 | sorting already ascending data leaves it unchanged |
| Chart.PointMax | components/water-quality-chart.tsx:127-137 | definition of one `forEach` step of the running maximum; stated by Chart.MaxEnabledIsMaximum |
| Chart.MaxEnabled | components/water-quality-chart.tsx:125-138 | definition of the running maximum over all points; stated by Chart.MaxEnabledIsMaximum and Chart.DisabledSeriesIgnored |
| Chart.MaxEnabledIsMaximum | components/water-quality-chart.tsx:125-138 | the running maximum is non-negative, bounds every enabled value at every point, and is 0 or attained by some enabled value |
| Chart.DisabledSeriesIgnored | components/water-quality-chart.tsx:125-138 | data that agree on the enabled series give the same maximum |
| Chart.GetYScale | components/water-quality-chart.tsx:125-140 | the scale is max(1.1 × the enabled maximum, 1), so it is at least 1 and at least 1.1 × every enabled value at every point |

## Left out

- Rendering, map and UI code (canvas drawing, Leaflet and Google Maps views, React state, resize and mouse handlers, `drawChart`) is not part of this model: it has no logic beyond drawing.
- The weather-service client, the chat runtime provider, voice recording, translations and configuration do network, streaming, browser or configuration work and are not part of this model.
- `downloadCSV`, `exportToPDF` and `generateHTMLTable` work on the DOM, windows, timers and the clock and are not modelled.
- `demonstrateNewFormulas` only logs to the console and is not modelled.
- IEEE floating point: all arithmetic is over exact reals, so rounding, overflow and bit-exact values are not modelled.
- `Math.exp` and `Math.pow` are abstract functions, known only through the facts in `Sound`.
- LiveEngine.CalculateConcentration: requires its denominators to be non-zero (`Defined`), so it does not follow the Infinity/NaN results the source produces at the rainfall values that zero them. Every non-negative rainfall meets the requirement.
- OldClassifier.CalculateConcentration: the eighteen case functions and the default case live in a calculation-cases module that is not part of this model; they are a parameter, so the model covers which case is chosen and with which arguments, not what the case computes.
- The types, colors and spatial modules that the older file imports are not part of this model.
- ReferenceChain: the disabled blocks are never executed by the source. The model gives their meaning as written, including travel times computed from the absolute position Z, and it reads their recursive calls (4587, 7067) as calls of the chain itself.
- FormulaDemo.ConvertAirTemperature and FormulaDemo.ConvertRainfall follow the conversion rules documented in formula-demo.ts; the functions it imports are not part of this model.
- FormulaDemo.CompareCalculationResults: the `toFixed(1)` percentage strings are kept as numbers, not text.
- Export.CsvLines: `toLocaleString`, `toFixed(2)` and the number-to-text conversions in the template strings are an abstract `Formatter`; the model proves the layout, not the digits.
- Chart.SortByPosition: the in-place `Array.prototype.sort` is modelled as an insertion sort on a sequence value, so it says nothing about the runtime's sorting algorithm or its stability.
- Chart.SampleChart: `samplingStep` is an integer and a negative step adds no intermediates; the React effect, its dependencies and `setChartData` are not modelled.
- Chart.GetYScale: it reads the chart data and the series flags as parameters instead of React state.
- LiveEngine.Normalized and LiveEngine.ColorRgb: require `scale.max != 0`. At a zero maximum the source divides by zero and the colour goes through NaN or Infinity; the model does not follow that. The only caller passes entries of `COLOR_SCALES`, and LiveEngine.ColorScalesWellFormed proves that each of them has a positive maximum.
- LiveEngine.SegmentBelowStart: holds only for rainfall in [0, 23/1005]. At heavier rain the start value can be negative (LiveEngine.NegativeAtDaiTuInHeavyRain at X = 1), and a decay factor in (0, 1] moves a negative value up towards zero.
