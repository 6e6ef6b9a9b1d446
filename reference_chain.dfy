/**
 * The reference chain that the disabled `if (false && ...)` blocks of
 * lib/water-quality-calculations-old.ts spell out: mass-balanced flows, a
 * decay step through the kinetics ratios and degradation polynomials with
 * the monotonic constraint, flow-weighted mixing with each station's lateral
 * inflow, and the output rule `max(0, truncate(v))`. The blocks are never
 * executed by the source; this module states what they define.
 *
 * Each vector uses the output record's fields for the five chain variables:
 * `bod5Sample0` carries BOD0, `bod5Sample1` BOD1, `nh4Sample0` NH40,
 * `nh4Sample1` NH41 and `no3Sample1` NO31, as the blocks' return statements
 * map them.
 */
module ReferenceChain {
  import opened Numeric
  import opened QualityData
  import opened Utils
  import Coefficients
  import Degradation

  // Main-channel flows Q1..Q5 and lateral inflows q2..q5, affine in the rainfall X.
  function Q1(x: real): real { 1250.0 + 13550.0 * x }
  function Q2(x: real): real { 1480.0 + 17370.0 * x }
  function Q3(x: real): real { 2522.0 + 35700.0 * x }
  function Q4(x: real): real { 4839.0 + 46720.0 * x }
  function Q5(x: real): real { 6074.0 + 53610.0 * x }
  function LateralQ2(x: real): real { 230.0 + 3820.0 * x }
  function LateralQ3(x: real): real { 1042.0 + 18330.0 * x }
  function LateralQ4(x: real): real { 2317.0 + 11020.0 * x }
  function LateralQ5(x: real): real { 1235.0 + 6890.0 * x }

  /** Each main-channel flow is the one above it plus the station's lateral inflow. */
  lemma MassBalance(x: real)
    ensures Q2(x) == Q1(x) + LateralQ2(x)
    ensures Q3(x) == Q2(x) + LateralQ3(x)
    ensures Q4(x) == Q3(x) + LateralQ4(x)
    ensures Q5(x) == Q4(x) + LateralQ5(x)
  {
  }

  /** The rainfalls at which none of the chain's divisors is zero. */
  predicate Defined(x: real)
  {
    && Q1(x) != 0.0 && Q2(x) != 0.0 && Q3(x) != 0.0 && Q4(x) != 0.0 && Q5(x) != 0.0
    && LateralQ2(x) != 0.0 && LateralQ3(x) != 0.0 && LateralQ4(x) != 0.0 && LateralQ5(x) != 0.0
  }

  /** For non-negative rainfall every flow is positive. */
  lemma FlowsPositive(x: real)
    requires x >= 0.0
    ensures Defined(x)
    ensures Q1(x) > 0.0 && Q2(x) > 0.0 && Q3(x) > 0.0 && Q4(x) > 0.0 && Q5(x) > 0.0
    ensures LateralQ2(x) > 0.0 && LateralQ3(x) > 0.0 && LateralQ4(x) > 0.0 && LateralQ5(x) > 0.0
  {
  }

  /** `BOD_initial`, `NH4_initial` and `NO3_initial`: the loads at Sài Đồng divided by Q1. */
  function Initial(x: real): Quality
    requires Defined(x)
  {
    var bod := (47625.0 + 9.0 * 13550.0 * x) / Q1(x);
    var nh4 := (19125.0 + 0.56 * 13550.0 * x) / Q1(x);
    var no3 := (313.0 + 0.14 * 13550.0 * x) / Q1(x);
    Quality(bod, bod, nh4, nh4, no3)
  }

  /** One pollutant's decay, `reference - loss`, passed through `applyAlgorithmConstraints`. */
  function Step(reference: real, loss: real, d: Direction): (r: real)
    ensures d == Decreasing ==> r == Min(reference - loss, reference)
    ensures d == Increasing ==> r == Max(reference - loss, reference)
  {
    ApplyAlgorithmConstraints(Finite(reference - loss), Finite(reference), d).value
  }

  /**
   * One decay step over a travel time: BOD loses `TBOD * D_BOD`, NH4+ and
   * NO3- lose `TN * D_*`; BOD and NH4+ are constrained 'decreasing' and NO3-
   * 'increasing' against the step's reference. So no BOD or NH4+ value rises
   * above its reference and no NO3- value falls below it.
   */
  function DecayStep(ref: Quality, time: real, y: real, m: MathLib): (r: Quality)
    ensures r.bod5Sample0 <= ref.bod5Sample0 && r.bod5Sample1 <= ref.bod5Sample1
    ensures r.nh4Sample0 <= ref.nh4Sample0 && r.nh4Sample1 <= ref.nh4Sample1
    ensures r.no3Sample1 >= ref.no3Sample1
  {
    var tbod := Coefficients.CalculateTBOD(time, y, m);
    var tn := Coefficients.CalculateTN(time, y, m);
    Quality(
      Step(ref.bod5Sample0, tbod * Degradation.DBod0(time), Decreasing),
      Step(ref.bod5Sample1, tbod * Degradation.DBod1(time), Decreasing),
      Step(ref.nh4Sample0, tn * Degradation.DNh40(time), Decreasing),
      Step(ref.nh4Sample1, tn * Degradation.DNh41(time), Decreasing),
      Step(ref.no3Sample1, tn * Degradation.DNo31(time), Increasing))
  }

  /**
   * With a sound `exp` and a travel time of at most 13, `D_BOD1` is negative
   * and `TBOD` is not, so the unconstrained BOD1 value would exceed its
   * reference: the 'decreasing' constraint returns the reference itself.
   */
  lemma ShortTravelClampsBod1(ref: Quality, time: real, y: real, m: MathLib)
    requires Sound(m) && 0.0 <= time <= 13.0
    ensures DecayStep(ref, time, y, m).bod5Sample1 == ref.bod5Sample1
  {
    var tbod := Coefficients.CalculateTBOD(time, y, m);
    Coefficients.TbodNonNegative(time, y, m);
    Degradation.DBod1NegativeEarly(time);
    MulSigns(tbod, Degradation.DBod1(time));
  }

  /** `(C_up * Q_up + C_lateral * q) / Q_down` for one pollutant. */
  function MixOne(up: real, qUp: real, lateral: real, q: real, qDown: real): (r: real)
    requires qDown != 0.0
    ensures qUp > 0.0 && q > 0.0 && qDown == qUp + q ==> Between(r, up, lateral)
  {
    var r := (up * qUp + lateral * q) / qDown;
    if qUp > 0.0 && q > 0.0 && qDown == qUp + q then
      WeightedAverage(up, qUp, lateral, q);
      r
    else
      r
  }

  lemma WeightedAverage(a: real, qa: real, b: real, qb: real)
    requires qa > 0.0 && qb > 0.0
    ensures Between((a * qa + b * qb) / (qa + qb), a, b)
  {
    var s := qa + qb;
    var v := (a * qa + b * qb) / s;
    assert v * s == a * qa + b * qb;
    assert (v - a) * s == (b - a) * qb;
    assert (v - b) * s == (a - b) * qa;
    ProductSign(v - a, s);
    ProductSign(v - b, s);
    ProductSign(b - a, qb);
    ProductSign(a - b, qa);
  }

  /** Mixing the upstream vector with a station's lateral inflow. */
  function MixAt(up: Quality, qUp: real, lateral: Quality, q: real, qDown: real): Quality
    requires qDown != 0.0
  {
    Quality(
      MixOne(up.bod5Sample0, qUp, lateral.bod5Sample0, q, qDown),
      MixOne(up.bod5Sample1, qUp, lateral.bod5Sample1, q, qDown),
      MixOne(up.nh4Sample0, qUp, lateral.nh4Sample0, q, qDown),
      MixOne(up.nh4Sample1, qUp, lateral.nh4Sample1, q, qDown),
      MixOne(up.no3Sample1, qUp, lateral.no3Sample1, q, qDown))
  }

  /** With positive, mass-balanced flows, mixing lies between the upstream value and the inflow, pollutant by pollutant. */
  lemma MixAtAverages(up: Quality, qUp: real, lateral: Quality, q: real, qDown: real)
    requires qUp > 0.0 && q > 0.0 && qDown == qUp + q
    ensures BetweenQ(MixAt(up, qUp, lateral, q, qDown), up, lateral)
  {
  }

  /** `Math.max(0, truncateToTwoDecimals(v))`: never negative, whole hundredths, and within a hundredth below a non-negative v. */
  function Output(v: real): (r: real)
    ensures r >= 0.0 && TwoDecimals(r)
    ensures v >= 0.0 ==> r <= v < r + 0.01
    ensures v < 0.0 ==> r == 0.0
  {
    Max(0.0, TruncateToTwoDecimals(Finite(v)))
  }

  function OutputQ(c: Quality): (r: Quality)
    ensures NonNegative(r)
  {
    Quality(Output(c.bod5Sample0), Output(c.bod5Sample1), Output(c.nh4Sample0), Output(c.nh4Sample1), Output(c.no3Sample1))
  }

  // Lateral inflow concentrations at the four stations.
  function Lateral1112(x: real): Quality
    requires Defined(x)
  {
    var q := LateralQ2(x);
    Quality((8736.0 + 34380.0 * x) / q, (8736.0 + 34380.0 * x) / q,
            (3519.0 + 2139.0 * x) / q, (3519.0 + 2139.0 * x) / q, (58.0 + 535.0 * x) / q)
  }

  function Lateral3170(x: real): Quality
    requires Defined(x)
  {
    var q := LateralQ3(x);
    Quality((39688.0 + 164970.0 * x) / q, (39688.0 + 164970.0 * x) / q,
            (15938.0 + 10265.0 * x) / q, (15938.0 + 10265.0 * x) / q, (260.0 + 2566.0 * x) / q)
  }

  function Lateral4590(x: real): Quality
    requires Defined(x)
  {
    var q := LateralQ4(x);
    Quality((88278.0 + 99180.0 * x) / q, (88278.0 + 99180.0 * x) / q,
            (35450.0 + 6171.0 * x) / q, (35450.0 + 6171.0 * x) / q, (579.0 + 1543.0 * x) / q)
  }

  function Lateral7070(x: real): Quality
    requires Defined(x)
  {
    var q := LateralQ5(x);
    Quality((47054.0 + 62010.0 * x) / q, (47054.0 + 62010.0 * x) / q,
            (18896.0 + 3858.0 * x) / q, (18896.0 + 3858.0 * x) / q, (309.0 + 965.0 * x) / q)
  }

  // The chain, station by station. Travel times are `480 * Z / Q` with the
  // absolute position Z of the point reached (532800 = 480 * 1110,
  // 1520640 = 480 * 3168), as the blocks write them.

  function At1110(x: real, y: real, m: MathLib): Quality
    requires Defined(x)
  {
    DecayStep(Initial(x), 532800.0 / Q1(x), y, m)
  }

  function At1114(x: real, y: real, m: MathLib): Quality
    requires Defined(x)
  {
    MixAt(At1110(x, y, m), Q1(x), Lateral1112(x), LateralQ2(x), Q2(x))
  }

  function At3168(x: real, y: real, m: MathLib): Quality
    requires Defined(x)
  {
    DecayStep(At1114(x, y, m), 1520640.0 / Q2(x), y, m)
  }

  function At3172(x: real, y: real, m: MathLib): Quality
    requires Defined(x)
  {
    MixAt(At3168(x, y, m), Q2(x), Lateral3170(x), LateralQ3(x), Q3(x))
  }

  /** Between An Lạc and Trâu Quỳ (3172 < Z < 4588). */
  function Segment10(z: real, x: real, y: real, m: MathLib): Quality
    requires Defined(x)
  {
    DecayStep(At3172(x, y, m), (480.0 * z) / Q3(x), y, m)
  }

  function At4588(x: real, y: real, m: MathLib): Quality
    requires Defined(x)
  {
    DecayStep(At3172(x, y, m), (480.0 * 4588.0) / Q3(x), y, m)
  }

  function At4592(x: real, y: real, m: MathLib): Quality
    requires Defined(x)
  {
    MixAt(At4588(x, y, m), Q3(x), Lateral4590(x), LateralQ4(x), Q4(x))
  }

  /** Between Trâu Quỳ and Đa Tốn (4592 < Z < 7068). */
  function Segment14(z: real, x: real, y: real, m: MathLib): Quality
    requires Defined(x)
  {
    DecayStep(At4592(x, y, m), (480.0 * z) / Q4(x), y, m)
  }

  /** Mixing at Đa Tốn starts from the output at 7067, as the block's recursive call does. */
  function At7072(x: real, y: real, m: MathLib): Quality
    requires Defined(x)
  {
    MixAt(OutputQ(Segment14(7067.0, x, y, m)), Q4(x), Lateral7070(x), LateralQ5(x), Q5(x))
  }

  /** After Đa Tốn (7072 < Z <= 8013), decaying from the output at 7072. */
  function Segment18(z: real, x: real, y: real, m: MathLib): Quality
    requires Defined(x)
  {
    DecayStep(OutputQ(At7072(x, y, m)), (480.0 * z) / Q5(x), y, m)
  }

  /**
   * What the disabled block at a clamped position returns, or None where no
   * block is written. The recursive calls at 4588, 7068, 7072 and after 7072
   * are read as calls of this chain.
   */
  function Reference(c: real, x: real, y: real, m: MathLib): Option<Quality>
    requires Defined(x)
  {
    if c == 3168.0 then Some(OutputQ(At3168(x, y, m)))
    else if c == 3172.0 then Some(OutputQ(At3172(x, y, m)))
    else if 3172.0 < c < 4588.0 then Some(OutputQ(Segment10(c, x, y, m)))
    else if c == 4588.0 then Some(OutputQ(Segment10(4587.0, x, y, m)))
    else if c == 4590.0 then Some(OutputQ(Lateral4590(x)))
    else if c == 4592.0 then Some(OutputQ(At4592(x, y, m)))
    else if 4592.0 < c < 7068.0 then Some(OutputQ(Segment14(c, x, y, m)))
    else if c == 7068.0 then Some(OutputQ(Segment14(7067.0, x, y, m)))
    else if c == 7070.0 then Some(OutputQ(Lateral7070(x)))
    else if c == 7072.0 then Some(OutputQ(At7072(x, y, m)))
    else if 7072.0 < c <= 8013.0 then Some(OutputQ(Segment18(c, x, y, m)))
    else None
  }

  // ---------------------------------------------------------------------------
  // Properties of the chain

  /** Every value the chain returns is non-negative and a whole number of hundredths. */
  lemma ReferenceOutputsRounded(c: real, x: real, y: real, m: MathLib)
    requires Defined(x) && Reference(c, x, y, m).Some?
    ensures var r := Reference(c, x, y, m).value;
      && NonNegative(r)
      && TwoDecimals(r.bod5Sample0) && TwoDecimals(r.bod5Sample1)
      && TwoDecimals(r.nh4Sample0) && TwoDecimals(r.nh4Sample1) && TwoDecimals(r.no3Sample1)
  {
  }

  /**
   * For non-negative rainfall every station mixes to a value between the
   * upstream value and its lateral inflow, pollutant by pollutant.
   */
  lemma StationsAverage(x: real, y: real, m: MathLib)
    requires x >= 0.0
    ensures BetweenQ(At1114(x, y, m), At1110(x, y, m), Lateral1112(x))
    ensures BetweenQ(At3172(x, y, m), At3168(x, y, m), Lateral3170(x))
    ensures BetweenQ(At4592(x, y, m), At4588(x, y, m), Lateral4590(x))
    ensures BetweenQ(At7072(x, y, m), OutputQ(Segment14(7067.0, x, y, m)), Lateral7070(x))
  {
    FlowsPositive(x);
    MassBalance(x);
    MixAtAverages(At1110(x, y, m), Q1(x), Lateral1112(x), LateralQ2(x), Q2(x));
    MixAtAverages(At3168(x, y, m), Q2(x), Lateral3170(x), LateralQ3(x), Q3(x));
    MixAtAverages(At4588(x, y, m), Q3(x), Lateral4590(x), LateralQ4(x), Q4(x));
    MixAtAverages(OutputQ(Segment14(7067.0, x, y, m)), Q4(x), Lateral7070(x), LateralQ5(x), Q5(x));
  }

  /**
   * Along each decay leg NO3- never falls and BOD and NH4+ never rise: the
   * value at 1110 against the initial one, at 3168 against 1114, and inside
   * the later segments against the station they start from.
   */
  lemma DecayLegsMonotone(z: real, x: real, y: real, m: MathLib)
    requires Defined(x)
    ensures AtMostExceptNo3(At1110(x, y, m), Initial(x))
    ensures AtMostExceptNo3(At3168(x, y, m), At1114(x, y, m))
    ensures AtMostExceptNo3(Segment10(z, x, y, m), At3172(x, y, m))
    ensures AtMostExceptNo3(Segment14(z, x, y, m), At4592(x, y, m))
    ensures AtMostExceptNo3(Segment18(z, x, y, m), OutputQ(At7072(x, y, m)))
  {
  }

  /** BOD and NH4+ at most those of `ref`, NO3- at least that of `ref`. */
  predicate AtMostExceptNo3(r: Quality, ref: Quality)
  {
    && r.bod5Sample0 <= ref.bod5Sample0 && r.bod5Sample1 <= ref.bod5Sample1
    && r.nh4Sample0 <= ref.nh4Sample0 && r.nh4Sample1 <= ref.nh4Sample1
    && r.no3Sample1 >= ref.no3Sample1
  }
}
