/**
 * The concentration engine that the charts, the map and the exporter call
 * (lib/water-quality-calculations.ts). A position Z along the 8,013 m reach,
 * a rainfall X and a temperature Y give five concentrations. The origin has a
 * closed form in X; each stretch between stations decays the value at its
 * upstream station by one exponential factor; each of the four interior
 * stations mixes the value one metre upstream with a fixed discharge, weighted
 * by the flows on either side. Positions off the reach give zeros.
 */
module LiveEngine {
  import opened Numeric
  import opened QualityData
  import Stations
  import Text

  /** `calculateT`: 2.5 times 10 raised to (Y - 26) / 10; positive, and 2.5 at 26 degrees. */
  function CalculateT(temperature: real, m: MathLib): (r: real)
    ensures Sound(m) ==> r > 0.0
    ensures Sound(m) && temperature == 26.0 ==> r == 2.5
  {
    2.5 * m.pow(10.0, (temperature - 26.0) / 10.0)
  }

  // The main-channel flows of the five stretches, affine in the rainfall X.
  function Q1(x: real): real { 1250.0 + 13550.0 * x }
  function Q2(x: real): real { 1480.0 + 3500.0 * x }
  function Q3(x: real): real { 1710.0 + 2000.0 * x }
  function Q4(x: real): real { 1940.0 + 1500.0 * x }
  function Q5(x: real): real { 2170.0 + 1000.0 * x }

  /** The rainfalls at which none of the engine's eight divisors is zero. */
  predicate Defined(x: real)
  {
    && Q1(x) != 0.0 && Q2(x) != 0.0 && Q3(x) != 0.0 && Q4(x) != 0.0 && Q5(x) != 0.0
    && 47625.0 + 9.0 * 13550.0 * x != 0.0
    && 19125.0 + 0.56 * 13550.0 * x != 0.0
    && 313.0 + 0.14 * 13550.0 * x != 0.0
  }

  /** Every non-negative rainfall is in the engine's domain. */
  lemma NonNegativeRainDefined(x: real)
    requires x >= 0.0
    ensures Defined(x)
  {
  }

  /** The closed form at Sài Đồng (Z = 0). */
  function Origin(x: real): Quality
    requires Defined(x)
  {
    var load := 1250.0 + 13550.0 * x;
    Quality(
      load / (47625.0 + 9.0 * 13550.0 * x),
      load / (47625.0 + 9.0 * 13550.0 * x),
      load / (19125.0 + 0.56 * 13550.0 * x),
      load / (19125.0 + 0.56 * 13550.0 * x),
      load / (313.0 + 0.14 * 13550.0 * x))
  }

  /** Every concentration multiplied by the same factor. */
  function Scale(c: Quality, f: real): Quality
  {
    Quality(c.bod5Sample0 * f, c.bod5Sample1 * f, c.nh4Sample0 * f, c.nh4Sample1 * f, c.no3Sample1 * f)
  }

  /** `(Q_up * c_up + (Q_down - Q_up) * c_discharge) / Q_down` for one concentration. */
  function MixOne(up: real, qUp: real, qDown: real, d: real): (r: real)
    requires qDown != 0.0
    ensures qDown >= qUp > 0.0 ==> Between(r, up, d)
    ensures r == (qUp / qDown) * up + ((qDown - qUp) / qDown) * d
  {
    WeightedForm(up, qUp, qDown, d);
    MixOneBetween(up, qUp, qDown, d);
    (qUp * up + (qDown - qUp) * d) / qDown
  }

  lemma MixOneBetween(up: real, qUp: real, qDown: real, d: real)
    requires qDown != 0.0
    ensures qDown >= qUp > 0.0 ==> Between((qUp / qDown) * up + ((qDown - qUp) / qDown) * d, up, d)
  {
    WeightsSumToOne(qUp, qDown);
    if qDown >= qUp > 0.0 {
      var w := qUp / qDown;
      assert 0.0 < w <= 1.0 by {
        assert w * qDown == qUp;
      }
      assert (qDown - qUp) / qDown == 1.0 - w;
      ConvexBetween(up, d, w);
    }
  }

  lemma WeightsSumToOne(qUp: real, qDown: real)
    requires qDown != 0.0
    ensures qUp / qDown + (qDown - qUp) / qDown == 1.0
  {
    var w := qUp / qDown;
    var v := (qDown - qUp) / qDown;
    assert w * qDown == qUp;
    assert v * qDown == qDown - qUp;
    assert (w + v) * qDown == w * qDown + v * qDown;
    assert (w + v - 1.0) * qDown == 0.0;
  }

  lemma WeightedForm(up: real, qUp: real, qDown: real, d: real)
    requires qDown != 0.0
    ensures (qUp * up + (qDown - qUp) * d) / qDown == (qUp / qDown) * up + ((qDown - qUp) / qDown) * d
  {
    var a := qUp * up + (qDown - qUp) * d;
    var w := qUp / qDown;
    var v := (qDown - qUp) / qDown;
    assert w * qDown == qUp;
    assert v * qDown == qDown - qUp;
    calc {
      (w * up + v * d) * qDown;
      (w * qDown) * up + (v * qDown) * d;
      a;
    }
    assert (a / qDown) * qDown == a;
  }

  /** Flow-weighted mixing of the upstream vector with a discharge vector. */
  function Mix(up: Quality, qUp: real, qDown: real, d: Quality): Quality
    requires qDown != 0.0
  {
    Quality(
      MixOne(up.bod5Sample0, qUp, qDown, d.bod5Sample0),
      MixOne(up.bod5Sample1, qUp, qDown, d.bod5Sample1),
      MixOne(up.nh4Sample0, qUp, qDown, d.nh4Sample0),
      MixOne(up.nh4Sample1, qUp, qDown, d.nh4Sample1),
      MixOne(up.no3Sample1, qUp, qDown, d.no3Sample1))
  }

  /** When the downstream flow is at least the upstream one, mixing averages, component by component. */
  lemma MixAverages(up: Quality, qUp: real, qDown: real, d: Quality)
    requires qDown >= qUp > 0.0
    ensures BetweenQ(Mix(up, qUp, qDown, d), up, d)
  {
  }

  /**
   * Mixing gives the upstream water the weight Q_up / Q_down and the
   * discharge the weight (Q_down - Q_up) / Q_down; the two weights sum to 1.
   */
  lemma MixWeights(up: Quality, qUp: real, qDown: real, d: Quality)
    requires qDown != 0.0
    ensures qUp / qDown + (qDown - qUp) / qDown == 1.0
    ensures var r := Mix(up, qUp, qDown, d);
      var wUp := qUp / qDown;
      var wDischarge := (qDown - qUp) / qDown;
      && r.bod5Sample0 == wUp * up.bod5Sample0 + wDischarge * d.bod5Sample0
      && r.bod5Sample1 == wUp * up.bod5Sample1 + wDischarge * d.bod5Sample1
      && r.nh4Sample0 == wUp * up.nh4Sample0 + wDischarge * d.nh4Sample0
      && r.nh4Sample1 == wUp * up.nh4Sample1 + wDischarge * d.nh4Sample1
      && r.no3Sample1 == wUp * up.no3Sample1 + wDischarge * d.no3Sample1
  {
    WeightsSumToOne(qUp, qDown);
  }

  /** Mixing and scaling keep the two BOD5 samples equal and the two NH4+ samples equal. */
  lemma MixAgree(up: Quality, qUp: real, qDown: real, d: Quality)
    requires qDown != 0.0 && SamplesAgree(up) && SamplesAgree(d)
    ensures SamplesAgree(Mix(up, qUp, qDown, d))
  {
  }

  lemma ScaleAgree(c: Quality, f: real)
    requires SamplesAgree(c)
    ensures SamplesAgree(Scale(c, f))
  {
  }

  /** `exp(-0.23 * T * time / 86400)`, the decay over a travel time in seconds-scaled units. */
  function DecayFactor(time: real, temperature: real, m: MathLib): real
  {
    m.exp(-0.23 * CalculateT(temperature, m) * time / 86400.0)
  }

  // The discharge concentrations assumed at the four interior stations.
  const DischargeDaiTu: Quality := Quality(25.0, 25.0, 15.0, 15.0, 10.0)
  const DischargeAnLac: Quality := Quality(20.0, 20.0, 12.0, 12.0, 8.0)
  const DischargeTrauQuy: Quality := Quality(18.0, 18.0, 10.0, 10.0, 7.0)
  const DischargeDaTon: Quality := Quality(15.0, 15.0, 8.0, 8.0, 6.0)

  /**
   * The order in which the branches of `CalculateConcentration` depend on one
   * another: every recursive call lands on a position of smaller rank.
   */
  function Rank(z: real): nat
  {
    if z == 0.0 then 0
    else if 0.0 < z < 1112.0 then 1
    else if z == 1112.0 then 2
    else if 1112.0 < z < 3170.0 then 3
    else if z == 3170.0 then 4
    else if 3170.0 < z < 4590.0 then 5
    else if z == 4590.0 then 6
    else if 4590.0 < z < 7070.0 then 7
    else if z == 7070.0 then 8
    else if 7070.0 < z <= 8013.0 then 9
    else 0
  }

  /**
   * `calculateConcentration`. Z is not clamped: a position off the reach
   * yields zeros. The recursion terminates because each call is on a
   * position of smaller `Rank` (0, 1111, 1112, 3169, 3170, 4589, 4590, 7069,
   * 7070).
   */
  function CalculateConcentration(z: real, x: real, y: real, m: MathLib): (r: Quality)
    requires Defined(x)
    ensures (z < 0.0 || z > 8013.0) ==> r == Zero
    decreases Rank(z)
  {
    if z == 0.0 then
      Origin(x)
    else if 0.0 < z < 1112.0 then
      Scale(CalculateConcentration(0.0, x, y, m), DecayFactor((480.0 * z) / Q1(x), y, m))
    else if z == 1112.0 then
      Mix(CalculateConcentration(1111.0, x, y, m), Q1(x), Q2(x), DischargeDaiTu)
    else if 1112.0 < z < 3170.0 then
      Scale(CalculateConcentration(1112.0, x, y, m), DecayFactor((480.0 * (z - 1112.0)) / Q2(x), y, m))
    else if z == 3170.0 then
      Mix(CalculateConcentration(3169.0, x, y, m), Q2(x), Q3(x), DischargeAnLac)
    else if 3170.0 < z < 4590.0 then
      Scale(CalculateConcentration(3170.0, x, y, m), DecayFactor((480.0 * (z - 3170.0)) / Q3(x), y, m))
    else if z == 4590.0 then
      Mix(CalculateConcentration(4589.0, x, y, m), Q3(x), Q4(x), DischargeTrauQuy)
    else if 4590.0 < z < 7070.0 then
      Scale(CalculateConcentration(4590.0, x, y, m), DecayFactor((480.0 * (z - 4590.0)) / Q4(x), y, m))
    else if z == 7070.0 then
      Mix(CalculateConcentration(7069.0, x, y, m), Q4(x), Q5(x), DischargeDaTon)
    else if 7070.0 < z <= 8013.0 then
      Scale(CalculateConcentration(7070.0, x, y, m), DecayFactor((480.0 * (z - 7070.0)) / Q5(x), y, m))
    else
      Zero
  }

  // ---------------------------------------------------------------------------
  // The shape of the reach as the engine sees it

  /** The open (or, for the last, half-open) stretches where the engine decays. */
  predicate InSegment(z: real)
  {
    (0.0 < z < 1112.0) || (1112.0 < z < 3170.0) || (3170.0 < z < 4590.0) ||
    (4590.0 < z < 7070.0) || (7070.0 < z <= 8013.0)
  }

  /** The station at the upstream end of a stretch. */
  function SegmentStart(z: real): (s: real)
    requires InSegment(z)
    ensures s < z && Rank(s) < Rank(z) && !InSegment(s)
  {
    if z < 1112.0 then 0.0
    else if z < 3170.0 then 1112.0
    else if z < 4590.0 then 3170.0
    else if z < 7070.0 then 4590.0
    else 7070.0
  }

  /** The main-channel flow in a stretch. */
  function SegmentFlow(z: real, x: real): real
    requires InSegment(z)
  {
    if z < 1112.0 then Q1(x)
    else if z < 3170.0 then Q2(x)
    else if z < 4590.0 then Q3(x)
    else if z < 7070.0 then Q4(x)
    else Q5(x)
  }

  /** The shared decay factor at a position inside a stretch. */
  function SegmentFactor(z: real, x: real, y: real, m: MathLib): real
    requires InSegment(z) && Defined(x)
  {
    DecayFactor((480.0 * (z - SegmentStart(z))) / SegmentFlow(z, x), y, m)
  }

  /** The four interior stations, where a discharge joins. */
  predicate IsNode(z: real)
  {
    z == 1112.0 || z == 3170.0 || z == 4590.0 || z == 7070.0
  }

  function NodeFlowIn(z: real, x: real): real
    requires IsNode(z)
  {
    if z == 1112.0 then Q1(x) else if z == 3170.0 then Q2(x) else if z == 4590.0 then Q3(x) else Q4(x)
  }

  function NodeFlowOut(z: real, x: real): real
    requires IsNode(z)
  {
    if z == 1112.0 then Q2(x) else if z == 3170.0 then Q3(x) else if z == 4590.0 then Q4(x) else Q5(x)
  }

  function NodeDischarge(z: real): Quality
    requires IsNode(z)
  {
    if z == 1112.0 then DischargeDaiTu
    else if z == 3170.0 then DischargeAnLac
    else if z == 4590.0 then DischargeTrauQuy
    else DischargeDaTon
  }

  // ---------------------------------------------------------------------------
  // Properties of the live engine

  /**
   * At Z = 0 all five outputs are closed forms in X alone: neither the
   * temperature nor `exp`/`pow` play a part, the two BOD5 samples are equal
   * and the two NH4+ samples are equal.
   */
  lemma OriginClosedForm(x: real, y1: real, y2: real, m1: MathLib, m2: MathLib)
    requires Defined(x)
    ensures CalculateConcentration(0.0, x, y1, m1) == CalculateConcentration(0.0, x, y2, m2)
    ensures var r := CalculateConcentration(0.0, x, y1, m1);
      && r.bod5Sample0 == r.bod5Sample1 && r.nh4Sample0 == r.nh4Sample1
      && r.bod5Sample0 * (47625.0 + 121950.0 * x) == 1250.0 + 13550.0 * x
      && r.nh4Sample0 * (19125.0 + 7588.0 * x) == 1250.0 + 13550.0 * x
      && r.no3Sample1 * (313.0 + 1897.0 * x) == 1250.0 + 13550.0 * x
  {
  }

  /** Off the reach the engine returns zeros; it does not clamp Z. */
  lemma OffReachIsZero(z: real, x: real, y: real, m: MathLib)
    requires Defined(x) && (z < 0.0 || z > 8013.0)
    ensures CalculateConcentration(z, x, y, m) == Zero
    ensures z < 0.0 ==> CalculateConcentration(z, x, y, m) != CalculateConcentration(0.0, x, y, m)
  {
    assert CalculateConcentration(0.0, x, y, m).bod5Sample0 != 0.0;
  }

  /**
   * Inside every stretch, each of the five outputs is the value at the
   * stretch's upstream station times one shared factor; with a sound `exp`
   * and a positive flow that factor lies in (0, 1], so no output moves away
   * from zero, NO3- included.
   */
  lemma SegmentDecay(z: real, x: real, y: real, m: MathLib)
    requires Defined(x) && InSegment(z)
    ensures var f := SegmentFactor(z, x, y, m);
      CalculateConcentration(z, x, y, m) ==
        Scale(CalculateConcentration(SegmentStart(z), x, y, m), f)
    ensures Sound(m) && SegmentFlow(z, x) > 0.0 ==> 0.0 < SegmentFactor(z, x, y, m) <= 1.0
  {
    SegmentUnfold(z, x, y, m);
    SegmentFactorBounds(z, x, y, m);
  }

  lemma SegmentFactorBounds(z: real, x: real, y: real, m: MathLib)
    requires Defined(x) && InSegment(z)
    ensures Sound(m) && SegmentFlow(z, x) > 0.0 ==> 0.0 < SegmentFactor(z, x, y, m) <= 1.0
  {
    if Sound(m) && SegmentFlow(z, x) > 0.0 {
      var q := SegmentFlow(z, x);
      var d := z - SegmentStart(z);
      assert 480.0 * d > 0.0;
      assert (480.0 * d) / q > 0.0;
      DecayFactorBounds((480.0 * d) / q, y, m);
    }
  }

  lemma SegmentUnfold(z: real, x: real, y: real, m: MathLib)
    requires Defined(x) && InSegment(z)
    ensures CalculateConcentration(z, x, y, m) ==
      Scale(CalculateConcentration(SegmentStart(z), x, y, m), SegmentFactor(z, x, y, m))
  {
    if z < 1112.0 {
      assert z - SegmentStart(z) == z;
    }
  }

  /**
   * With a sound `exp`, the decay factor of a non-negative travel time lies
   * in (0, 1] and does not grow with the travel time.
   */
  lemma DecayFactorBounds(time: real, y: real, m: MathLib)
    requires Sound(m) && time >= 0.0
    ensures 0.0 < DecayFactor(time, y, m) <= 1.0
  {
    var t := CalculateT(y, m);
    MulSigns(t, time);
    ExpOfNonPositive(m, -0.23 * t * time / 86400.0);
  }

  lemma DecayFactorAntitone(time1: real, time2: real, y: real, m: MathLib)
    requires Sound(m) && time1 <= time2
    ensures DecayFactor(time2, y, m) <= DecayFactor(time1, y, m)
  {
    var t := CalculateT(y, m);
    MulLeftMono(t, time1, time2);
    assert -0.23 * t * time2 / 86400.0 <= -0.23 * t * time1 / 86400.0;
  }

  /** A positive factor keeps a positive vector positive. */
  lemma ScalePositive(ref: Quality, f: real)
    requires Positive(ref) && f > 0.0
    ensures Positive(Scale(ref, f))
  {
    MulLeftStrict(f, 0.0, ref.bod5Sample0);
    MulLeftStrict(f, 0.0, ref.bod5Sample1);
    MulLeftStrict(f, 0.0, ref.nh4Sample0);
    MulLeftStrict(f, 0.0, ref.nh4Sample1);
    MulLeftStrict(f, 0.0, ref.no3Sample1);
  }

  /**
   * When the flow below a station is at least the flow above it, the
   * station's result lies between the value one metre upstream and the
   * discharge, component by component.
   */
  lemma NodeAverages(z: real, x: real, y: real, m: MathLib)
    requires Defined(x) && IsNode(z) && NodeFlowOut(z, x) >= NodeFlowIn(z, x) > 0.0
    ensures BetweenQ(CalculateConcentration(z, x, y, m), CalculateConcentration(z - 1.0, x, y, m), NodeDischarge(z))
  {
    NodeUnfold(z, x, y, m);
    MixAverages(CalculateConcentration(z - 1.0, x, y, m), NodeFlowIn(z, x), NodeFlowOut(z, x), NodeDischarge(z));
  }

  /**
   * Each interior station mixes the value one metre upstream with its own
   * discharge, with the flows above and below it as weights.
   */
  lemma NodeUnfold(z: real, x: real, y: real, m: MathLib)
    requires Defined(x) && IsNode(z)
    ensures CalculateConcentration(z, x, y, m) ==
      Mix(CalculateConcentration(z - 1.0, x, y, m), NodeFlowIn(z, x), NodeFlowOut(z, x), NodeDischarge(z))
  {
  }

  /**
   * The two BOD5 samples agree everywhere, and so do the two NH4+ samples:
   * they start equal, decay by one shared factor and mix with equal
   * discharges.
   */
  lemma {:induction false} SamplesAgreeEverywhere(z: real, x: real, y: real, m: MathLib)
    requires Defined(x)
    ensures SamplesAgree(CalculateConcentration(z, x, y, m))
    decreases Rank(z)
  {
    if InSegment(z) {
      SamplesAgreeEverywhere(SegmentStart(z), x, y, m);
      SegmentUnfold(z, x, y, m);
      ScaleAgree(CalculateConcentration(SegmentStart(z), x, y, m), SegmentFactor(z, x, y, m));
    } else if IsNode(z) {
      SamplesAgreeEverywhere(z - 1.0, x, y, m);
      NodeUnfold(z, x, y, m);
      MixAgree(CalculateConcentration(z - 1.0, x, y, m), NodeFlowIn(z, x), NodeFlowOut(z, x), NodeDischarge(z));
    }
  }

  /** The largest rainfall at which the downstream flow of every station is at least its upstream flow. */
  const MaxAveragingRain: real := 23.0 / 1005.0

  /**
   * For non-negative rainfall, every station's mixing is a true weighted
   * average (Q_down >= Q_up) exactly when X <= 23/1005; above that, Đài Tư's
   * discharge weight (Q2 - Q1) / Q2 is negative.
   */
  lemma AveragingIff(x: real)
    requires x >= 0.0
    ensures (forall z :: IsNode(z) ==> NodeFlowOut(z, x) >= NodeFlowIn(z, x)) <==> x <= MaxAveragingRain
  {
    if x > MaxAveragingRain {
      assert NodeFlowOut(1112.0, x) < NodeFlowIn(1112.0, x);
    }
  }

  /** The range of rainfall for which the model is a chain of decays and averages. */
  predicate LowRain(x: real)
  {
    0.0 <= x <= MaxAveragingRain
  }

  /**
   * With a sound `exp` and rainfall in [0, 23/1005], every output on the
   * reach is strictly positive.
   */
  lemma {:induction false} PositiveOnReach(z: real, x: real, y: real, m: MathLib)
    requires Sound(m) && LowRain(x) && 0.0 <= z <= 8013.0
    ensures Positive(CalculateConcentration(z, x, y, m))
    decreases Rank(z)
  {
    if z == 0.0 {
      OriginPositive(x, y, m);
    } else if InSegment(z) {
      PositiveOnReach(SegmentStart(z), x, y, m);
      PositiveAfterSegment(z, x, y, m);
    } else {
      assert IsNode(z);
      PositiveOnReach(z - 1.0, x, y, m);
      PositiveAfterNode(z, x, y, m);
    }
  }

  lemma OriginPositive(x: real, y: real, m: MathLib)
    requires LowRain(x)
    ensures Positive(CalculateConcentration(0.0, x, y, m))
  {
  }

  lemma PositiveAfterSegment(z: real, x: real, y: real, m: MathLib)
    requires Sound(m) && LowRain(x) && InSegment(z)
    requires Positive(CalculateConcentration(SegmentStart(z), x, y, m))
    ensures Positive(CalculateConcentration(z, x, y, m))
  {
    SegmentDecay(z, x, y, m);
    ScalePositive(CalculateConcentration(SegmentStart(z), x, y, m), SegmentFactor(z, x, y, m));
  }

  lemma PositiveAfterNode(z: real, x: real, y: real, m: MathLib)
    requires LowRain(x) && IsNode(z)
    requires Positive(CalculateConcentration(z - 1.0, x, y, m))
    ensures Positive(CalculateConcentration(z, x, y, m))
  {
    NodeAverages(z, x, y, m);
    BetweenPositive(CalculateConcentration(z, x, y, m), CalculateConcentration(z - 1.0, x, y, m), NodeDischarge(z));
  }

  lemma BetweenPositive(r: Quality, a: Quality, b: Quality)
    requires BetweenQ(r, a, b) && Positive(a) && Positive(b)
    ensures Positive(r)
  {
  }

  /**
   * Outside that range the mixing extrapolates: at X = 1 the BOD5 at Đài Tư
   * (Z = 1112) is negative, whatever the temperature. Nothing in this engine
   * floors its outputs at zero.
   */
  lemma NegativeAtDaiTuInHeavyRain(y: real, m: MathLib)
    requires Sound(m)
    ensures CalculateConcentration(1112.0, 1.0, y, m).bod5Sample0 < 0.0
  {
    SegmentDecay(1111.0, 1.0, y, m);
    var origin := CalculateConcentration(0.0, 1.0, y, m);
    assert origin.bod5Sample0 == 14800.0 / 169575.0;
    var up := CalculateConcentration(1111.0, 1.0, y, m);
    assert up.bod5Sample0 <= 14800.0 / 169575.0;
    NodeUnfold(1112.0, 1.0, y, m);
  }

  /**
   * Within one stretch, with a sound `exp` and rainfall in [0, 23/1005],
   * every output is non-increasing downstream (NO3- included: this engine
   * decays it like the others).
   */
  lemma MonotoneWithinSegment(z1: real, z2: real, x: real, y: real, m: MathLib)
    requires Sound(m) && LowRain(x)
    requires InSegment(z1) && InSegment(z2) && z1 < z2 && SegmentStart(z1) == SegmentStart(z2)
    ensures AtMost(CalculateConcentration(z2, x, y, m), CalculateConcentration(z1, x, y, m))
  {
    var s := SegmentStart(z1);
    SegmentUnfold(z1, x, y, m);
    SegmentUnfold(z2, x, y, m);
    PositiveOnReach(s, x, y, m);
    SegmentFactorAntitone(z1, z2, x, y, m);
    ScaleMono(CalculateConcentration(s, x, y, m), SegmentFactor(z2, x, y, m), SegmentFactor(z1, x, y, m));
  }

  lemma SegmentFactorAntitone(z1: real, z2: real, x: real, y: real, m: MathLib)
    requires Sound(m) && LowRain(x)
    requires InSegment(z1) && InSegment(z2) && z1 < z2 && SegmentStart(z1) == SegmentStart(z2)
    ensures SegmentFactor(z2, x, y, m) <= SegmentFactor(z1, x, y, m)
  {
    var s := SegmentStart(z1);
    var q := SegmentFlow(z1, x);
    assert q == SegmentFlow(z2, x) && q > 0.0;
    DivMono(480.0 * (z1 - s), 480.0 * (z2 - s), q);
    DecayFactorAntitone((480.0 * (z1 - s)) / q, (480.0 * (z2 - s)) / q, y, m);
  }

  /** A smaller factor gives a smaller vector, component by component, for a non-negative vector. */
  lemma ScaleMono(ref: Quality, f1: real, f2: real)
    requires Positive(ref) && f1 <= f2
    ensures AtMost(Scale(ref, f1), Scale(ref, f2))
  {
    MulLeftMono(ref.bod5Sample0, f1, f2);
    MulLeftMono(ref.bod5Sample1, f1, f2);
    MulLeftMono(ref.nh4Sample0, f1, f2);
    MulLeftMono(ref.nh4Sample1, f1, f2);
    MulLeftMono(ref.no3Sample1, f1, f2);
  }

  /**
   * With a sound `exp` and rainfall in [0, 23/1005], no output inside a
   * stretch, NO3- included, exceeds the value at the station it decays from.
   * The rainfall bound matters: at X = 1 the value at Đài Tư is negative
   * (NegativeAtDaiTuInHeavyRain), and a factor in (0, 1] moves it towards zero.
   */
  lemma SegmentBelowStart(z: real, x: real, y: real, m: MathLib)
    requires Sound(m) && LowRain(x) && InSegment(z)
    ensures AtMost(CalculateConcentration(z, x, y, m), CalculateConcentration(SegmentStart(z), x, y, m))
  {
    NonNegativeRainDefined(x);
    var s := CalculateConcentration(SegmentStart(z), x, y, m);
    SegmentDecay(z, x, y, m);
    PositiveOnReach(SegmentStart(z), x, y, m);
    ScaleMono(s, SegmentFactor(z, x, y, m), 1.0);
    assert Scale(s, 1.0) == s;
  }

  // ---------------------------------------------------------------------------
  // Pixel and metre conversions

  /** `pixelToMeter`: x / canvasWidth * RIVER_LENGTH (a zero width gives a non-finite number). */
  function PixelToMeter(x: real, canvasWidth: real): (r: Num)
    ensures canvasWidth != 0.0 <==> r.Finite?
  {
    Times(Divide(x, canvasWidth), Stations.RiverLength as real)
  }

  /** `meterToPixel`: meter / RIVER_LENGTH * canvasWidth. */
  function MeterToPixel(meter: real, canvasWidth: real): (r: real)
    ensures canvasWidth > 0.0 && 0.0 <= meter <= 8013.0 ==> 0.0 <= r <= canvasWidth
  {
    var v := meter / (Stations.RiverLength as real) * canvasWidth;
    if canvasWidth > 0.0 && 0.0 <= meter <= 8013.0 then
      MulSigns(canvasWidth, meter / 8013.0);
      MulSigns(canvasWidth, 1.0 - meter / 8013.0);
      v
    else
      v
  }

  /** For a non-zero width the two conversions undo each other. */
  lemma PixelMeterRoundTrip(meter: real, pixel: real, canvasWidth: real)
    requires canvasWidth != 0.0
    ensures PixelToMeter(MeterToPixel(meter, canvasWidth), canvasWidth) == Finite(meter)
    ensures MeterToPixel(PixelToMeter(pixel, canvasWidth).value, canvasWidth) == pixel
  {
    var length := Stations.RiverLength as real;
    MulDivCancel(meter / length, canvasWidth);
    DivMulCancel(meter, length);
    MulDivCancel(pixel / canvasWidth, length);
    DivMulCancel(pixel, canvasWidth);
  }

  lemma MulDivCancel(a: real, c: real)
    requires c != 0.0
    ensures (a * c) / c == a
  {
  }

  lemma DivMulCancel(a: real, c: real)
    requires c != 0.0
    ensures (a / c) * c == a
  {
  }

  // ---------------------------------------------------------------------------
  // The heat-map colour scale

  datatype ColorScale = ColorScale(min: real, max: real, colors: seq<string>)

  const ColorScales: map<string, ColorScale> := map[
    "BOD5" := ColorScale(0.0, 50.0, ["white", "lightpink", "red"]),
    "NH4" := ColorScale(0.0, 25.0, ["white", "lightyellow", "gold"]),
    "NO3" := ColorScale(0.0, 30.0, ["white", "lightblue", "deepskyblue"])
  ]

  datatype Rgb = Rgb(r: int, g: int, b: int)

  const KnownColors: set<string> :=
    {"white", "lightpink", "red", "lightyellow", "gold", "lightblue", "deepskyblue"}

  /** The channels of a colour name; an unknown name is black. */
  function ColorValues(color: string): (c: Rgb)
    ensures color !in KnownColors ==> c == Rgb(0, 0, 0)
    ensures 0 <= c.r <= 255 && 0 <= c.g <= 255 && 0 <= c.b <= 255
  {
    if color == "white" then Rgb(255, 255, 255)
    else if color == "lightpink" then Rgb(255, 182, 193)
    else if color == "red" then Rgb(255, 0, 0)
    else if color == "lightyellow" then Rgb(255, 255, 224)
    else if color == "gold" then Rgb(255, 215, 0)
    else if color == "lightblue" then Rgb(173, 216, 230)
    else if color == "deepskyblue" then Rgb(0, 191, 255)
    else Rgb(0, 0, 0)
  }

  predicate ChannelBetween(v: int, a: int, b: int)
  {
    (a <= v <= b) || (b <= v <= a)
  }

  predicate RgbBetween(c: Rgb, a: Rgb, b: Rgb)
  {
    ChannelBetween(c.r, a.r, b.r) && ChannelBetween(c.g, a.g, b.g) && ChannelBetween(c.b, a.b, b.b)
  }

  /** One channel, `Math.round(a + (b - a) * t)`: between the endpoints for t in [0, 1]. */
  function Lerp(a: int, b: int, t: real): (v: int)
    ensures 0.0 <= t <= 1.0 ==> ChannelBetween(v, a, b)
    ensures t == 0.0 ==> v == a
    ensures t == 1.0 ==> v == b
  {
    var exact := a as real + (b - a) as real * t;
    ConvexBetween(b as real, a as real, t);
    assert exact == t * (b as real) + (1.0 - t) * (a as real);
    Round(exact)
  }

  /** The channels that `interpolateColor` prints. */
  function InterpolateRgb(color1: string, color2: string, t: real): (c: Rgb)
    ensures 0.0 <= t <= 1.0 ==> RgbBetween(c, ColorValues(color1), ColorValues(color2))
    ensures t == 0.0 ==> c == ColorValues(color1)
    ensures t == 1.0 ==> c == ColorValues(color2)
  {
    var c1 := ColorValues(color1);
    var c2 := ColorValues(color2);
    Rgb(Lerp(c1.r, c2.r, t), Lerp(c1.g, c2.g, t), Lerp(c1.b, c2.b, t))
  }

  /** The CSS text `rgb(r, g, b)`. */
  function RgbText(c: Rgb): string
  {
    "rgb(" + Text.IntToString(c.r) + ", " + Text.IntToString(c.g) + ", " + Text.IntToString(c.b) + ")"
  }

  /** `interpolateColor`. */
  function InterpolateColor(color1: string, color2: string, t: real): string
  {
    RgbText(InterpolateRgb(color1, color2, t))
  }

  /** `scale.colors[i]`; a missing entry (JavaScript's undefined) names no colour. */
  function ColorAt(colors: seq<string>, i: nat): (name: string)
    ensures i >= |colors| ==> name !in KnownColors
  {
    if i < |colors| then colors[i] else ""
  }

  /** The value clamped to the scale and divided by its maximum. */
  function Normalized(value: real, scale: ColorScale): (n: real)
    requires scale.max != 0.0
    ensures 0.0 <= scale.min <= scale.max ==> 0.0 <= n <= 1.0
    ensures 0.0 <= scale.min <= scale.max && value >= scale.max ==> n == 1.0
    ensures scale.min == 0.0 < scale.max && value <= 0.0 ==> n == 0.0
  {
    var v := Min(Max(value, scale.min), scale.max);
    if 0.0 <= scale.min <= scale.max then
      DivMono(0.0, v, scale.max);
      DivMono(v, scale.max, scale.max);
      MulDivCancel(1.0, scale.max);
      MulDivCancel(0.0, scale.max);
      v / scale.max
    else
      v / scale.max
  }

  /**
   * The channels of `getColorFromValue`: a normalised value up to 0.5 blends
   * the first colour into the second, above 0.5 the second into the third.
   * For a scale with 0 <= min <= max every channel lies between the two
   * blended colours, a value at or below 0 on a scale starting at 0 gives the
   * first colour and a value at or above the maximum the third.
   */
  function ColorRgb(value: real, scale: ColorScale): (c: Rgb)
    requires scale.max != 0.0
    ensures 0.0 <= scale.min <= scale.max ==>
      if Normalized(value, scale) <= 0.5
      then RgbBetween(c, ColorValues(ColorAt(scale.colors, 0)), ColorValues(ColorAt(scale.colors, 1)))
      else RgbBetween(c, ColorValues(ColorAt(scale.colors, 1)), ColorValues(ColorAt(scale.colors, 2)))
    ensures scale.min == 0.0 < scale.max && value <= 0.0 ==> c == ColorValues(ColorAt(scale.colors, 0))
    ensures 0.0 <= scale.min <= scale.max && value >= scale.max ==> c == ColorValues(ColorAt(scale.colors, 2))
  {
    var n := Normalized(value, scale);
    if n <= 0.5 then InterpolateRgb(ColorAt(scale.colors, 0), ColorAt(scale.colors, 1), n * 2.0)
    else InterpolateRgb(ColorAt(scale.colors, 1), ColorAt(scale.colors, 2), (n - 0.5) * 2.0)
  }

  /** `getColorFromValue`. */
  function GetColorFromValue(value: real, scale: ColorScale): string
    requires scale.max != 0.0
  {
    RgbText(ColorRgb(value, scale))
  }

  /** The three built-in scales start at 0, have a positive maximum and name three known colours. */
  lemma ColorScalesWellFormed()
    ensures ColorScales.Keys == {"BOD5", "NH4", "NO3"}
    ensures forall k :: k in ColorScales ==>
      var s := ColorScales[k];
      s.min == 0.0 < s.max && |s.colors| == 3 && (forall i :: 0 <= i < 3 ==> s.colors[i] in KnownColors)
  {
  }
}
