/**
 * How the two engines relate. The live engine's value at Sài Đồng and the
 * older chain's initial value are built from the same loads and flow, but
 * one is the reciprocal of the other; and their temperature factors differ
 * at the reference temperature of 26 degrees.
 */
module Lineages {
  import opened Numeric
  import LiveEngine
  import ReferenceChain
  import Coefficients

  /** For non-negative rainfall, each origin concentration of the live engine times the older initial value is 1. */
  lemma OriginsReciprocal(x: real)
    requires x >= 0.0
    ensures LiveEngine.Defined(x) && ReferenceChain.Defined(x)
    ensures var live := LiveEngine.Origin(x);
      var initial := ReferenceChain.Initial(x);
      && live.bod5Sample0 * initial.bod5Sample0 == 1.0
      && live.nh4Sample0 * initial.nh4Sample0 == 1.0
      && live.no3Sample1 * initial.no3Sample1 == 1.0
  {
    LiveEngine.NonNegativeRainDefined(x);
    ReferenceChain.FlowsPositive(x);
    var q := 1250.0 + 13550.0 * x;
    ReciprocalPair(q, 47625.0 + 9.0 * 13550.0 * x);
    ReciprocalPair(q, 19125.0 + 0.56 * 13550.0 * x);
    ReciprocalPair(q, 313.0 + 0.14 * 13550.0 * x);
  }

  lemma ReciprocalPair(a: real, b: real)
    requires a != 0.0 && b != 0.0
    ensures (a / b) * (b / a) == 1.0
  {
  }

  /** At 26 degrees the live factor is 2.5 and the older one is 1: the live engine decays 2.5 times as fast there. */
  lemma TemperatureFactorsDiffer(m: MathLib)
    requires Sound(m)
    ensures LiveEngine.CalculateT(26.0, m) == 2.5
    ensures Coefficients.CalculateT(26.0, m) == 1.0
  {
  }
}
