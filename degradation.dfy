/**
 * The degradation polynomials of the older engine
 * (lib/water-quality/degradation.ts): the amount each pollutant loses per
 * unit of kinetics coefficient after a travel time of `t` minutes.
 */
module Degradation {

  function DBod1(t: real): real { -0.00001 * t * t + 0.0305 * t - 0.4113 }

  function DBod0(t: real): real { 0.0012 * t - 0.000000000000002 }

  function DNh41(t: real): real { -0.000001 * t * t + 0.0021 * t - 0.0121 }

  function DNh40(t: real): real { -0.0000002 * t * t + 0.0003 * t - 0.0006 }

  function DNo31(t: real): real { 0.0000006 * t * t - 0.0006 * t - 0.0085 }

  /**
   * The quadratic coefficient of each polynomial, read off its second
   * difference: p(t + h) + p(t - h) - 2 p(t) == 2 a h^2. BOD1, NH41 and NH40
   * curve down (a < 0); NO31 curves up (a > 0); BOD0 is linear.
   */
  lemma {:induction false} LeadingCoefficients(t: real, h: real)
    ensures DBod1(t + h) + DBod1(t - h) - 2.0 * DBod1(t) == -0.00002 * h * h
    ensures DBod0(t + h) + DBod0(t - h) - 2.0 * DBod0(t) == 0.0
    ensures DNh41(t + h) + DNh41(t - h) - 2.0 * DNh41(t) == -0.000002 * h * h
    ensures DNh40(t + h) + DNh40(t - h) - 2.0 * DNh40(t) == -0.0000004 * h * h
    ensures DNo31(t + h) + DNo31(t - h) - 2.0 * DNo31(t) == 0.0000012 * h * h
  {
  }

  /** The constant terms: every polynomial is negative at t = 0. */
  lemma ValuesAtZero()
    ensures DBod1(0.0) == -0.4113
    ensures DBod0(0.0) < 0.0
    ensures DNh41(0.0) == -0.0121
    ensures DNh40(0.0) == -0.0006
    ensures DNo31(0.0) == -0.0085
  {
  }

  /** `D_BOD0` is strictly increasing, with slope 0.0012. */
  lemma DBod0Increasing(t1: real, t2: real)
    requires t1 < t2
    ensures DBod0(t1) < DBod0(t2)
    ensures DBod0(t2) - DBod0(t1) == 0.0012 * (t2 - t1)
  {
  }

  /** `D_BOD1` stays negative for travel times up to 13 minutes. */
  lemma DBod1NegativeEarly(t: real)
    requires 0.0 <= t <= 13.0
    ensures DBod1(t) < 0.0
  {
    assert t * t >= 0.0;
    assert 0.0305 * t <= 0.3965;
  }
}
