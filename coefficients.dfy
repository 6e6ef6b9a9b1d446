/**
 * The kinetics coefficients of the older engine
 * (lib/water-quality/coefficients.ts): the temperature multiplier and the two
 * ratio coefficients for BOD and nitrogen. Travel times are in minutes.
 */
module Coefficients {
  import opened Numeric

  /** `calculateT`: 2.5 raised to (Y - 26) / 10; positive, and 1 at 26 degrees. */
  function CalculateT(temperature: real, m: MathLib): (r: real)
    ensures Sound(m) ==> r > 0.0
    ensures Sound(m) && temperature == 26.0 ==> r == 1.0
  {
    m.pow(2.5, (temperature - 26.0) / 10.0)
  }

  /** Travel time converted from minutes to days, as `time / 60 / 24`. */
  function TimeInDays(time: real): (days: real)
    ensures days * 1440.0 == time
  {
    time / 60.0 / 24.0
  }

  /** The temperature-corrected BOD rate: 0.165 times 1.091 raised to (Y - 20). */
  function BodRate(temperature: real, m: MathLib): (k: real)
    ensures Sound(m) ==> k > 0.0
    ensures Sound(m) && temperature == 20.0 ==> k == 0.165
  {
    0.165 * m.pow(1.091, temperature - 20.0)
  }

  /**
   * `calculateTBOD`: (1 - exp(-days * rate)) / (1 - exp(-days * 0.279)),
   * or 0 when the denominator is 0 (which a sound `exp` gives at time 0).
   */
  function CalculateTBOD(time: real, temperature: real, m: MathLib): (r: real)
    ensures Sound(m) && time == 0.0 ==> r == 0.0
  {
    var days := TimeInDays(time);
    var numerator := 1.0 - m.exp(-days * BodRate(temperature, m));
    var denominator := 1.0 - m.exp(-days * 0.279);
    if denominator != 0.0 then numerator / denominator else 0.0
  }

  /**
   * `calculateTN`: exp(-days * rate) / exp(-days * 0.279), guarded against a
   * zero denominator; 1 at time 0 and always positive for a sound `exp`.
   */
  function CalculateTN(time: real, temperature: real, m: MathLib): (r: real)
    ensures Sound(m) && time == 0.0 ==> r == 1.0
    ensures Sound(m) ==> r > 0.0
  {
    var days := TimeInDays(time);
    var numerator := m.exp(-days * BodRate(temperature, m));
    var denominator := m.exp(-days * 0.279);
    if denominator != 0.0 then numerator / denominator else 0.0
  }

  /** For a non-negative travel time both exponentials are at most 1, so the BOD ratio is never negative. */
  lemma TbodNonNegative(time: real, temperature: real, m: MathLib)
    requires Sound(m) && time >= 0.0
    ensures CalculateTBOD(time, temperature, m) >= 0.0
  {
    var days := TimeInDays(time);
    var k := BodRate(temperature, m);
    MulLeftMono(days, 0.0, k);
    ExpOfNonPositive(m, -days * k);
    ExpOfNonPositive(m, -days * 0.279);
  }
}
