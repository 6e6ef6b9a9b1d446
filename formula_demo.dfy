/**
 * The weather conversion rules documented in
 * lib/water-quality/formula-demo.ts and its comparison record
 * `compareCalculationResults`. The two conversion functions the demo imports
 * are not part of this model; they are defined here from the documented
 * rules: T = 0.7 * Tair, and river rainfall 0 up to 3 mm/h and 50% of the
 * excess above it.
 */
module FormulaDemo {
  import opened Numeric

  /** T = 0.7 * Tair: the calculation temperature keeps the sign of the air temperature and shrinks it by 30%. */
  function ConvertAirTemperature(airTemperature: real): (t: real)
    ensures t * 10.0 == 7.0 * airTemperature
    ensures airTemperature >= 0.0 ==> 0.0 <= t <= airTemperature
    ensures airTemperature <= 0.0 ==> airTemperature <= t <= 0.0
  {
    0.7 * airTemperature
  }

  /**
   * River rainfall: zero exactly when the raw rainfall is at most 3 mm/h,
   * otherwise half of the excess, so it is never negative, never above a
   * non-negative raw rainfall, and recovers the raw value above 3 mm/h.
   */
  function ConvertRainfall(rainfall: real): (c: real)
    ensures c >= 0.0
    ensures c == 0.0 <==> rainfall <= 3.0
    ensures rainfall >= 0.0 ==> c <= rainfall
    ensures rainfall > 3.0 ==> 2.0 * c + 3.0 == rainfall
  {
    if rainfall <= 3.0 then 0.0 else 0.5 * (rainfall - 3.0)
  }

  /** More rain never converts to less river rainfall. */
  lemma ConvertRainfallMonotone(r1: real, r2: real)
    requires r1 <= r2
    ensures ConvertRainfall(r1) <= ConvertRainfall(r2)
  {
  }

  datatype Weather = Weather(temperature: real, rainfall: real)

  /** The `changes` record; the percentages are the numbers before `toFixed(1)`, and None stands for 'N/A'. */
  datatype Changes = Changes(
    temperatureChange: real,
    rainfallChange: real,
    temperatureChangePercent: Num,
    rainfallChangePercent: Option<real>)

  datatype Comparison = Comparison(input: Weather, oldMethod: Weather, newMethod: Weather, changes: Changes)

  /** `(n - o) / o * 100`, with JavaScript's answer when `o` is 0. */
  function ChangePercent(n: real, o: real): Num
  {
    Times(Divide(n - o, o), 100.0)
  }

  lemma QuotientOfMultiple(k: real, o: real)
    ensures o != 0.0 ==> (k * o) / o == k
  {
  }

  /**
   * The record comparing the old method (values used as given) with the
   * converted one: the old method passes both inputs through, the new one
   * converts them, each change is new minus old, the temperature change is
   * always -30% of a non-zero air temperature (NaN for 0, from 0 / 0), and
   * the rainfall percentage is 'N/A' exactly when the raw rainfall is 0 and
   * -100% for any positive rainfall up to 3 mm/h.
   */
  function CompareCalculationResults(airTemp: real, rawRainfall: real): (r: Comparison)
    ensures r.input == r.oldMethod == Weather(airTemp, rawRainfall)
    ensures r.newMethod == Weather(ConvertAirTemperature(airTemp), ConvertRainfall(rawRainfall))
    ensures r.newMethod.temperature == r.oldMethod.temperature + r.changes.temperatureChange
    ensures r.newMethod.rainfall == r.oldMethod.rainfall + r.changes.rainfallChange
    ensures r.changes.temperatureChange * 10.0 == -3.0 * airTemp
    ensures airTemp != 0.0 ==> r.changes.temperatureChangePercent == Finite(-30.0)
    ensures airTemp == 0.0 ==> r.changes.temperatureChangePercent == NaN
    ensures r.changes.rainfallChangePercent.None? <==> rawRainfall == 0.0
    ensures 0.0 < rawRainfall <= 3.0 ==> r.changes.rainfallChangePercent == Some(-100.0)
    ensures rawRainfall != 0.0 ==> r.changes.rainfallChangePercent.value * rawRainfall == 100.0 * r.changes.rainfallChange
  {
    var oldMethod := Weather(airTemp, rawRainfall);
    var newMethod := Weather(ConvertAirTemperature(airTemp), ConvertRainfall(rawRainfall));
    var temperatureChange := newMethod.temperature - oldMethod.temperature;
    var rainfallChange := newMethod.rainfall - oldMethod.rainfall;
    var rainfallPercent :=
      if oldMethod.rainfall != 0.0 then Some(rainfallChange / oldMethod.rainfall * 100.0) else None;
    QuotientOfMultiple(-0.3, airTemp);
    QuotientOfMultiple(-1.0, rawRainfall);
    Comparison(
      Weather(airTemp, rawRainfall), oldMethod, newMethod,
      Changes(temperatureChange, rainfallChange,
              ChangePercent(newMethod.temperature, oldMethod.temperature), rainfallPercent))
  }
}
