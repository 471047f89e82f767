/** The comfort scorer: a fixed, piecewise rubric that maps one reading
    (temperature in degrees Celsius, CO2 in ppm, relative humidity in percent)
    to an integer score. Each dimension contributes a tier value and CO2 adds a
    separate air-quality bonus; the sum is capped at 100. */
module Comfort {

  /** An inclusive interval [lo, hi]. */
  datatype Range = Range(lo: real, hi: real) {
    predicate Contains(x: real) { lo <= x <= hi }
  }

  /** The optimal ranges the optimizer keeps for each dimension. */
  datatype Ranges = Ranges(temperature: Range, co2: Range, humidity: Range)

  /** The ranges the optimizer is constructed with: 20-22 degrees, 400-800 ppm, 45-55 percent. */
  const Optimal: Ranges := Ranges(Range(20.0, 22.0), Range(400.0, 800.0), Range(45.0, 55.0))

  /** Temperature tier: 25 in the optimal range, 15 within two degrees of it, else 5. */
  function TemperatureScore(r: Range, temp: real): int {
    if r.Contains(temp) then 25
    else if r.lo - 2.0 <= temp <= r.hi + 2.0 then 15
    else 5
  }

  /** CO2 tier: 35 in the optimal range, 20 for any other value below 1000 ppm
      (including values below the range), else 5. */
  function Co2Score(r: Range, co2: real): int {
    if r.Contains(co2) then 35
    else if co2 < 1000.0 then 20
    else 5
  }

  /** Humidity tier: 25 in the optimal range, 15 within the fixed band 40-60 percent, else 5. */
  function HumidityScore(r: Range, humidity: real): int {
    if r.Contains(humidity) then 25
    else if 40.0 <= humidity <= 60.0 then 15
    else 5
  }

  /** Air-quality bonus, independent of the CO2 tier: 5 above 1000 ppm,
      10 above 800 ppm, else 15. */
  function AirQualityBonus(co2: real): int {
    if co2 > 1000.0 then 5
    else if co2 > 800.0 then 10
    else 15
  }

  /** The uncapped sum of the four parts. */
  function Total(r: Ranges, temp: real, co2: real, humidity: real): int {
    TemperatureScore(r.temperature, temp) + Co2Score(r.co2, co2)
    + HumidityScore(r.humidity, humidity) + AirQualityBonus(co2)
  }

  /** The comfort score: the total capped at 100. Whatever the ranges, every
      part is at least 5, so the score is never below 20. */
  function Score(r: Ranges, temp: real, co2: real, humidity: real): (s: int)
    ensures 20 <= s <= 100
  {
    var total := Total(r, temp, co2, humidity);
    if total < 100 then total else 100
  }

  /** The cap is a no-op: the parts add up to at most 25 + 35 + 25 + 15 = 100,
      so the score always equals the uncapped sum of the four tier values. */
  lemma CapNeverApplies(r: Ranges, temp: real, co2: real, humidity: real)
    ensures Total(r, temp, co2, humidity) <= 100
    ensures Score(r, temp, co2, humidity) == Total(r, temp, co2, humidity)
    ensures TemperatureScore(r.temperature, temp) in {25, 15, 5}
    ensures Co2Score(r.co2, co2) in {35, 20, 5}
    ensures HumidityScore(r.humidity, humidity) in {25, 15, 5}
    ensures AirQualityBonus(co2) in {15, 10, 5}
  {
  }

  /** With the optimal ranges, a score of 100 happens exactly when all three
      readings lie in their optimal ranges, bounds included. */
  lemma PerfectScoreIff(temp: real, co2: real, humidity: real)
    ensures Score(Optimal, temp, co2, humidity) == 100
       <==> (20.0 <= temp <= 22.0 && 400.0 <= co2 <= 800.0 && 45.0 <= humidity <= 55.0)
  {
  }

  /** The temperature tiers with the optimal range: 25 on [20, 22], 15 on [18, 24]
      outside it, 5 elsewhere. */
  lemma TemperatureTiers(temp: real)
    ensures TemperatureScore(Optimal.temperature, temp) == 25 <==> 20.0 <= temp <= 22.0
    ensures TemperatureScore(Optimal.temperature, temp) == 15
       <==> (18.0 <= temp < 20.0 || 22.0 < temp <= 24.0)
    ensures TemperatureScore(Optimal.temperature, temp) == 5 <==> (temp < 18.0 || temp > 24.0)
  {
  }

  /** The humidity tiers with the optimal range: 25 on [45, 55], 15 on [40, 60]
      outside it, 5 elsewhere. */
  lemma HumidityTiers(humidity: real)
    ensures HumidityScore(Optimal.humidity, humidity) == 25 <==> 45.0 <= humidity <= 55.0
    ensures HumidityScore(Optimal.humidity, humidity) == 15
       <==> (40.0 <= humidity < 45.0 || 55.0 < humidity <= 60.0)
    ensures HumidityScore(Optimal.humidity, humidity) == 5
       <==> (humidity < 40.0 || humidity > 60.0)
  {
  }

  /** The CO2 edge cases: below the optimal range the tier drops to 20 while the
      bonus stays 15; at exactly 1000 ppm the tier is already 5 (its test is
      strict) but the bonus is still 10; above 1000 ppm both parts are 5. */
  lemma Co2EdgeCases(co2: real)
    ensures co2 < 400.0 ==> Co2Score(Optimal.co2, co2) == 20 && AirQualityBonus(co2) == 15
    ensures 400.0 <= co2 <= 800.0 ==> Co2Score(Optimal.co2, co2) == 35 && AirQualityBonus(co2) == 15
    ensures 800.0 < co2 < 1000.0 ==> Co2Score(Optimal.co2, co2) == 20 && AirQualityBonus(co2) == 10
    ensures co2 == 1000.0 ==> Co2Score(Optimal.co2, co2) == 5 && AirQualityBonus(co2) == 10
    ensures co2 > 1000.0 ==> Co2Score(Optimal.co2, co2) == 5 && AirQualityBonus(co2) == 5
  {
  }

  /** With temperature and humidity fixed, the score never rises as CO2 grows
      from 800 ppm upwards, and it does not depend on CO2 below 400 ppm. */
  lemma Co2Monotonic(temp: real, humidity: real, c1: real, c2: real)
    ensures 800.0 <= c1 <= c2 ==> Score(Optimal, temp, c2, humidity) <= Score(Optimal, temp, c1, humidity)
    ensures c1 < 400.0 && c2 < 400.0 ==> Score(Optimal, temp, c1, humidity) == Score(Optimal, temp, c2, humidity)
  {
  }

  /** Inside the optimal CO2 range the score is at least as high as anywhere
      outside it, with temperature and humidity fixed. */
  lemma OptimalCo2IsBest(temp: real, humidity: real, inside: real, outside: real)
    requires 400.0 <= inside <= 800.0
    ensures Score(Optimal, temp, outside, humidity) <= Score(Optimal, temp, inside, humidity)
    ensures !(400.0 <= outside <= 800.0) ==> Score(Optimal, temp, outside, humidity) < Score(Optimal, temp, inside, humidity)
  {
  }

  /** Worked examples: the historical averages 23.1 degrees, 850 ppm, 58 percent
      score 15 + 20 + 15 + 10 = 60; a live reading of 21.5, 650, 50 scores 100;
      an extreme reading (-50 degrees, 5000 ppm, 0 percent) still scores 20. */
  lemma ScoreExamples()
    ensures Score(Optimal, 23.1, 850.0, 58.0) == 60
    ensures Score(Optimal, 21.5, 650.0, 50.0) == 100
    ensures Score(Optimal, -50.0, 5000.0, 0.0) == 20
  {
  }
}
