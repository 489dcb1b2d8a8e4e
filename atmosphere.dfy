// Atmospheric correction of a drag coefficient for altitude, barometric
// pressure, temperature and relative humidity.

module Atmosphere {

  /** Standard barometric pressure at sea level, in inches of mercury. */
  const StandardPressure: real := 29.53

  /** Saturation vapour-pressure polynomial in the temperature (degrees Fahrenheit). */
  function VaporPressure(temperature: real): real
  {
    4.0e-6 * (temperature * temperature * temperature) - 0.0004 * (temperature * temperature)
      + 0.0234 * temperature - 0.2517
  }

  /** Humidity divides the pressure by this, which must not vanish. */
  function DryPressure(temperature: real, pressure: real, relativeHumidity: real): real
  {
    pressure - 0.3783 * relativeHumidity * VaporPressure(temperature)
  }

  /** Standard temperature (degrees Fahrenheit) at an altitude in feet. */
  function StandardTemperature(altitude: real): real
  {
    -0.0036 * altitude + 59.0
  }

  /** The altitude polynomial whose reciprocal is the altitude factor. */
  function AltitudePolynomial(altitude: real): real
  {
    -4.0e-15 * (altitude * altitude * altitude) + 4.0e-10 * (altitude * altitude)
      - 3.0e-5 * altitude + 1.0
  }

  /** Humidity factor. */
  function CalcFR(temperature: real, pressure: real, relativeHumidity: real): real
    requires DryPressure(temperature, pressure, relativeHumidity) != 0.0
  {
    0.995 * (pressure / DryPressure(temperature, pressure, relativeHumidity))
  }

  /** Pressure factor: the relative deviation from standard pressure. */
  function CalcFP(pressure: real): real
  {
    (pressure - StandardPressure) / StandardPressure
  }

  /** Temperature factor, relative to the standard temperature at the altitude. */
  function CalcFT(temperature: real, altitude: real): real
    requires 459.6 + StandardTemperature(altitude) != 0.0
  {
    var tStd := StandardTemperature(altitude);
    (temperature - tStd) / (459.6 + tStd)
  }

  /** Altitude factor. */
  function CalcFA(altitude: real): real
    requires AltitudePolynomial(altitude) != 0.0
  {
    1.0 / AltitudePolynomial(altitude)
  }

  /** The drag coefficient corrected for the atmosphere. */
  function AtmosphereCorrection(dragCoefficient: real, altitude: real, barometer: real,
                                temperature: real, relativeHumidity: real): real
    requires AltitudePolynomial(altitude) != 0.0
    requires 459.6 + StandardTemperature(altitude) != 0.0
    requires DryPressure(temperature, barometer, relativeHumidity) != 0.0
  {
    dragCoefficient * CorrectionFactor(altitude, barometer, temperature, relativeHumidity)
  }

  /** The factor the coefficient is multiplied by. */
  function CorrectionFactor(altitude: real, barometer: real, temperature: real, relativeHumidity: real): real
    requires AltitudePolynomial(altitude) != 0.0
    requires 459.6 + StandardTemperature(altitude) != 0.0
    requires DryPressure(temperature, barometer, relativeHumidity) != 0.0
  {
    var fa := CalcFA(altitude);
    var ft := CalcFT(temperature, altitude);
    var fr := CalcFR(temperature, barometer, relativeHumidity);
    var fp := CalcFP(barometer);
    fa * (1.0 + ft - fp) * fr
  }

  /** The correction is a factor independent of the coefficient it corrects. */
  lemma CorrectionProportional(k: real, dragCoefficient: real, altitude: real, barometer: real,
                               temperature: real, relativeHumidity: real)
    requires AltitudePolynomial(altitude) != 0.0
    requires 459.6 + StandardTemperature(altitude) != 0.0
    requires DryPressure(temperature, barometer, relativeHumidity) != 0.0
    ensures AtmosphereCorrection(k * dragCoefficient, altitude, barometer, temperature, relativeHumidity)
         == k * AtmosphereCorrection(dragCoefficient, altitude, barometer, temperature, relativeHumidity)
  {
  }

  /** At sea level the altitude factor is one. */
  lemma SeaLevelAltitudeFactor()
    ensures AltitudePolynomial(0.0) == 1.0 && CalcFA(0.0) == 1.0
  {
  }

  /** At standard pressure the pressure factor vanishes. */
  lemma StandardPressureFactor()
    ensures CalcFP(StandardPressure) == 0.0
  {
  }

  /** At the standard temperature for the altitude the temperature factor vanishes. */
  lemma StandardTemperatureFactor(altitude: real)
    requires 459.6 + StandardTemperature(altitude) != 0.0
    ensures CalcFT(StandardTemperature(altitude), altitude) == 0.0
    ensures CalcFT(59.0, 0.0) == 0.0
  {
  }

  /** In dry air the humidity factor is the constant 0.995. */
  lemma DryAirHumidityFactor(temperature: real, pressure: real)
    requires pressure != 0.0
    ensures DryPressure(temperature, pressure, 0.0) == pressure
    ensures CalcFR(temperature, pressure, 0.0) == 0.995
  {
    assert DryPressure(temperature, pressure, 0.0) == pressure;
  }

  /** In the standard dry sea-level atmosphere the correction factor is 0.995. */
  lemma StandardDryFactor()
    ensures CorrectionFactor(0.0, StandardPressure, 59.0, 0.0) == 0.995
  {
    SeaLevelAltitudeFactor();
    StandardPressureFactor();
    StandardTemperatureFactor(0.0);
    DryAirHumidityFactor(59.0, StandardPressure);
  }

  /** In the standard dry sea-level atmosphere the coefficient is only scaled by 0.995. */
  lemma StandardDryAtmosphere(dragCoefficient: real)
    ensures AtmosphereCorrection(dragCoefficient, 0.0, StandardPressure, 59.0, 0.0) == 0.995 * dragCoefficient
  {
    StandardDryFactor();
  }
}
