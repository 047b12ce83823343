/**
 * Temperature unit conversion (utils.py, `convert_temperature`).
 * Samples are stored in Kelvin; a display unit is chosen by name.
 * Arithmetic is over `real`, so IEEE-754 rounding is not modelled.
 */
module Units {

  /** Kelvin to the named display unit; any name other than
      "Celsius" or "Fahrenheit" (including "Kelvin") leaves the value as is.
      In each case the Kelvin value can be recovered from the result. */
  function ConvertTemperature(tempK: real, unit: string): (r: real)
    ensures unit == "Celsius" ==> r + 273.15 == tempK
    ensures unit == "Fahrenheit" ==> (r - 32.0) * 5.0 / 9.0 + 273.15 == tempK
    ensures unit != "Celsius" && unit != "Fahrenheit" ==> r == tempK
  {
    if unit == "Celsius" then tempK - 273.15
    else if unit == "Fahrenheit" then (tempK - 273.15) * 9.0 / 5.0 + 32.0
    else tempK
  }

  /** The slope and intercept of the affine map chosen by `unit`. */
  function Scale(unit: string): (a: real)
    ensures a > 0.0
  {
    if unit == "Celsius" then 1.0
    else if unit == "Fahrenheit" then 9.0 / 5.0
    else 1.0
  }

  function Offset(unit: string): real
  {
    if unit == "Celsius" then -273.15
    else if unit == "Fahrenheit" then 32.0 - 273.15 * 9.0 / 5.0
    else 0.0
  }

  /** Every branch of the conversion is the affine map `Scale * t + Offset`. */
  lemma ConvertIsAffine(tempK: real, unit: string)
    ensures ConvertTemperature(tempK, unit) == Scale(unit) * tempK + Offset(unit)
  {
  }

  lemma CelsiusIsKelvinMinusOffset(tempK: real)
    ensures ConvertTemperature(tempK, "Celsius") == tempK - 273.15
  {
  }

  lemma FahrenheitFromKelvin(tempK: real)
    ensures ConvertTemperature(tempK, "Fahrenheit") == (tempK - 273.15) * 9.0 / 5.0 + 32.0
  {
  }

  /** The Fahrenheit reading is the Celsius reading scaled by 9/5 and shifted by 32. */
  lemma FahrenheitFromCelsius(tempK: real)
    ensures ConvertTemperature(tempK, "Fahrenheit")
         == ConvertTemperature(tempK, "Celsius") * 9.0 / 5.0 + 32.0
  {
  }

  /** Any unit name other than the two recognised ones is the identity. */
  lemma OtherUnitsAreIdentity(tempK: real, unit: string)
    requires unit != "Celsius" && unit != "Fahrenheit"
    ensures ConvertTemperature(tempK, unit) == tempK
  {
  }

  /** Conversion is strictly increasing in the Kelvin value, for every unit. */
  lemma ConvertStrictlyIncreasing(t: real, u: real, unit: string)
    requires t < u
    ensures ConvertTemperature(t, unit) < ConvertTemperature(u, unit)
  {
    ConvertIsAffine(t, unit);
    ConvertIsAffine(u, unit);
  }

  /** Hence conversion preserves and reflects the order of temperatures. */
  lemma ConvertMonotone(t: real, u: real, unit: string)
    ensures t <= u <==> ConvertTemperature(t, unit) <= ConvertTemperature(u, unit)
  {
  }

  /** The inverse map, from a display unit back to Kelvin. */
  function ToKelvin(temp: real, unit: string): real
  {
    (temp - Offset(unit)) / Scale(unit)
  }

  /** Converting to a display unit and back gives the Kelvin value again. */
  lemma ConvertRoundTrip(tempK: real, unit: string)
    ensures ToKelvin(ConvertTemperature(tempK, unit), unit) == tempK
  {
    ConvertIsAffine(tempK, unit);
  }
}
