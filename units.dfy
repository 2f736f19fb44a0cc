/**
 * Temperature unit conversion: `WeatherApp.convertTemperature`, a pure
 * six-way conversion between Celsius, Fahrenheit and Kelvin whose scale
 * names are compared exactly (case-sensitively); any pair it does not
 * handle passes the value through unchanged.
 *
 * Temperatures are modelled as `real`, so every identity below holds
 * exactly (the source computes with IEEE-754 doubles).
 */
module Units {
  import opened Wrappers

  datatype Scale = Celsius | Fahrenheit | Kelvin

  /** The exact name the source uses for each scale. */
  function Name(s: Scale): string
  {
    match s
    case Celsius => "Celsius"
    case Fahrenheit => "Fahrenheit"
    case Kelvin => "Kelvin"
  }

  /** The scale a name denotes under exact, case-sensitive comparison (`String.equals`). */
  function Parse(name: string): (r: Option<Scale>)
    ensures r.Some? ==> Name(r.value) == name
    ensures r.None? ==> forall s :: Name(s) != name
  {
    if name == "Celsius" then Some(Celsius)
    else if name == "Fahrenheit" then Some(Fahrenheit)
    else if name == "Kelvin" then Some(Kelvin)
    else None
  }

  /** Reference definition: a reading on scale `s` expressed in Celsius. */
  function ToCelsius(s: Scale, v: real): real
  {
    match s
    case Celsius => v
    case Fahrenheit => (v - 32.0) * 5.0 / 9.0
    case Kelvin => v - 273.15
  }

  /** Reference definition: a Celsius reading expressed on scale `s`. */
  function FromCelsius(s: Scale, c: real): real
  {
    match s
    case Celsius => c
    case Fahrenheit => c * 9.0 / 5.0 + 32.0
    case Kelvin => c + 273.15
  }

  /** Going through Celsius and back is the identity, in both directions. */
  lemma CelsiusRoundTrip(s: Scale, v: real)
    ensures FromCelsius(s, ToCelsius(s, v)) == v
    ensures ToCelsius(s, FromCelsius(s, v)) == v
  {
  }

  /**
   * The source's conversion. Identity when the names are equal; for two
   * recognised names it agrees with converting through Celsius (so the
   * direct Fahrenheit/Kelvin formulas, built on 459.67, agree with the
   * ones built on 32 and 273.15); anything else passes through.
   */
  function Convert(value: real, fromScale: string, toScale: string): (r: real)
    ensures fromScale == toScale ==> r == value
    ensures Parse(fromScale).None? || Parse(toScale).None? ==> r == value
    ensures Parse(fromScale).Some? && Parse(toScale).Some? ==>
              r == FromCelsius(Parse(toScale).value, ToCelsius(Parse(fromScale).value, value))
  {
    if fromScale == toScale then value
    else if fromScale == "Celsius" then
      if toScale == "Fahrenheit" then value * 9.0 / 5.0 + 32.0
      else if toScale == "Kelvin" then value + 273.15
      else value
    else if fromScale == "Fahrenheit" then
      if toScale == "Celsius" then (value - 32.0) * 5.0 / 9.0
      else if toScale == "Kelvin" then (value + 459.67) * 5.0 / 9.0
      else value
    else if fromScale == "Kelvin" then
      if toScale == "Celsius" then value - 273.15
      else if toScale == "Fahrenheit" then value * 9.0 / 5.0 - 459.67
      else value
    else value
  }

  /** Converting from `a` to `b` and back returns the original value, for any two names. */
  lemma ConvertRoundTrip(v: real, a: string, b: string)
    ensures Convert(Convert(v, a, b), b, a) == v
  {
  }

  /** Conversions between recognised scales compose: a to b then b to c is a to c. */
  lemma ConvertCompose(v: real, a: string, b: string, c: string)
    requires Parse(a).Some? && Parse(b).Some? && Parse(c).Some?
    ensures Convert(Convert(v, a, b), b, c) == Convert(v, a, c)
  {
  }

  /** Names that differ only in case are not recognised: "celsius" to "Celsius" passes through. */
  lemma ConvertIsCaseSensitive(v: real)
    ensures Convert(v, "celsius", "Celsius") == v
    ensures Convert(v, "Celsius", "fahrenheit") == v
  {
  }
}
