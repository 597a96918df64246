/**
 * The unit converter tool: unit names are trimmed and lower-cased, the source unit picks a family
 * (temperature, distance, mass, volume, time, speed), and each family lists the targets it converts
 * to with a fixed formula. Values are reals; the tool's float64 rounding and `%.2f` formatting are
 * not modelled.
 */
module Converter {
  import opened Wrappers
  import opened Text

  datatype Unit =
    | Celsius | Fahrenheit | Kelvin
    | Meter | Kilometer | Centimeter | Inch | Foot
    | Gram | Kilogram | Ounce | Pound
    | Liter | Milliliter | Gallon | Quart
    | Second | Minute | Hour
    | MeterPerSecond | KilometerPerHour | MilePerHour

  datatype Family = Temperature | Distance | Mass | Volume | Time | Speed

  /** The name a unit is given by. */
  function Name(u: Unit): string {
    match u
    case Celsius => "celsius"
    case Fahrenheit => "fahrenheit"
    case Kelvin => "kelvin"
    case Meter => "meter"
    case Kilometer => "kilometer"
    case Centimeter => "centimeter"
    case Inch => "inch"
    case Foot => "foot"
    case Gram => "gram"
    case Kilogram => "kilogram"
    case Ounce => "ounce"
    case Pound => "pound"
    case Liter => "liter"
    case Milliliter => "milliliter"
    case Gallon => "gallon"
    case Quart => "quart"
    case Second => "second"
    case Minute => "minute"
    case Hour => "hour"
    case MeterPerSecond => "meter per second"
    case KilometerPerHour => "kilometer per hour"
    case MilePerHour => "mile per hour"
  }

  function FamilyOf(u: Unit): Family {
    match u
    case Celsius | Fahrenheit | Kelvin => Temperature
    case Meter | Kilometer | Centimeter | Inch | Foot => Distance
    case Gram | Kilogram | Ounce | Pound => Mass
    case Liter | Milliliter | Gallon | Quart => Volume
    case Second | Minute | Hour => Time
    case MeterPerSecond | KilometerPerHour | MilePerHour => Speed
  }

  /** How a family is named in its error message. */
  function FamilyName(f: Family): string {
    match f
    case Temperature => "temperature"
    case Distance => "distance"
    case Mass => "mass"
    case Volume => "volume"
    case Time => "time"
    case Speed => "speed"
  }

  /** The unit a (normalised) name stands for, if any. */
  function UnitOf(s: string): (r: Option<Unit>)
    ensures r.Some? ==> Name(r.value) == s
  {
    if s == "celsius" then Some(Celsius)
    else if s == "fahrenheit" then Some(Fahrenheit)
    else if s == "kelvin" then Some(Kelvin)
    else if s == "meter" then Some(Meter)
    else if s == "kilometer" then Some(Kilometer)
    else if s == "centimeter" then Some(Centimeter)
    else if s == "inch" then Some(Inch)
    else if s == "foot" then Some(Foot)
    else if s == "gram" then Some(Gram)
    else if s == "kilogram" then Some(Kilogram)
    else if s == "ounce" then Some(Ounce)
    else if s == "pound" then Some(Pound)
    else if s == "liter" then Some(Liter)
    else if s == "milliliter" then Some(Milliliter)
    else if s == "gallon" then Some(Gallon)
    else if s == "quart" then Some(Quart)
    else if s == "second" then Some(Second)
    else if s == "minute" then Some(Minute)
    else if s == "hour" then Some(Hour)
    else if s == "meter per second" then Some(MeterPerSecond)
    else if s == "kilometer per hour" then Some(KilometerPerHour)
    else if s == "mile per hour" then Some(MilePerHour)
    else None
  }

  /** Every unit is found by its own name. */
  lemma UnitOfName(u: Unit)
    ensures UnitOf(Name(u)) == Some(u)
  {
    match FamilyOf(u)
    case Temperature => TemperatureNames(u);
    case Distance => DistanceNames(u);
    case Mass => MassNames(u);
    case Volume => VolumeNames(u);
    case Time => TimeNames(u);
    case Speed => SpeedNames(u);
  }

  lemma TemperatureNames(u: Unit)
    requires FamilyOf(u) == Temperature
    ensures UnitOf(Name(u)) == Some(u)
  {
  }

  lemma DistanceNames(u: Unit)
    requires FamilyOf(u) == Distance
    ensures UnitOf(Name(u)) == Some(u)
  {
  }

  lemma MassNames(u: Unit)
    requires FamilyOf(u) == Mass
    ensures UnitOf(Name(u)) == Some(u)
  {
  }

  lemma VolumeNames(u: Unit)
    requires FamilyOf(u) == Volume
    ensures UnitOf(Name(u)) == Some(u)
  {
  }

  lemma TimeNames(u: Unit)
    requires FamilyOf(u) == Time
    ensures UnitOf(Name(u)) == Some(u)
  {
  }

  lemma SpeedNames(u: Unit)
    requires FamilyOf(u) == Speed
    ensures UnitOf(Name(u)) == Some(u)
  {
  }

  /** The conversion table: the value in `to`, or `None` when `from` does not list `to`. */
  function Apply(v: real, from: Unit, to: Unit): Option<real> {
    match from
    case Celsius =>
      (match to case Fahrenheit => Some(v * 9.0 / 5.0 + 32.0) case Kelvin => Some(v + 273.15) case _ => None)
    case Fahrenheit =>
      (match to case Celsius => Some((v - 32.0) * 5.0 / 9.0) case Kelvin => Some((v - 32.0) * 5.0 / 9.0 + 273.15) case _ => None)
    case Kelvin =>
      (match to case Celsius => Some(v - 273.15) case Fahrenheit => Some((v - 273.15) * 9.0 / 5.0 + 32.0) case _ => None)
    case Meter =>
      (match to
       case Kilometer => Some(v / 1000.0) case Centimeter => Some(v * 100.0)
       case Inch => Some(v * 39.3701) case Foot => Some(v * 3.28084) case _ => None)
    case Kilometer =>
      (match to case Meter => Some(v * 1000.0) case _ => None)
    case Centimeter =>
      (match to
       case Meter => Some(v / 100.0) case Inch => Some(v / 2.54) case Foot => Some(v * 0.0328084) case _ => None)
    case Inch =>
      (match to
       case Meter => Some(v / 39.3701) case Centimeter => Some(v * 2.54) case Foot => Some(v / 12.0) case _ => None)
    case Foot =>
      (match to case Meter => Some(v / 3.28084) case Inch => Some(v * 12.0) case _ => None)
    case Gram =>
      (match to
       case Kilogram => Some(v / 1000.0) case Ounce => Some(v / 28.3495) case Pound => Some(v / 453.592) case _ => None)
    case Kilogram =>
      (match to
       case Gram => Some(v * 1000.0) case Ounce => Some(v * 35.274) case Pound => Some(v * 2.20462) case _ => None)
    case Ounce =>
      (match to
       case Gram => Some(v * 28.3495) case Kilogram => Some(v * 0.0283495) case Pound => Some(v / 16.0) case _ => None)
    case Pound =>
      (match to
       case Gram => Some(v * 453.592) case Kilogram => Some(v * 0.453592) case Ounce => Some(v * 16.0) case _ => None)
    case Liter =>
      (match to
       case Milliliter => Some(v * 1000.0) case Gallon => Some(v * 0.264172) case Quart => Some(v * 1.05669) case _ => None)
    case Milliliter =>
      (match to case Liter => Some(v / 1000.0) case _ => None)
    case Gallon =>
      (match to case Liter => Some(v * 3.78541) case Quart => Some(v * 4.0) case _ => None)
    case Quart =>
      (match to case Liter => Some(v * 0.946353) case Gallon => Some(v / 4.0) case _ => None)
    case Second =>
      (match to case Minute => Some(v / 60.0) case Hour => Some(v / 3600.0) case _ => None)
    case Minute =>
      (match to case Second => Some(v * 60.0) case Hour => Some(v / 60.0) case _ => None)
    case Hour =>
      (match to case Second => Some(v * 3600.0) case Minute => Some(v * 60.0) case _ => None)
    case MeterPerSecond =>
      (match to case KilometerPerHour => Some(v * 3.6) case MilePerHour => Some(v * 2.23694) case _ => None)
    case KilometerPerHour =>
      (match to case MeterPerSecond => Some(v / 3.6) case MilePerHour => Some(v * 0.621371) case _ => None)
    case MilePerHour =>
      (match to case MeterPerSecond => Some(v / 2.23694) case KilometerPerHour => Some(v / 0.621371) case _ => None)
  }

  /** How a unit name is normalised before the lookup. */
  function Normalise(s: string): string {
    ToLower(TrimSpace(s))
  }

  /**
   * `convert`: both names are normalised; an unknown source is refused; a target the source's
   * family does not list is refused with that family's message.
   */
  function Convert(v: real, fromUnit: string, toUnit: string): (r: Result<real, string>)
    ensures UnitOf(Normalise(fromUnit)).None? ==> r == Err("unsupported source unit: '" + Normalise(fromUnit) + "'")
    ensures r.Ok? <==>
      UnitOf(Normalise(fromUnit)).Some? && UnitOf(Normalise(toUnit)).Some?
      && Apply(v, UnitOf(Normalise(fromUnit)).value, UnitOf(Normalise(toUnit)).value).Some?
    ensures r.Ok? ==> r.value == Apply(v, UnitOf(Normalise(fromUnit)).value, UnitOf(Normalise(toUnit)).value).value
    ensures r.Err? && UnitOf(Normalise(fromUnit)).Some? ==>
      r.error == FamilyName(FamilyOf(UnitOf(Normalise(fromUnit)).value)) + " conversion from "
                 + Normalise(fromUnit) + " to " + Normalise(toUnit) + " not supported"
  {
    var f := Normalise(fromUnit);
    var t := Normalise(toUnit);
    match UnitOf(f)
    case None => Err("unsupported source unit: '" + f + "'")
    case Some(u) =>
      if UnitOf(t).Some? && Apply(v, u, UnitOf(t).value).Some? then Ok(Apply(v, u, UnitOf(t).value).value)
      else Err(FamilyName(FamilyOf(u)) + " conversion from " + f + " to " + t + " not supported")
  }

  /** The arguments of `Run`: `None` when absent or of the wrong JSON type. */
  datatype Args = Args(value: Option<real>, fromUnit: Option<string>, toUnit: Option<string>)

  /** A successful conversion, before it is formatted. */
  datatype Conversion = Conversion(value: real, fromUnit: string, converted: real, toUnit: string)

  /** `Run`: a numeric value and non-empty unit names are required, then `convert` decides. */
  function Run(args: Args): (r: Result<Conversion, string>)
    ensures args.value.None? ==> r == Err("argument \"value\" must be a number")
    ensures r.Ok? ==>
      args.value.Some? && args.fromUnit.Some? && args.fromUnit.value != "" && args.toUnit.Some? && args.toUnit.value != ""
      && r.value.value == args.value.value && r.value.fromUnit == args.fromUnit.value && r.value.toUnit == args.toUnit.value
      && Convert(args.value.value, args.fromUnit.value, args.toUnit.value) == Ok(r.value.converted)
  {
    if args.value.None? then Err("argument \"value\" must be a number")
    else if args.fromUnit.None? || args.fromUnit.value == "" then Err("invalid \"from_unit\" argument")
    else if args.toUnit.None? || args.toUnit.value == "" then Err("invalid \"to_unit\" argument")
    else
      match Convert(args.value.value, args.fromUnit.value, args.toUnit.value)
      case Err(e) => Err(e)
      case Ok(c) => Ok(Conversion(args.value.value, args.fromUnit.value, c, args.toUnit.value))
  }

  /** `CallTool`: `decode` is the JSON decoder and `show` the `%.2f` formatting of a conversion. */
  function CallTool(arguments: string, decode: string -> Result<Args, string>, show: Conversion -> string): (r: string)
    ensures decode(arguments).Err? ==> r == "Error parsing arguments: " + decode(arguments).error
    ensures decode(arguments).Ok? && Run(decode(arguments).value).Err? ==>
      r == "Error running converter tool: " + Run(decode(arguments).value).error
    ensures decode(arguments).Ok? && Run(decode(arguments).value).Ok? ==> r == show(Run(decode(arguments).value).value)
  {
    match decode(arguments)
    case Err(e) => "Error parsing arguments: " + e
    case Ok(a) =>
      match Run(a)
      case Err(e) => "Error running converter tool: " + e
      case Ok(c) => show(c)
  }

  /* ---------------- what the table promises ---------------- */

  /** Conversions stay within a family and never map a unit to itself. */
  lemma TargetsShareTheFamily(v: real, from: Unit, to: Unit)
    ensures Apply(v, from, to).Some? ==> FamilyOf(from) == FamilyOf(to) && from != to
  {
  }

  /** Kilometres convert only to metres, and millilitres only to litres. */
  lemma OneWayUnits(v: real, to: Unit)
    ensures Apply(v, Kilometer, to).Some? <==> to == Meter
    ensures Apply(v, Milliliter, to).Some? <==> to == Liter
  {
  }

  /** Celsius and Fahrenheit are each other's inverse. */
  lemma CelsiusFahrenheitRoundTrip(v: real)
    ensures Apply(Apply(v, Celsius, Fahrenheit).value, Fahrenheit, Celsius) == Some(v)
    ensures Apply(Apply(v, Fahrenheit, Celsius).value, Celsius, Fahrenheit) == Some(v)
  {
  }

  /** The pairs whose two formulas use the same constant, so that converting there and back is exact. */
  predicate Reciprocal(a: Unit, b: Unit) {
    FamilyOf(a) in {Temperature, Time, Speed}
    || (FamilyOf(a) == Distance && {a, b} != {Centimeter, Foot})
    || (FamilyOf(a) == Mass && {a, b} != {Kilogram, Ounce} && {a, b} != {Kilogram, Pound})
    || (FamilyOf(a) == Volume && {a, b} != {Liter, Gallon} && {a, b} != {Liter, Quart})
  }

  /** Where both directions are listed with reciprocal constants, there and back again is the identity. */
  lemma RoundTrip(v: real, a: Unit, b: Unit)
    requires Apply(v, a, b).Some? && Reciprocal(a, b)
    ensures Apply(Apply(v, a, b).value, b, a) == Some(v)
  {
    match FamilyOf(a)
    case Temperature => TemperatureRoundTrip(v, a, b);
    case Distance => DistanceRoundTrip(v, a, b);
    case Mass => MassRoundTrip(v, a, b);
    case Volume => VolumeRoundTrip(v, a, b);
    case Time => TimeRoundTrip(v, a, b);
    case Speed => SpeedRoundTrip(v, a, b);
  }

  lemma TemperatureRoundTrip(v: real, a: Unit, b: Unit)
    requires FamilyOf(a) == Temperature && Apply(v, a, b).Some? && Reciprocal(a, b)
    ensures Apply(Apply(v, a, b).value, b, a) == Some(v)
  {
  }

  lemma DistanceRoundTrip(v: real, a: Unit, b: Unit)
    requires FamilyOf(a) == Distance && Apply(v, a, b).Some? && Reciprocal(a, b)
    ensures Apply(Apply(v, a, b).value, b, a) == Some(v)
  {
  }

  lemma MassRoundTrip(v: real, a: Unit, b: Unit)
    requires FamilyOf(a) == Mass && Apply(v, a, b).Some? && Reciprocal(a, b)
    ensures Apply(Apply(v, a, b).value, b, a) == Some(v)
  {
  }

  lemma VolumeRoundTrip(v: real, a: Unit, b: Unit)
    requires FamilyOf(a) == Volume && Apply(v, a, b).Some? && Reciprocal(a, b)
    ensures Apply(Apply(v, a, b).value, b, a) == Some(v)
  {
  }

  lemma TimeRoundTrip(v: real, a: Unit, b: Unit)
    requires FamilyOf(a) == Time && Apply(v, a, b).Some? && Reciprocal(a, b)
    ensures Apply(Apply(v, a, b).value, b, a) == Some(v)
  {
  }

  lemma SpeedRoundTrip(v: real, a: Unit, b: Unit)
    requires FamilyOf(a) == Speed && Apply(v, a, b).Some? && Reciprocal(a, b)
    ensures Apply(Apply(v, a, b).value, b, a) == Some(v)
  {
  }

  /** Hours and seconds: 3600 seconds to the hour both ways. */
  lemma HoursAndSeconds(v: real)
    ensures Apply(v, Hour, Second) == Some(v * 3600.0)
    ensures Apply(v, Second, Hour) == Some(v / 3600.0)
  {
  }
}
