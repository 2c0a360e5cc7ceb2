/**
 * The conversion engine of the unit converter: five linear unit tables, the
 * currency rate table, the piecewise temperature rule and the per-category
 * dispatch. Numbers are exact reals; floating point is not modelled.
 */
module Conversion {

  /** Why a conversion yields no number. */
  datatype Error =
    | UnknownUnit(name: string)        // a unit name that is not a key of the table (Python's KeyError)
    | UnknownCategory(category: string)   // a category label that no branch of the dispatch matches

  datatype Result = Ok(value: real) | Err(error: Error)

  datatype Option<T> = None | Some(value: T)

  // ---------------------------------------------------------------------------
  // Unit tables: factor of each unit relative to the category's base unit
  // ---------------------------------------------------------------------------

  const LengthUnits: map<string, real> :=
    map["Meters" := 1.0, "Kilometers" := 1000.0, "Miles" := 1609.34, "Feet" := 0.3048, "Inches" := 0.0254]

  const WeightUnits: map<string, real> :=
    map["Kilograms" := 1.0, "Grams" := 0.001, "Pounds" := 0.453592]

  /** Units of each currency per one US dollar. */
  const CurrencyRates: map<string, real> :=
    map["USD" := 1.0, "EUR" := 0.92, "PKR" := 280.0, "GBP" := 0.78]

  const VolumeUnits: map<string, real> :=
    map["Liters" := 1.0, "Milliliters" := 0.001, "Gallons" := 3.785, "Cups" := 0.24]

  const SpeedUnits: map<string, real> :=
    map["Km/h" := 1.0, "Mph" := 1.609, "m/s" := 3.6]

  /** Bytes per unit: powers of 1024. */
  const DataUnits: map<string, real> :=
    map["Bytes" := 1.0, "KB" := 1024.0, "MB" := 1048576.0, "GB" := 1073741824.0]

  /** Every factor of the table is strictly positive. */
  predicate PositiveTable(table: map<string, real>)
  {
    forall u :: u in table ==> table[u] > 0.0
  }

  /**
   * Converting `value` units `from` into `result` units `to` keeps the amount
   * of base unit: `result * table[to] == value * table[from]`.
   */
  predicate Conserves(table: map<string, real>, from: string, to: string, value: real, result: real)
    requires from in table && to in table
  {
    result * table[to] == value * table[from]
  }

  /** Every table and the rate table has positive factors and a base unit of factor 1. */
  lemma TablesArePositive()
    ensures PositiveTable(LengthUnits) && LengthUnits["Meters"] == 1.0
    ensures PositiveTable(WeightUnits) && WeightUnits["Kilograms"] == 1.0
    ensures PositiveTable(CurrencyRates) && CurrencyRates["USD"] == 1.0
    ensures PositiveTable(VolumeUnits) && VolumeUnits["Liters"] == 1.0
    ensures PositiveTable(SpeedUnits) && SpeedUnits["Km/h"] == 1.0
    ensures PositiveTable(DataUnits) && DataUnits["Bytes"] == 1.0
  {
  }

  // ---------------------------------------------------------------------------
  // Linear conversion through the base unit
  // ---------------------------------------------------------------------------

  /**
   * `value * (table[from] / table[to])`: the amount of base unit is the same
   * before and after, so converting a unit to itself changes nothing and a
   * non-negative amount stays non-negative.
   */
  function LinearConvert(table: map<string, real>, value: real, from: string, to: string): (r: real)
    requires PositiveTable(table) && from in table && to in table
    ensures Conserves(table, from, to, value, r)
    ensures from == to ==> r == value
    ensures value >= 0.0 ==> r >= 0.0
  {
    value * (table[from] / table[to])
  }

  /**
   * The linear converter as the source evaluates it: `table[from]` is looked up
   * first, then `table[to]`, and the first missing key is the error.
   */
  function LookupConvert(table: map<string, real>, value: real, from: string, to: string): (r: Result)
    requires PositiveTable(table)
    ensures r.Ok? <==> from in table && to in table
    ensures from !in table ==> r == Err(UnknownUnit(from))
    ensures from in table && to !in table ==> r == Err(UnknownUnit(to))
    ensures r.Ok? ==> Conserves(table, from, to, value, r.value)
  {
    if from !in table then Err(UnknownUnit(from))
    else if to !in table then Err(UnknownUnit(to))
    else Ok(LinearConvert(table, value, from, to))
  }

  /**
   * Conservation of the base amount determines the result: it is the linear
   * conversion, so it is the input itself when the units agree and it is
   * non-negative when the input is.
   */
  lemma ConservedDetermines(table: map<string, real>, from: string, to: string, value: real, result: real)
    requires PositiveTable(table) && from in table && to in table
    requires Conserves(table, from, to, value, result)
    ensures result == LinearConvert(table, value, from, to)
    ensures from == to ==> result == value
    ensures value >= 0.0 ==> result >= 0.0
  {
  }

  /** Converting A to B and back to A returns the input exactly. */
  lemma LinearRoundTrip(table: map<string, real>, value: real, a: string, b: string)
    requires PositiveTable(table) && a in table && b in table
    ensures LinearConvert(table, LinearConvert(table, value, a, b), b, a) == value
  {
  }

  /** Converting A to B and then B to C is the same as converting A to C. */
  lemma LinearCompose(table: map<string, real>, value: real, a: string, b: string, c: string)
    requires PositiveTable(table) && a in table && b in table && c in table
    ensures LinearConvert(table, LinearConvert(table, value, a, b), b, c) == LinearConvert(table, value, a, c)
  {
  }

  function ConvertLength(value: real, from: string, to: string): (r: Result)
    ensures r.Ok? <==> from in LengthUnits && to in LengthUnits
    ensures r.Ok? ==> Conserves(LengthUnits, from, to, value, r.value)
  {
    LookupConvert(LengthUnits, value, from, to)
  }

  function ConvertWeight(value: real, from: string, to: string): (r: Result)
    ensures r.Ok? <==> from in WeightUnits && to in WeightUnits
    ensures r.Ok? ==> Conserves(WeightUnits, from, to, value, r.value)
  {
    LookupConvert(WeightUnits, value, from, to)
  }

  function ConvertVolume(value: real, from: string, to: string): (r: Result)
    ensures r.Ok? <==> from in VolumeUnits && to in VolumeUnits
    ensures r.Ok? ==> Conserves(VolumeUnits, from, to, value, r.value)
  {
    LookupConvert(VolumeUnits, value, from, to)
  }

  function ConvertSpeed(value: real, from: string, to: string): (r: Result)
    ensures r.Ok? <==> from in SpeedUnits && to in SpeedUnits
    ensures r.Ok? ==> Conserves(SpeedUnits, from, to, value, r.value)
  {
    LookupConvert(SpeedUnits, value, from, to)
  }

  function ConvertData(value: real, from: string, to: string): (r: Result)
    ensures r.Ok? <==> from in DataUnits && to in DataUnits
    ensures r.Ok? ==> Conserves(DataUnits, from, to, value, r.value)
  {
    LookupConvert(DataUnits, value, from, to)
  }

  /** Data storage steps by 1024: one gigabyte is 1024 megabytes, one megabyte 1024 kilobytes. */
  lemma DataStepsBy1024(value: real)
    ensures ConvertData(value, "GB", "MB") == Ok(1024.0 * value)
    ensures ConvertData(value, "MB", "KB") == Ok(1024.0 * value)
    ensures ConvertData(value, "KB", "Bytes") == Ok(1024.0 * value)
  {
  }

  /** A unit that is not in the length table is an error, never a number. */
  lemma UnknownLengthUnit(value: real)
    ensures ConvertLength(value, "Lightyears", "Meters") == Err(UnknownUnit("Lightyears"))
    ensures ConvertLength(value, "Meters", "Lightyears") == Err(UnknownUnit("Lightyears"))
  {
  }

  // ---------------------------------------------------------------------------
  // Currency: rates are "units per USD", so the ratio is inverted
  // ---------------------------------------------------------------------------

  /**
   * `value * (rates[to] / rates[from])`; `rates[to]` is looked up first. The
   * amount expressed in US dollars is the same before and after.
   */
  function ConvertCurrency(value: real, from: string, to: string): (r: Result)
    ensures r.Ok? <==> from in CurrencyRates && to in CurrencyRates
    ensures to !in CurrencyRates ==> r == Err(UnknownUnit(to))
    ensures to in CurrencyRates && from !in CurrencyRates ==> r == Err(UnknownUnit(from))
    ensures r.Ok? ==> Conserves(CurrencyRates, to, from, value, r.value)
    ensures r.Ok? && from == to ==> r.value == value
    ensures r.Ok? && value >= 0.0 ==> r.value >= 0.0
  {
    if to !in CurrencyRates then Err(UnknownUnit(to))
    else if from !in CurrencyRates then Err(UnknownUnit(from))
    else Ok(value * (CurrencyRates[to] / CurrencyRates[from]))
  }

  /** Converting currency X to Y and back to X returns the input exactly. */
  lemma CurrencyRoundTrip(value: real, x: string, y: string)
    requires x in CurrencyRates && y in CurrencyRates
    ensures ConvertCurrency(value, x, y).Ok?
    ensures ConvertCurrency(ConvertCurrency(value, x, y).value, y, x) == Ok(value)
  {
  }

  /** 100 US dollars are 92 euros at the table's rate. */
  lemma HundredDollarsInEuros()
    ensures ConvertCurrency(100.0, "USD", "EUR") == Ok(92.0)
  {
  }

  // ---------------------------------------------------------------------------
  // Temperature: a piecewise affine rule over three scale names
  // ---------------------------------------------------------------------------

  datatype Scale = Celsius | Fahrenheit | Kelvin

  function ScaleName(s: Scale): string
  {
    match s
    case Celsius => "Celsius"
    case Fahrenheit => "Fahrenheit"
    case Kelvin => "Kelvin"
  }

  function ParseScale(name: string): (r: Option<Scale>)
    ensures r.Some? ==> ScaleName(r.value) == name
    ensures forall s :: name == ScaleName(s) ==> r == Some(s)
  {
    if name == "Celsius" then Some(Celsius)
    else if name == "Fahrenheit" then Some(Fahrenheit)
    else if name == "Kelvin" then Some(Kelvin)
    else None
  }

  /** Reference definition: the reading `t` on scale `s`, as an absolute temperature in kelvin. */
  function ToKelvin(t: real, s: Scale): real
  {
    match s
    case Celsius => t + 273.15
    case Fahrenheit => (t - 32.0) * 5.0 / 9.0 + 273.15
    case Kelvin => t
  }

  /** Reference definition: the absolute temperature `k` read on scale `s`. */
  function FromKelvin(k: real, s: Scale): (t: real)
    ensures ToKelvin(t, s) == k
  {
    match s
    case Celsius => k - 273.15
    case Fahrenheit => (k - 273.15) * 9.0 / 5.0 + 32.0
    case Kelvin => k
  }

  /**
   * The scale the conversion actually lands in. The rule names one target per
   * source scale and sends every other target name to a fixed third scale, so
   * asking for the source scale itself lands elsewhere.
   */
  function ReachedScale(from: Scale, to: string): Scale
  {
    match from
    case Celsius => if to == "Fahrenheit" then Fahrenheit else Kelvin
    case Fahrenheit => if to == "Celsius" then Celsius else Kelvin
    case Kelvin => if to == "Celsius" then Celsius else Fahrenheit
  }

  /**
   * For a known source scale the result is the same physical temperature read
   * on ReachedScale(from, to); an unrecognised source name returns the value
   * unchanged.
   */
  function ConvertTemperature(value: real, from: string, to: string): (r: real)
    ensures ParseScale(from).None? ==> r == value
    ensures ParseScale(from).Some? ==>
      r == FromKelvin(ToKelvin(value, ParseScale(from).value), ReachedScale(ParseScale(from).value, to))
  {
    if from == "Celsius" then
      (if to == "Fahrenheit" then value * 9.0 / 5.0 + 32.0 else value + 273.15)
    else if from == "Fahrenheit" then
      (if to == "Celsius" then (value - 32.0) * 5.0 / 9.0 else (value - 32.0) * 5.0 / 9.0 + 273.15)
    else if from == "Kelvin" then
      (if to == "Celsius" then value - 273.15 else (value - 273.15) * 9.0 / 5.0 + 32.0)
    else
      value
  }

  /** Between two different known scales the rule reaches the requested one. */
  lemma DistinctScalesReachTarget(a: Scale, b: Scale)
    requires a != b
    ensures ReachedScale(a, ScaleName(b)) == b
  {
  }

  /**
   * Between two different known scales the conversion is physically exact: the
   * absolute temperature is preserved.
   */
  lemma TemperaturePreservesKelvin(value: real, a: Scale, b: Scale)
    requires a != b
    ensures ToKelvin(ConvertTemperature(value, ScaleName(a), ScaleName(b)), b) == ToKelvin(value, a)
  {
  }

  /**
   * Conversions between two different known scales are mutual inverses:
   * Celsius/Fahrenheit, Celsius/Kelvin and Fahrenheit/Kelvin all round-trip.
   */
  lemma TemperatureRoundTrip(value: real, a: Scale, b: Scale)
    requires a != b
    ensures ConvertTemperature(ConvertTemperature(value, ScaleName(a), ScaleName(b)), ScaleName(b), ScaleName(a)) == value
  {
  }

  /**
   * Asking for the source scale itself does not return the input: Celsius to
   * Celsius adds 273.15, Fahrenheit to Fahrenheit yields kelvin and Kelvin to
   * Kelvin yields Fahrenheit.
   */
  lemma SameScaleIsNotIdentity(value: real)
    ensures ConvertTemperature(value, "Celsius", "Celsius") == value + 273.15
    ensures ConvertTemperature(value, "Fahrenheit", "Fahrenheit") == ToKelvin(value, Fahrenheit)
    ensures ConvertTemperature(value, "Kelvin", "Kelvin") == FromKelvin(value, Fahrenheit)
    ensures ConvertTemperature(value, "Celsius", "Celsius") != value
  {
  }

  /** Fixed points of the scales: freezing and boiling water, absolute zero. */
  lemma TemperatureLandmarks()
    ensures ConvertTemperature(0.0, "Celsius", "Fahrenheit") == 32.0
    ensures ConvertTemperature(32.0, "Fahrenheit", "Celsius") == 0.0
    ensures ConvertTemperature(100.0, "Celsius", "Kelvin") == 373.15
    ensures ConvertTemperature(0.0, "Kelvin", "Celsius") == -273.15
  {
  }

  // ---------------------------------------------------------------------------
  // Dispatch on the category
  // ---------------------------------------------------------------------------

  datatype Category = Length | Weight | Temperature | Currency | Volume | Speed | DataStorage

  /** The label the category menu shows. */
  function Label(c: Category): string
  {
    match c
    case Length => "Length"
    case Weight => "Weight"
    case Temperature => "Temperature"
    case Currency => "Currency"
    case Volume => "Volume"
    case Speed => "Speed"
    case DataStorage => "Data Storage"
  }

  /** The chain of label comparisons: the first category whose label matches, if any. */
  function ParseCategory(lbl: string): (r: Option<Category>)
    ensures r.Some? ==> Label(r.value) == lbl
    ensures forall c :: lbl == Label(c) ==> r == Some(c)
  {
    if lbl == "Length" then Some(Length)
    else if lbl == "Weight" then Some(Weight)
    else if lbl == "Temperature" then Some(Temperature)
    else if lbl == "Currency" then Some(Currency)
    else if lbl == "Volume" then Some(Volume)
    else if lbl == "Speed" then Some(Speed)
    else if lbl == "Data Storage" then Some(DataStorage)
    else None
  }

  /** The factor table of a category, for the categories that have one. */
  function Table(c: Category): (t: map<string, real>)
    requires c != Temperature
    ensures PositiveTable(t)
  {
    match c
    case Length => LengthUnits
    case Weight => WeightUnits
    case Currency => CurrencyRates
    case Volume => VolumeUnits
    case Speed => SpeedUnits
    case DataStorage => DataUnits
  }

  /**
   * One converter per category. Every category but temperature fails exactly
   * when a unit is not in its table; temperature always yields a number.
   */
  function Convert(c: Category, value: real, from: string, to: string): (r: Result)
    ensures c == Temperature ==> r == Ok(ConvertTemperature(value, from, to))
    ensures c != Temperature ==> (r.Ok? <==> from in Table(c) && to in Table(c))
    ensures c != Temperature && r.Err? ==> r.error.UnknownUnit? && r.error.name in {from, to}
    ensures c != Temperature && c != Currency && r.Ok? ==> Conserves(Table(c), from, to, value, r.value)
    ensures c == Currency && r.Ok? ==> Conserves(CurrencyRates, to, from, value, r.value)
  {
    match c
    case Length => ConvertLength(value, from, to)
    case Weight => ConvertWeight(value, from, to)
    case Temperature => Ok(ConvertTemperature(value, from, to))
    case Currency => ConvertCurrency(value, from, to)
    case Volume => ConvertVolume(value, from, to)
    case Speed => ConvertSpeed(value, from, to)
    case DataStorage => ConvertData(value, from, to)
  }

  /** The dispatch on the category lbl; a lbl no branch matches is an error. */
  function ConvertLabel(lbl: string, value: real, from: string, to: string): (r: Result)
    ensures ParseCategory(lbl).None? ==> r == Err(UnknownCategory(lbl))
    ensures forall c :: lbl == Label(c) ==> r == Convert(c, value, from, to)
  {
    match ParseCategory(lbl)
    case None => Err(UnknownCategory(lbl))
    case Some(c) => Convert(c, value, from, to)
  }

  /** For every category but temperature, A to B and back to A returns the input. */
  lemma {:induction false} ConvertRoundTrip(c: Category, value: real, a: string, b: string)
    requires c != Temperature && a in Table(c) && b in Table(c)
    ensures Convert(c, value, a, b).Ok?
    ensures Convert(c, Convert(c, value, a, b).value, b, a) == Ok(value)
  {
    if c == Currency {
      CurrencyRoundTrip(value, a, b);
    } else {
      LinearRoundTrip(Table(c), value, a, b);
    }
  }

  /** For every category but temperature, converting a unit to itself returns the input. */
  lemma ConvertSameUnit(c: Category, value: real, u: string)
    requires c != Temperature && u in Table(c)
    ensures Convert(c, value, u, u) == Ok(value)
  {
  }

  /**
   * All factors are positive, so for every category but temperature a
   * non-negative input gives a non-negative result.
   */
  lemma ConvertNonNegative(c: Category, value: real, from: string, to: string)
    requires c != Temperature && value >= 0.0 && Convert(c, value, from, to).Ok?
    ensures Convert(c, value, from, to).value >= 0.0
  {
  }

  /** The units each category's menu offers. */
  function UnitOptions(c: Category): seq<string>
  {
    match c
    case Length => ["Meters", "Kilometers", "Miles", "Feet", "Inches"]
    case Weight => ["Kilograms", "Grams", "Pounds"]
    case Temperature => ["Celsius", "Fahrenheit", "Kelvin"]
    case Currency => ["USD", "EUR", "PKR", "GBP"]
    case Volume => ["Liters", "Milliliters", "Gallons", "Cups"]
    case Speed => ["Km/h", "Mph", "m/s"]
    case DataStorage => ["Bytes", "KB", "MB", "GB"]
  }

  /**
   * The menus offer exactly the keys of each table (for temperature, exactly
   * the three scale names), so a choice made from the menus never fails.
   */
  lemma MenusMatchTables(c: Category, u: string)
    ensures c != Temperature ==> (u in UnitOptions(c) <==> u in Table(c))
    ensures c == Temperature ==> (u in UnitOptions(c) <==> ParseScale(u).Some?)
  {
  }

  lemma MenuChoiceConverts(c: Category, value: real, from: string, to: string)
    requires from in UnitOptions(c) && to in UnitOptions(c)
    ensures Convert(c, value, from, to).Ok?
  {
  }
}
