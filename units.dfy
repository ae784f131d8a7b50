/** Constants, units and the stateless conversions of the weather station. */
module Units {

  /** Millimetres of rain per tip of the rain bucket. */
  const RainCountConstant: real := 0.2794

  /** Wind speed in km/h produced by one anemometer pulse per second. */
  const AnemometerConstant: real := 2.4

  const SecondsPerHour: real := 3600.0

  /** Millimetres in one inch. */
  const MillimetresPerInch: real := 25.4

  /** Divisor that turns km/h into mph. */
  const MphDivisor: real := 1.6093

  /** Display unit for the temperature; the station reads its probe in Celsius. */
  datatype TempUnit = Celsius | Fahrenheit

  /** Display unit for wind speed and gust. */
  datatype SpeedUnit = KilometresPerHour | MilesPerHour

  /** Display unit for the rain count and the rain rate. */
  datatype RainUnit = Millimetres | Inches

  /** A configured temperature unit: only "C" selects Celsius, every other text Fahrenheit. */
  function TempUnitOf(s: string): (u: TempUnit)
    ensures u == Celsius <==> s == "C"
  {
    if s == "C" then Celsius else Fahrenheit
  }

  /** A configured speed unit: only "km/h" selects km/h, every other text mph. */
  function SpeedUnitOf(s: string): (u: SpeedUnit)
    ensures u == KilometresPerHour <==> s == "km/h"
  {
    if s == "km/h" then KilometresPerHour else MilesPerHour
  }

  /** A configured rain unit: only "mm" selects millimetres, every other text inches. */
  function RainUnitOf(s: string): (u: RainUnit)
    ensures u == Millimetres <==> s == "mm"
  {
    if s == "mm" then Millimetres else Inches
  }

  /** True when x is a whole number of hundredths, i.e. a possible result of Round2. */
  predicate OnGrid(x: real)
  {
    (x * 100.0).Floor as real == x * 100.0
  }

  /**
   * Rounding to two decimal places, applied before every published value.
   * Halves are rounded up.
   */
  function Round2(x: real): (r: real)
    ensures OnGrid(r)
    ensures x - 0.005 < r <= x + 0.005
  {
    ((x * 100.0 + 0.5).Floor as real) / 100.0
  }

  /** The floor of r is the one integer n with n <= r < n + 1. */
  lemma FloorUnique(r: real, n: int)
    requires n as real <= r < n as real + 1.0
    ensures r.Floor == n
  {
  }

  lemma FloorMonotone(a: real, b: real)
    requires a <= b
    ensures a.Floor <= b.Floor
  {
  }

  lemma FloorShift(r: real, n: int)
    ensures (r + n as real).Floor == r.Floor + n
  {
  }

  /** Rounding leaves a value that already has two decimals alone, so rounding twice is rounding once. */
  lemma Round2Fixes(x: real)
    requires OnGrid(x)
    ensures Round2(x) == x
  {
    var k := (x * 100.0).Floor;
    FloorUnique(x * 100.0 + 0.5, k);
  }

  /** Rounding preserves order. */
  lemma Round2Monotone(x: real, y: real)
    requires x <= y
    ensures Round2(x) <= Round2(y)
  {
    FloorMonotone(x * 100.0 + 0.5, y * 100.0 + 0.5);
  }

  /** Adding a whole number of hundredths commutes with rounding. */
  lemma Round2Shift(k: real, d: real)
    requires OnGrid(k)
    ensures Round2(k + d) == k + Round2(d)
  {
    var n := (k * 100.0).Floor;
    assert (k + d) * 100.0 + 0.5 == (d * 100.0 + 0.5) + n as real;
    FloorShift(d * 100.0 + 0.5, n);
  }

  /** A value above a two-decimal bound still rounds to at least that bound. */
  lemma Round2AboveGrid(x: real, m: real)
    requires OnGrid(m) && x > m
    ensures Round2(x) >= m
  {
    Round2Monotone(m, x);
    Round2Fixes(m);
  }

  /** Off the grid the bound fails: 1.2341 exceeds 1.234 but rounds to 1.23, below it. */
  lemma OffGridRoundsBelow()
    ensures 1.2341 > 1.234 && Round2(1.2341) == 1.23 < 1.234
  {
  }

  /** Celsius to Fahrenheit. */
  function CelsiusToFahrenheit(c: real): (f: real)
    ensures (f - 32.0) / 1.8 == c
  {
    c * 1.8 + 32.0
  }

  /** Water freezes at 32 degrees and boils at 212 degrees Fahrenheit. */
  lemma FreezingAndBoiling()
    ensures CelsiusToFahrenheit(0.0) == 32.0
    ensures CelsiusToFahrenheit(100.0) == 212.0
  {
  }

  /** The conversion is strictly increasing, so it never reorders readings. */
  lemma CelsiusToFahrenheitIncreasing(a: real, b: real)
    requires a < b
    ensures CelsiusToFahrenheit(a) < CelsiusToFahrenheit(b)
  {
  }

  /** Millimetres to inches. */
  function MillimetresToInches(mm: real): (inches: real)
    ensures inches * MillimetresPerInch == mm
  {
    mm / MillimetresPerInch
  }
}
