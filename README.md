# Weather station aggregation engine, in Dafny

This project models the `Weather` class of a MicroPython weather station
(`weather/weather.py`). The class holds the station's live state: the rain
count, the rain-rate accumulator ("rate factor"), the anemometer pulse count,
the time of the last pulse, the maximum gust, the wind speed and direction,
and the temperature. It also holds a nested report dictionary ("Rain",
"Wind", "Temperature") that mirrors those fields for publication. The class
is written to be driven as follows: interrupt handlers record anemometer
pulses and rain-bucket tips, and a periodic caller computes the average wind
speed and the hourly rain rate from the counters, which resets them, and
resets the gust and the daily rain count. No caller in the repository uses
the class: `main.py` keeps its own global dictionary and never creates a
`Weather`, so this model describes the class on its own.

Files and modules:

- `units.dfy`, module `Units`: the constants (0.2794 mm per tip, 2.4 km/h
  per pulse per second, 3600 s per hour, 25.4 mm per inch, 1.6093 km/h per
  mph), the three unit datatypes, two-decimal rounding (`Round2`) and the
  Celsius/Fahrenheit and millimetre/inch conversions.
- `compass.dfy`, module `Compass`: the vane calibration table (sixteen
  half-open ADC ranges, searched in order), the label-to-angle table, the
  lookup `WindAdcToDirection` (a loop that stops at the first match) and
  `DirectionToAngle`.
- `physics.dfy`, module `Physics`: the formulas behind gust, average speed
  and rain rate, and the rain gauge's per-tip rounding.
- `station.dfy`, module `Station`: the report datatypes and the class
  `Weather`. Its fields are the source's private fields. The field `report`
  stands for the nested dictionary. `Valid()` says that every report entry
  holds its field's value. `State()` gathers all mutable fields into one
  value, so that each method states its whole new state as an update of
  `old(State())`.
- `Station.RainWindowScenario` is not a model of the source. It is a client
  method checking that the contracts alone fix the results of two tips, a
  five-minute rate and the daily reset.
- `wrappers.dfy`, module `Wrappers`: an `Option` type for the lookup's
  "nothing found yet".

Modelling choices:

- Measurements are `real`. The source rounds with `float("{:.2f}".format(v))`.
  `Round2` stands in for that: it rounds half up to the nearest hundredth.
  Its contract says only that the result is a whole number of hundredths
  within 0.005 of the input.
- Clock readings are a parameter. The source reads the millisecond clock
  three times per pulse: `add_wind_speed_pulse` reads it first, `wind_gust`
  measures the interval up to a second reading, and stamps a third reading
  as the last pulse time. `add_wind_speed_pulse` then overwrites that stamp
  with the first reading. Here one `now` argument stands for all three, so
  the stored stamp is the same as in the source, while the gust interval
  ends at `now` rather than at the slightly later second reading.
- The unit strings are read once, in the constructor. Defaults are "F",
  "MPH" and "inches", as in the source. Only "C", "km/h" and "mm" select
  Celsius, km/h and millimetres. Every other string selects Fahrenheit, mph
  and inches.
- The report's direction entry holds the label "N" after construction.
  After `SetWindDirection` it holds an angle (`DirectionValue`).
- The source divides without a guard in three places. Each one becomes a
  precondition that the divisor is not zero:
  - the window length in `CalculateAvgWindSpeed` and `CalculateRainRate`;
  - the interval since the last pulse in `CalculateWindGust`, which
    `AddWindSpeedPulse` inherits as `now != lastWindSpeedPulse` once a pulse
    is on record.

  Two pulses in the same millisecond would raise `ZeroDivisionError` in the
  source.

Facts about the code that the model keeps:

- The code has no debounce. Every pulse is counted and re-evaluates the gust.
- The code has no direction or temperature sample accumulators. Each setter
  takes one reading.
- The daily reset and the gust reset are plain methods. Nothing schedules
  them.
- A window length of zero is the only failing case. A negative window gives
  a negative average.
- Rounding after every tip makes the rain count n × 0.28 mm or n × 0.01 inch
  after n tips from a two-decimal start (`TipsOnGrid`), not n × 0.2794 mm.
  In inches, ten tips from zero give 0.10 where ten exact increments round
  to 0.11 (`TenTipsInInches`).
- An unresolved reading is stored as "ERROR", and its published angle is 0.
  That is the same angle as "N" (`ErrorIsNorth`).
- The gust never decreases only while the stored gust is a whole number of
  hundredths. Every value the class itself stores is one. A value set
  directly through `set_wind_gust` need not be. A larger instantaneous speed
  can then round below it (`OffGridRoundsBelow`).

## Model

| member | source | states |
|---|---|---|
| `Units.TempUnitOf` | weather/weather.py:128 | Celsius exactly for the text "C"; every other text means Fahrenheit |
| `Units.SpeedUnitOf` | weather/weather.py:175 | km/h exactly for the text "km/h"; every other text means mph |
| `Units.RainUnitOf` | weather/weather.py:134 | millimetres exactly for the text "mm"; every other text means inches |
| `Units.Round2` | weather/weather.py:202-204 | the result is a whole number of hundredths, and lies in (x - 0.005, x + 0.005] |
| `Units.Round2Fixes` | weather/weather.py:202-204 | rounding a value that already has two decimals returns it unchanged, so rounding is idempotent |
| `Units.Round2Monotone` | weather/weather.py:202-204 | rounding preserves order |
| `Units.Round2Shift` | weather/weather.py:202-204 | adding a whole number of hundredths commutes with rounding |
| `Units.Round2AboveGrid` | weather/weather.py:154-155 | a speed above a two-decimal gust still rounds to at least that gust |
| `Units.OffGridRoundsBelow` | weather/weather.py:154-155 | without the two-decimal condition the rounded replacement can fall below the stored gust |
| `Units.CelsiusToFahrenheit` | weather/weather.py:210-212 | the result converts back to the input: (f - 32) / 1.8 = c |
| `Units.FreezingAndBoiling` | weather/weather.py:210-212 | 0 °C gives 32 °F and 100 °C gives 212 °F |
| `Units.CelsiusToFahrenheitIncreasing` | weather/weather.py:210-212 | the conversion is strictly increasing |
| `Units.MillimetresToInches` | weather/weather.py:214-216 | the result times 25.4 is the input |
| `Compass.RangesAscend` | weather/weather.py:14-31 | in a contiguous table every later range lies wholly above every earlier one |
| `Compass.RangesDisjoint` | weather/weather.py:14-31 | no reading lies in two ranges of a contiguous table |
| `Compass.FindRange` | weather/weather.py:14-31 | every reading between the first start and the last end lies in some range |
| `Compass.CoveredExactly` | weather/weather.py:14-31 | a reading lies in some range of a contiguous table if and only if it is between the first start and the last end |
| `Compass.WindDirTableShape` | weather/weather.py:14-31 | the calibration table has sixteen non-empty ranges, each starting where the previous ends, from 123 up to 3800 |
| `Compass.WindDirLabels` | weather/weather.py:14-49 | every label of the calibration table has an angle, and none is "ERROR" or empty |
| `Compass.ExactlyOneSector` | weather/weather.py:14-31 | every reading in [123, 3800) lies in exactly one sector, and every other reading in none |
| `Compass.WindAdcToDirection` | weather/weather.py:193-200 | "ERROR" exactly when the reading is outside [123, 3800); otherwise the label of the one sector containing the reading, which has an angle |
| `Compass.DirectionToAngle` | weather/weather.py:206-208 | the angle is a multiple of 22.5 in [0, 360); an unknown label gives 0 |
| `Compass.AnglesDistinct` | weather/weather.py:32-49 | different compass labels have different angles |
| `Compass.ErrorIsNorth` | weather/weather.py:200 | "ERROR" has no angle of its own and is published as 0, the angle of "N" |
| `Physics.SpeedDivisor` | weather/weather.py:173-177 | the divisor is 1.0 exactly for km/h, and at least 1 |
| `Physics.InstantSpeed` | weather/weather.py:162-164 | the instantaneous speed is positive exactly when the interval is positive |
| `Physics.InstantSpeedTimesInterval` | weather/weather.py:162-164 | speed times divisor times interval in seconds equals the anemometer constant 2.4 |
| `Physics.ShorterIntervalFaster` | weather/weather.py:162-164 | a shorter interval between pulses gives a higher instantaneous speed |
| `Physics.AvgSpeed` | weather/weather.py:169 | reference definition of the unrounded average that `CalculateAvgWindSpeed` is tied to: speed × divisor × window = 2.4 × pulses; its properties are the `AvgSpeed*` lemmas below |
| `Physics.AvgSpeedNoPulses` | weather/weather.py:167-171 | a window without pulses averages to 0 |
| `Physics.AvgSpeedProportional` | weather/weather.py:167-171 | for a fixed window the average is proportional to the pulse count |
| `Physics.EvenPulsesAverageIsInstant` | weather/weather.py:158-171 | evenly spaced pulses over the whole window average to the instantaneous speed of one interval |
| `Physics.TenPulsesInTenSeconds` | weather/weather.py:167-177 | ten pulses in ten seconds in mph publish as 1.49 |
| `Physics.RainRate` | weather/weather.py:180 | reference definition of the unrounded rate that `CalculateRainRate` is tied to: rate × window = depth × 3600; its properties are the `RainRate*` lemmas below |
| `Physics.RainRateHourlyWindow` | weather/weather.py:179-182 | over a one-hour window the rate equals the depth fallen |
| `Physics.RainRateScaleInvariant` | weather/weather.py:179-182 | scaling depth and window by the same factor leaves the rate unchanged |
| `Physics.RainIncrement` | weather/weather.py:133-140 | one tip adds 0.2794 in millimetres, and in inches the amount that is 0.2794 mm |
| `Physics.RoundedIncrement` | weather/weather.py:133-142 | the increment a tip adds once rounded: the two-decimal rounding of the exact increment (0.28 mm, 0.01 inch) |
| `Physics.AfterTip` | weather/weather.py:133-142 | one tip's new value: a two-decimal value within half a hundredth of the old value plus the exact increment |
| `Physics.AfterTips` | weather/weather.py:133-142 | n tips in a row: a two-decimal value once n > 0, at least 0.006 higher per tip |
| `Physics.TipIncreases` | weather/weather.py:133-142 | a tip always raises the rounded rain count |
| `Physics.TipOnGrid` | weather/weather.py:133-142 | from a two-decimal value a tip adds exactly 0.28 (mm) or 0.01 (inch) |
| `Physics.TipsOnGrid` | weather/weather.py:133-142 | n tips from a two-decimal value add exactly n × 0.28 mm or n × 0.01 inch |
| `Physics.TenTipsOnGrid` | weather/weather.py:133-142 | in inches ten tips from any two-decimal value add exactly 0.10, where 0.11 is due |
| `Physics.TenTipsInInches` | weather/weather.py:133-142 | in inches ten tips from zero count 0.10, while ten exact increments round to 0.11 |
| `Station.Weather.constructor` | weather/weather.py:54-78 | units read from the three strings with the source's defaults; every value 0, direction "N", the report mirroring them |
| `Station.Weather.SetRainCount` | weather/weather.py:86-88 | the field and the report's rain count become the value; nothing else changes |
| `Station.Weather.SetRainRate` | weather/weather.py:93-95 | the field and the report's rain rate become the value; nothing else changes |
| `Station.Weather.SetRainRateFactor` | weather/weather.py:100-101 | only the accumulator changes; no report entry changes |
| `Station.Weather.SetWindGust` | weather/weather.py:106-108 | the field and the report's gust become the value; nothing else changes |
| `Station.Weather.SetWindDirection` | weather/weather.py:113-115 | the field holds the sector label of the reading ("ERROR" outside [123, 3800)); the report holds that label's compass angle |
| `Station.Weather.SetWindSpeed` | weather/weather.py:120-122 | the field and the report's speed become the value; nothing else changes |
| `Station.Weather.SetTemperature` | weather/weather.py:127-131 | the reading, converted to Fahrenheit unless the unit is Celsius, rounded to two decimals, in the field and the report |
| `Station.Weather.IncrementRain` | weather/weather.py:133-142 | count and accumulator each grow by one rounded increment; the count strictly increases; the published rate is untouched |
| `Station.Weather.GetMphDivisor` | weather/weather.py:173-177 | 1.0 exactly for km/h, 1.6093 for every other unit |
| `Station.Weather.CalculateWindGust` | weather/weather.py:158-165 | 0 when no pulse is counted; otherwise a speed that times divisor and interval gives 2.4, positive for a positive interval |
| `Station.Weather.GustAfterPulse` | weather/weather.py:150-156 | the gust after a pulse: unchanged without an earlier pulse; otherwise the old gust or a two-decimal value, and never below a two-decimal old gust |
| `Station.Weather.WindGust` | weather/weather.py:150-156 | with no earlier pulse nothing changes; otherwise the gust is replaced by the rounded speed only when that speed is strictly greater, and the pulse time is updated; a two-decimal gust never decreases |
| `Station.Weather.AddWindSpeedPulse` | weather/weather.py:144-148 | pulse count up by exactly 1, last pulse time = now, gust re-evaluated and never decreasing; rain, accumulator, speed and temperature unchanged |
| `Station.Weather.CalculateAvgWindSpeed` | weather/weather.py:167-171 | returns the rounded 2.4·N/(divisor·T), 0 when N = 0; the pulse count becomes 0 and nothing else changes |
| `Station.Weather.CalculateRainRate` | weather/weather.py:179-182 | returns the rounded factor·3600/T; the accumulator becomes 0; the rain count and everything else are unchanged |
| `Station.Weather.ResetWindGust` | weather/weather.py:184-185 | the gust and its report entry become 0.0 |
| `Station.Weather.ResetDailyRainCount` | weather/weather.py:187-188 | the rain count and its report entry become 0.0; the accumulator is untouched |
| `Station.Weather.ResetRainRateFactor` | weather/weather.py:190-191 | the accumulator becomes 0.0; the rain count and the report are untouched |

## Left out

- main.py is not part of this model. It covers pin, ADC and one-wire setup,
  Wi-Fi and time-API synchronisation, reading the JSON configuration, and
  the timer and interrupt registration with its endless sleep loop. Its own
  direction and speed functions are stubs.
- The millisecond clock (`time.ticks_ms`, `time.ticks_diff`) is a `now`
  parameter. Tick wrap-around is not modelled.
- The exact IEEE float formatting of `two_decimals` is not modelled.
  `Round2` rounds exact reals half up to hundredths. Float representation
  error and Python's half-to-even rounding of the binary value are out of
  scope.
- `__repr__` renders the report as text and is not modelled.
- The getters are plain field reads (`GetRainCount` and the others) and
  carry no contract.
- The gust interval is measured to `now`, the time of the pulse. The source
  measures it to a second clock reading taken a moment later in `wind_gust`.
- Interrupt handlers and timers running concurrently are not modelled.
  Calls are sequential, as the class has no locking.
- The unit attributes are public and mutable in the source. Here they are
  fixed at construction, since nothing in the repository reassigns them.
- Python's dynamic typing is not modelled. The setters here take reals, and
  the whole-number angles (0, 45, 90, …) are reals here, not Python ints.
