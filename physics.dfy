/**
 * The station's physical formulas: wind speed from anemometer pulses, the
 * hourly rain rate, and the rain gauge's rounded accumulation.
 */
module Physics {

  import opened Units

  /** The divisor that turns km/h into the configured speed unit. */
  function SpeedDivisor(u: SpeedUnit): (d: real)
    ensures d == 1.0 <==> u == KilometresPerHour
    ensures d >= 1.0
  {
    if u == KilometresPerHour then 1.0 else MphDivisor
  }

  /**
   * Instantaneous wind speed implied by two pulses deltaMs milliseconds
   * apart. The source divides without a guard, so a zero interval is excluded.
   */
  function InstantSpeed(divisor: real, deltaMs: int): (speed: real)
    requires divisor > 0.0 && deltaMs != 0
    ensures speed > 0.0 <==> deltaMs > 0
  {
    AnemometerConstant / (divisor * (deltaMs as real / 1000.0))
  }

  /** Speed times interval is one pulse's worth: 2.4 km/h for one second. */
  lemma InstantSpeedTimesInterval(divisor: real, deltaMs: int)
    requires divisor > 0.0 && deltaMs != 0
    ensures InstantSpeed(divisor, deltaMs) * divisor * (deltaMs as real / 1000.0) == AnemometerConstant
  {
  }

  /** Closer pulses mean a faster wind: the speed is positive and falls as the interval grows. */
  lemma ShorterIntervalFaster(divisor: real, a: int, b: int)
    requires divisor > 0.0 && 0 < a <= b
    ensures InstantSpeed(divisor, a) >= InstantSpeed(divisor, b) > 0.0
  {
  }

  /** Average wind speed over a window of seconds in which pulses pulses arrived. */
  function AvgSpeed(divisor: real, pulses: nat, seconds: real): (speed: real)
    requires divisor > 0.0 && seconds != 0.0
    ensures speed * divisor * seconds == AnemometerConstant * pulses as real
  {
    AnemometerConstant * pulses as real / (divisor * seconds)
  }

  /** A window without pulses has no wind. */
  lemma AvgSpeedNoPulses(divisor: real, seconds: real)
    requires divisor > 0.0 && seconds != 0.0
    ensures AvgSpeed(divisor, 0, seconds) == 0.0
  {
  }

  /** For a fixed window the average is proportional to the number of pulses. */
  lemma AvgSpeedProportional(divisor: real, pulses: nat, seconds: real)
    requires divisor > 0.0 && seconds != 0.0
    ensures AvgSpeed(divisor, pulses, seconds) == pulses as real * AvgSpeed(divisor, 1, seconds)
  {
  }

  /**
   * Pulses arriving evenly every deltaMs milliseconds over the whole window
   * give an average equal to the instantaneous speed of one interval.
   */
  lemma EvenPulsesAverageIsInstant(divisor: real, pulses: nat, deltaMs: int)
    requires divisor > 0.0 && pulses > 0 && deltaMs > 0
    ensures AvgSpeed(divisor, pulses, pulses as real * (deltaMs as real / 1000.0))
            == InstantSpeed(divisor, deltaMs)
  {
  }

  /** Ten pulses in ten seconds, published in mph: 2.4 * 10 / (1.6093 * 10) rounds to 1.49. */
  lemma TenPulsesInTenSeconds()
    ensures Round2(AvgSpeed(SpeedDivisor(MilesPerHour), 10, 10.0)) == 1.49
  {
  }

  /** The rain rate, normalised to one hour, of depth fallen in a window of seconds. */
  function RainRate(depth: real, seconds: real): (rate: real)
    requires seconds != 0.0
    ensures rate * seconds == depth * SecondsPerHour
  {
    depth * (SecondsPerHour / seconds)
  }

  /** Over a one-hour window the rate is the depth itself. */
  lemma RainRateHourlyWindow(depth: real)
    ensures RainRate(depth, SecondsPerHour) == depth
  {
  }

  /** The rate depends only on depth per time: scaling both leaves it unchanged. */
  lemma RainRateScaleInvariant(depth: real, seconds: real, k: real)
    requires seconds != 0.0 && k > 0.0
    ensures RainRate(k * depth, k * seconds) == RainRate(depth, seconds)
  {
  }

  /** Depth added to the rain count and the rate accumulator for one bucket tip. */
  function RainIncrement(u: RainUnit): (step: real)
    ensures u == Millimetres ==> step == RainCountConstant
    ensures u == Inches ==> step * MillimetresPerInch == RainCountConstant
  {
    if u == Millimetres then RainCountConstant else MillimetresToInches(RainCountConstant)
  }

  /** The increment actually stored per tip once the sum is rounded: 0.28 mm or 0.01 inch. */
  function RoundedIncrement(u: RainUnit): (step: real)
    ensures step == Round2(RainIncrement(u))
  {
    var x := RainIncrement(u) * 100.0 + 0.5;
    if u == Millimetres then
      FloorUnique(x, 28);
      0.28
    else
      assert RainIncrement(u) == 0.011;
      FloorUnique(x, 1);
      0.01
  }

  /** One tip: the previous value plus the increment, rounded to two decimals. */
  function AfterTip(count: real, u: RainUnit): (next: real)
    ensures OnGrid(next)
    ensures count + RainIncrement(u) - 0.005 < next <= count + RainIncrement(u) + 0.005
  {
    Round2(count + RainIncrement(u))
  }

  /** The value after n tips in a row, starting from count. */
  function AfterTips(count: real, u: RainUnit, n: nat): (total: real)
    ensures n > 0 ==> OnGrid(total)
    ensures total >= count + n as real * 0.006
  {
    if n == 0 then count else AfterTip(AfterTips(count, u, n - 1), u)
  }

  /** A tip always raises the value, by at least one hundredth. */
  lemma TipIncreases(count: real, u: RainUnit)
    ensures AfterTip(count, u) > count
  {
  }

  /** From a two-decimal value a tip adds exactly the rounded increment. */
  lemma TipOnGrid(count: real, u: RainUnit)
    requires OnGrid(count)
    ensures AfterTip(count, u) == count + RoundedIncrement(u)
  {
    Round2Shift(count, RainIncrement(u));
    var x := RainIncrement(u) * 100.0 + 0.5;
    if u == Millimetres {
      FloorUnique(x, 28);
    } else {
      assert RainIncrement(u) == 0.011;
      FloorUnique(x, 1);
    }
  }

  /**
   * Rounding at every tip: n tips from a two-decimal value add exactly n
   * times the rounded increment (0.28 mm or 0.01 inch per tip), not n times
   * 0.2794 mm.
   */
  lemma {:induction false} TipsOnGrid(count: real, u: RainUnit, n: nat)
    requires OnGrid(count)
    ensures AfterTips(count, u, n) == count + n as real * RoundedIncrement(u)
    ensures OnGrid(AfterTips(count, u, n))
  {
    if n > 0 {
      TipsOnGrid(count, u, n - 1);
      TipOnGrid(AfterTips(count, u, n - 1), u);
    }
  }

  /**
   * The per-tip rounding loses rain in inches: ten tips from zero give a
   * count of 0.10 inch where ten times the exact increment rounds to 0.11.
   */
  lemma TenTipsInInches()
    ensures AfterTips(0.0, Inches, 10) == 0.1
    ensures Round2(10.0 * RainIncrement(Inches)) == 0.11
  {
    TenTipsOnGrid(0.0);
    assert RainIncrement(Inches) == 0.011;
    FloorUnique(10.0 * 0.011 * 100.0 + 0.5, 11);
  }

  /** Ten tips in inches from a two-decimal value add exactly 0.10. */
  lemma TenTipsOnGrid(count: real)
    requires OnGrid(count)
    ensures AfterTips(count, Inches, 10) == count + 0.1
  {
    TipsOnGrid(count, Inches, 10);
  }
}
