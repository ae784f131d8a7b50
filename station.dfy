/**
 * The weather station's live state: the counters fed by the anemometer and
 * the rain gauge, the values computed from them, and the nested report that
 * is published.
 */
module Station {

  import opened Units
  import opened Compass
  import opened Physics

  /** The report's wind direction: the label "N" at start-up, an angle once a reading was set. */
  datatype DirectionValue = DirLabel(text: string) | DirAngle(degrees: real)

  datatype RainReport = RainReport(count: real, rate: real)

  datatype WindReport = WindReport(direction: DirectionValue, speed: real, gust: real)

  /** The published report, with its "Rain", "Wind" and "Temperature" entries. */
  datatype Report = Report(rain: RainReport, wind: WindReport, temperature: real)

  /** Every mutable field of a station, as one value. */
  datatype Fields = Fields(
    rainCount: real,
    rainRate: real,
    rainRateFactor: real,
    windDirection: string,
    windSpeed: real,
    windSpeedPulses: nat,
    maxWindGust: real,
    lastWindSpeedPulse: int,
    temperature: real,
    report: Report)

  class Weather {
    const tempUnit: TempUnit
    const speedUnit: SpeedUnit
    const rainUnit: RainUnit

    var rainCount: real
    var rainRate: real
    /** Rain fallen since the last rate computation. */
    var rainRateFactor: real
    var windDirection: string
    var windSpeed: real
    /** Anemometer pulses since the last average. */
    var windSpeedPulses: nat
    var maxWindGust: real
    /** Millisecond time of the last anemometer pulse; 0 means none yet. */
    var lastWindSpeedPulse: int
    var temperature: real
    /** The published report, mirroring the fields above. */
    var report: Report

    ghost function State(): Fields
      reads this
    {
      Fields(rainCount, rainRate, rainRateFactor, windDirection, windSpeed,
             windSpeedPulses, maxWindGust, lastWindSpeedPulse, temperature, report)
    }

    /** Each report entry holds its field's value (the direction entry: the label or its angle). */
    ghost predicate Valid()
      reads this
    {
      && report.rain.count == rainCount
      && report.rain.rate == rainRate
      && report.wind.speed == windSpeed
      && report.wind.gust == maxWindGust
      && report.temperature == temperature
      && (report.wind.direction == DirLabel(windDirection)
          || report.wind.direction == DirAngle(DirectionToAngle(windDirection)))
    }

    /** The stored gust is a two-decimal value, as every gust the station itself stores is. */
    ghost predicate GustOnGrid()
      reads this
    {
      OnGrid(maxWindGust)
    }

    constructor (tempUnits: string := "F", speedUnits: string := "MPH", rainUnits: string := "inches")
      ensures tempUnit == TempUnitOf(tempUnits)
      ensures speedUnit == SpeedUnitOf(speedUnits)
      ensures rainUnit == RainUnitOf(rainUnits)
      ensures tempUnit == Celsius <==> tempUnits == "C"
      ensures speedUnit == KilometresPerHour <==> speedUnits == "km/h"
      ensures rainUnit == Millimetres <==> rainUnits == "mm"
      ensures Valid() && GustOnGrid()
      ensures State() == Fields(0.0, 0.0, 0.0, "N", 0.0, 0, 0.0, 0, 0.0,
                                Report(RainReport(0.0, 0.0), WindReport(DirLabel("N"), 0.0, 0.0), 0.0))
    {
      tempUnit := TempUnitOf(tempUnits);
      speedUnit := SpeedUnitOf(speedUnits);
      rainUnit := RainUnitOf(rainUnits);
      rainCount := 0.0;
      rainRate := 0.0;
      rainRateFactor := 0.0;
      windDirection := "N";
      windSpeed := 0.0;
      windSpeedPulses := 0;
      maxWindGust := 0.0;
      lastWindSpeedPulse := 0;
      temperature := 0.0;
      report := Report(RainReport(0.0, 0.0), WindReport(DirLabel("N"), 0.0, 0.0), 0.0);
      new;
      assert OnGrid(0.0) by { FloorUnique(0.0, 0); }
    }

    function GetRainCount(): real reads this { rainCount }
    function GetRainRate(): real reads this { rainRate }
    function GetRainRateFactor(): real reads this { rainRateFactor }
    function GetWindGust(): real reads this { maxWindGust }
    function GetWindDirection(): string reads this { windDirection }
    function GetWindSpeed(): real reads this { windSpeed }
    function GetTemperature(): real reads this { temperature }

    method SetRainCount(val: real)
      requires Valid()
      modifies this
      ensures Valid()
      ensures rainCount == val && report.rain.count == val
      ensures State() == old(State()).(rainCount := val,
                                       report := old(report).(rain := old(report).rain.(count := val)))
    {
      rainCount := val;
      report := report.(rain := report.rain.(count := rainCount));
    }

    method SetRainRate(val: real)
      requires Valid()
      modifies this
      ensures Valid()
      ensures rainRate == val && report.rain.rate == val
      ensures State() == old(State()).(rainRate := val,
                                       report := old(report).(rain := old(report).rain.(rate := val)))
    {
      rainRate := val;
      report := report.(rain := report.rain.(rate := rainRate));
    }

    /** The rate accumulator is not published: no report entry changes. */
    method SetRainRateFactor(val: real)
      requires Valid()
      modifies this
      ensures Valid()
      ensures rainRateFactor == val && report == old(report)
      ensures State() == old(State()).(rainRateFactor := val)
    {
      rainRateFactor := val;
    }

    method SetWindGust(val: real)
      requires Valid()
      modifies this
      ensures Valid()
      ensures maxWindGust == val && report.wind.gust == val
      ensures State() == old(State()).(maxWindGust := val,
                                       report := old(report).(wind := old(report).wind.(gust := val)))
    {
      maxWindGust := val;
      report := report.(wind := report.wind.(gust := maxWindGust));
    }

    /**
     * Resolves a raw vane reading: the field keeps the sector's label (or
     * "ERROR"), the report keeps the label's angle (0 for "ERROR").
     */
    method SetWindDirection(adcVal: int)
      requires Valid()
      modifies this
      ensures Valid()
      ensures windDirection == ErrorLabel <==> !(MinReading <= adcVal < EndReading)
      ensures forall i :: 0 <= i < |WindDirTable| && WindDirTable[i].readings.Contains(adcVal) ==>
                WindDirTable[i].name == windDirection
      ensures report.wind.direction == DirAngle(DirectionToAngle(windDirection))
      ensures IsCompassAngle(DirectionToAngle(windDirection))
      ensures windDirection == ErrorLabel ==> DirectionToAngle(windDirection) == 0.0
      ensures State() == old(State()).(windDirection := windDirection,
                                       report := old(report).(wind := old(report).wind.(
                                         direction := DirAngle(DirectionToAngle(windDirection)))))
    {
      windDirection := WindAdcToDirection(adcVal);
      report := report.(wind := report.wind.(direction := DirAngle(DirectionToAngle(windDirection))));
    }

    method SetWindSpeed(val: real)
      requires Valid()
      modifies this
      ensures Valid()
      ensures windSpeed == val && report.wind.speed == val
      ensures State() == old(State()).(windSpeed := val,
                                       report := old(report).(wind := old(report).wind.(speed := val)))
    {
      windSpeed := val;
      report := report.(wind := report.wind.(speed := windSpeed));
    }

    /**
     * Stores a Celsius reading in the display unit: converted to Fahrenheit
     * unless the unit is Celsius, then rounded to two decimals.
     */
    method SetTemperature(val: real)
      requires Valid()
      modifies this
      ensures Valid()
      ensures var shown := if tempUnit == Celsius then val else CelsiusToFahrenheit(val);
              temperature == Round2(shown) && shown - 0.005 < temperature <= shown + 0.005
      ensures report.temperature == temperature
      ensures State() == old(State()).(temperature := temperature,
                                       report := old(report).(temperature := temperature))
    {
      var v := val;
      if tempUnit != Celsius {
        v := CelsiusToFahrenheit(v);
      }
      temperature := Round2(v);
      report := report.(temperature := temperature);
    }

    /**
     * One tip of the rain bucket: the rain count and the rate accumulator
     * each grow by one increment and are rounded. The rain count never falls,
     * and the published rate is left alone.
     */
    method IncrementRain()
      requires Valid()
      modifies this
      ensures Valid()
      ensures rainCount == AfterTip(old(rainCount), rainUnit)
      ensures rainRateFactor == AfterTip(old(rainRateFactor), rainUnit)
      ensures rainCount > old(rainCount) && rainRateFactor > old(rainRateFactor)
      ensures OnGrid(old(rainCount)) ==> rainCount == old(rainCount) + RoundedIncrement(rainUnit)
      ensures report.rain.rate == old(report.rain.rate)
      ensures State() == old(State()).(rainCount := rainCount, rainRateFactor := rainRateFactor,
                                       report := old(report).(rain := old(report).rain.(count := rainCount)))
    {
      var count, rate;
      if rainUnit == Millimetres {
        count := GetRainCount() + RainCountConstant;
        rate := GetRainRateFactor() + RainCountConstant;
      } else {
        var step := MillimetresToInches(RainCountConstant);
        count := GetRainCount() + step;
        rate := GetRainRateFactor() + step;
      }
      SetRainCount(Round2(count));
      SetRainRateFactor(Round2(rate));
      TipIncreases(old(rainCount), rainUnit);
      TipIncreases(old(rainRateFactor), rainUnit);
      if OnGrid(old(rainCount)) {
        TipOnGrid(old(rainCount), rainUnit);
      }
    }

    /** The divisor from km/h to the configured speed unit. */
    function GetMphDivisor(): (d: real)
      ensures d == 1.0 <==> speedUnit == KilometresPerHour
      ensures d == 1.6093 <==> speedUnit != KilometresPerHour
    {
      SpeedDivisor(speedUnit)
    }

    /**
     * The gust implied by an interval of deltaMs milliseconds since the last
     * pulse: none while no pulse was counted in the window.
     */
    function CalculateWindGust(deltaMs: int): (gust: real)
      reads this
      requires windSpeedPulses != 0 ==> deltaMs != 0
      ensures windSpeedPulses == 0 ==> gust == 0.0
      ensures windSpeedPulses != 0 && deltaMs > 0 ==> gust > 0.0
      ensures windSpeedPulses != 0 ==> gust * GetMphDivisor() * (deltaMs as real / 1000.0) == AnemometerConstant
    {
      if windSpeedPulses == 0 then 0.0
      else
        var g := InstantSpeed(GetMphDivisor(), deltaMs);
        InstantSpeedTimesInterval(GetMphDivisor(), deltaMs);
        g
    }

    /** The gust after a pulse at time now: the larger of the stored gust and the new rounded speed. */
    ghost function GustAfterPulse(now: int): (gust: real)
      reads this
      requires lastWindSpeedPulse != 0 && windSpeedPulses != 0 ==> now != lastWindSpeedPulse
      ensures lastWindSpeedPulse == 0 ==> gust == maxWindGust
      ensures gust == maxWindGust || OnGrid(gust)
      ensures OnGrid(maxWindGust) ==> OnGrid(gust) && gust >= maxWindGust
    {
      if lastWindSpeedPulse == 0 then maxWindGust
      else
        var g := CalculateWindGust(now - lastWindSpeedPulse);
        if g > maxWindGust then
          (if OnGrid(maxWindGust) then Round2AboveGrid(g, maxWindGust); Round2(g) else Round2(g))
        else maxWindGust
    }

    /**
     * Re-evaluates the gust at time now, once an earlier pulse is on record;
     * the gust is replaced only by a strictly greater speed.
     */
    method WindGust(now: int)
      requires Valid()
      requires lastWindSpeedPulse != 0 && windSpeedPulses != 0 ==> now != lastWindSpeedPulse
      modifies this
      ensures Valid()
      ensures old(GustOnGrid()) ==> GustOnGrid() && maxWindGust >= old(maxWindGust)
      ensures maxWindGust == old(GustAfterPulse(now))
      ensures State() == old(State()).(
                maxWindGust := maxWindGust,
                lastWindSpeedPulse := if old(lastWindSpeedPulse) == 0 then 0 else now,
                report := old(report).(wind := old(report).wind.(gust := maxWindGust)))
    {
      if lastWindSpeedPulse != 0 {
        var deltaWindTicks := now - lastWindSpeedPulse;
        var currentGust := CalculateWindGust(deltaWindTicks);
        if currentGust > maxWindGust {
          if OnGrid(maxWindGust) {
            Round2AboveGrid(currentGust, maxWindGust);
          }
          SetWindGust(Round2(currentGust));
        }
        lastWindSpeedPulse := now;
      }
    }

    /**
     * One anemometer pulse at time now: one more pulse in the window, the
     * gust re-evaluated, and now recorded as the last pulse. Rain, speed,
     * direction and temperature are untouched.
     */
    method AddWindSpeedPulse(now: int)
      requires Valid()
      requires lastWindSpeedPulse != 0 ==> now != lastWindSpeedPulse
      modifies this
      ensures Valid()
      ensures windSpeedPulses == old(windSpeedPulses) + 1
      ensures lastWindSpeedPulse == now
      ensures rainCount == old(rainCount) && rainRateFactor == old(rainRateFactor)
      ensures windSpeed == old(windSpeed) && temperature == old(temperature)
      ensures old(GustOnGrid()) ==> GustOnGrid() && maxWindGust >= old(maxWindGust)
      ensures old(lastWindSpeedPulse) == 0 ==> maxWindGust == old(maxWindGust)
      ensures old(lastWindSpeedPulse) != 0 ==>
                var g := InstantSpeed(GetMphDivisor(), now - old(lastWindSpeedPulse));
                maxWindGust == (if g > old(maxWindGust) then Round2(g) else old(maxWindGust))
      ensures State() == old(State()).(
                windSpeedPulses := old(windSpeedPulses) + 1,
                maxWindGust := maxWindGust,
                lastWindSpeedPulse := now,
                report := old(report).(wind := old(report).wind.(gust := maxWindGust)))
    {
      windSpeedPulses := windSpeedPulses + 1;
      WindGust(now);
      lastWindSpeedPulse := now;
    }

    /**
     * The average wind speed over a window of deltaTime seconds, rounded;
     * the pulse count starts again from zero.
     */
    method CalculateAvgWindSpeed(deltaTime: real) returns (speed: real)
      requires Valid()
      requires deltaTime != 0.0
      modifies this
      ensures Valid()
      ensures speed == Round2(AvgSpeed(GetMphDivisor(), old(windSpeedPulses), deltaTime))
      ensures old(windSpeedPulses) == 0 ==> speed == 0.0
      ensures windSpeedPulses == 0
      ensures State() == old(State()).(windSpeedPulses := 0)
    {
      var mphConversionDivisor := GetMphDivisor();
      var avgWindSpd := AnemometerConstant * windSpeedPulses as real / (mphConversionDivisor * deltaTime);
      windSpeedPulses := 0;
      speed := Round2(avgWindSpd);
      if old(windSpeedPulses) == 0 {
        Round2Fixes(0.0);
      }
    }

    /**
     * The rain rate over the window of timeSinceLastUpdate seconds,
     * normalised to one hour and rounded; the accumulator starts again from
     * zero and the rain count is untouched.
     */
    method CalculateRainRate(timeSinceLastUpdate: real) returns (rate: real)
      requires Valid()
      requires timeSinceLastUpdate != 0.0
      modifies this
      ensures Valid()
      ensures rate == Round2(RainRate(old(rainRateFactor), timeSinceLastUpdate))
      ensures rainRateFactor == 0.0 && rainCount == old(rainCount)
      ensures State() == old(State()).(rainRateFactor := 0.0)
    {
      var hourly := GetRainRateFactor() * (SecondsPerHour / timeSinceLastUpdate);
      assert hourly == RainRate(rainRateFactor, timeSinceLastUpdate);
      ResetRainRateFactor();
      rate := Round2(hourly);
    }

    method ResetWindGust()
      requires Valid()
      modifies this
      ensures Valid() && GustOnGrid()
      ensures maxWindGust == 0.0 && report.wind.gust == 0.0
      ensures State() == old(State()).(maxWindGust := 0.0,
                                       report := old(report).(wind := old(report).wind.(gust := 0.0)))
    {
      SetWindGust(0.0);
      assert OnGrid(0.0) by { FloorUnique(0.0, 0); }
    }

    /** Zeroes the rain count; the rate accumulator is untouched. */
    method ResetDailyRainCount()
      requires Valid()
      modifies this
      ensures Valid()
      ensures rainCount == 0.0 && report.rain.count == 0.0
      ensures rainRateFactor == old(rainRateFactor)
      ensures State() == old(State()).(rainCount := 0.0,
                                       report := old(report).(rain := old(report).rain.(count := 0.0)))
    {
      SetRainCount(0.0);
    }

    /** Zeroes the rate accumulator; the rain count is untouched. */
    method ResetRainRateFactor()
      requires Valid()
      modifies this
      ensures Valid()
      ensures rainRateFactor == 0.0 && rainCount == old(rainCount)
      ensures State() == old(State()).(rainRateFactor := 0.0)
    {
      SetRainRateFactor(0.0);
    }
  }

  /**
   * A client's view of one window in millimetre mode: two tips, a rate over
   * five minutes, and the daily reset, each determined by the contracts alone.
   */
  method RainWindowScenario()
  {
    var w := new Weather("C", "km/h", "mm");
    assert OnGrid(0.0) by { FloorUnique(0.0, 0); }
    w.IncrementRain();
    w.IncrementRain();
    assert w.rainCount == 0.56 && w.report.rain.count == 0.56;
    var rate := w.CalculateRainRate(300.0);
    assert rate == Round2(6.72) by { Round2Fixes(6.72) by { FloorUnique(672.0, 672); } }
    assert rate == 6.72 && w.rainRateFactor == 0.0 && w.rainCount == 0.56;
    w.ResetDailyRainCount();
    assert w.rainCount == 0.0 && w.report.rain.count == 0.0 && w.report.rain.rate == 0.0;
  }
}
