/**
 * The wind vane's calibration: which compass sector a raw ADC reading falls
 * in, and the angle of each sector.
 */
module Compass {

  import opened Wrappers

  /** The integers lo, lo + 1, ..., hi - 1 (a half-open range). */
  datatype AdcRange = AdcRange(lo: int, hi: int) {
    predicate Contains(v: int) { lo <= v < hi }
  }

  /** One row of the calibration table: a compass label and its ADC readings. */
  datatype Sector = Sector(name: string, readings: AdcRange)

  /** The label returned for a reading that lies in no sector. */
  const ErrorLabel: string := "ERROR"

  /** The calibration table, in the order in which it is searched. */
  const WindDirTable: seq<Sector> := [
    Sector("E/NE", AdcRange(123, 132)),
    Sector("E", AdcRange(132, 165)),
    Sector("S/SE", AdcRange(165, 242)),
    Sector("SE", AdcRange(242, 297)),
    Sector("E/SE", AdcRange(297, 397)),
    Sector("S", AdcRange(397, 709)),
    Sector("NE", AdcRange(709, 927)),
    Sector("N/NE", AdcRange(927, 1165)),
    Sector("W/SW", AdcRange(1165, 1458)),
    Sector("S/SW", AdcRange(1458, 1520)),
    Sector("SW", AdcRange(1520, 1695)),
    Sector("N/NW", AdcRange(1695, 2100)),
    Sector("N", AdcRange(2100, 2480)),
    Sector("W/NW", AdcRange(2480, 2863)),
    Sector("NW", AdcRange(2863, 3403)),
    Sector("W", AdcRange(3403, 3800))
  ]

  /** The lowest and the first reading past the highest reading the table resolves. */
  const MinReading: int := 123
  const EndReading: int := 3800

  /** Angle in degrees of each of the sixteen compass labels. */
  const WindAngleTable: map<string, real> := map[
    "N" := 0.0,
    "N/NE" := 22.5,
    "NE" := 45.0,
    "E/NE" := 67.5,
    "E" := 90.0,
    "E/SE" := 112.5,
    "SE" := 135.0,
    "S/SE" := 157.5,
    "S" := 180.0,
    "S/SW" := 202.5,
    "SW" := 225.0,
    "W/SW" := 247.5,
    "W" := 270.0,
    "W/NW" := 292.5,
    "NW" := 315.0,
    "N/NW" := 337.5
  ]

  /** Every range is non-empty and each one starts where the previous one ends. */
  predicate Contiguous(t: seq<Sector>)
  {
    && (forall i :: 0 <= i < |t| ==> t[i].readings.lo < t[i].readings.hi)
    && (forall i :: 0 <= i < |t| - 1 ==> t[i].readings.hi == t[i + 1].readings.lo)
  }

  /** A whole number of sixteenths of a turn, in [0, 360). */
  predicate IsCompassAngle(a: real)
  {
    0.0 <= a < 360.0 && (a / 22.5).Floor as real == a / 22.5
  }

  /** In a contiguous table a later range lies wholly above an earlier one. */
  lemma {:induction false} RangesAscend(t: seq<Sector>, i: int, j: int)
    requires Contiguous(t)
    requires 0 <= i < j < |t|
    ensures t[i].readings.hi <= t[j].readings.lo
  {
    if j > i + 1 {
      RangesAscend(t, i, j - 1);
    }
  }

  /** No reading lies in two ranges of a contiguous table. */
  lemma RangesDisjoint(t: seq<Sector>, i: int, j: int, v: int)
    requires Contiguous(t)
    requires 0 <= i < |t| && 0 <= j < |t|
    requires t[i].readings.Contains(v) && t[j].readings.Contains(v)
    ensures i == j
  {
    if i < j {
      RangesAscend(t, i, j);
    } else if j < i {
      RangesAscend(t, j, i);
    }
  }

  /** Every reading between the first range's start and the last range's end lies in some range. */
  lemma {:induction false} FindRange(t: seq<Sector>, v: int) returns (k: int)
    requires Contiguous(t) && |t| > 0
    requires t[0].readings.lo <= v < t[|t| - 1].readings.hi
    ensures 0 <= k < |t| && t[k].readings.Contains(v)
  {
    if v < t[0].readings.hi {
      k := 0;
    } else {
      var rest := t[1..];
      assert rest[0] == t[1];
      assert Contiguous(rest) by {
        forall i | 0 <= i < |rest| - 1
          ensures rest[i].readings.hi == rest[i + 1].readings.lo
        {
          assert rest[i] == t[i + 1] && rest[i + 1] == t[i + 2];
        }
      }
      var k' := FindRange(rest, v);
      k := k' + 1;
    }
  }

  /** A contiguous table covers exactly the readings from its first start to its last end. */
  lemma CoveredExactly(t: seq<Sector>, v: int)
    requires Contiguous(t) && |t| > 0
    ensures (exists i :: 0 <= i < |t| && t[i].readings.Contains(v))
            <==> t[0].readings.lo <= v < t[|t| - 1].readings.hi
  {
    if t[0].readings.lo <= v < t[|t| - 1].readings.hi {
      var k := FindRange(t, v);
    }
    forall i | 0 <= i < |t| && t[i].readings.Contains(v)
      ensures t[0].readings.lo <= v < t[|t| - 1].readings.hi
    {
      if i > 0 { RangesAscend(t, 0, i); }
      if i < |t| - 1 { RangesAscend(t, i, |t| - 1); }
    }
  }

  /** The calibration table is contiguous from 123 up to 3800. */
  lemma WindDirTableShape()
    ensures Contiguous(WindDirTable)
    ensures |WindDirTable| == 16
    ensures WindDirTable[0].readings.lo == MinReading
    ensures WindDirTable[|WindDirTable| - 1].readings.hi == EndReading
  {
  }

  /** The table's labels are the sixteen labels that have an angle, and "ERROR" is not one of them. */
  lemma WindDirLabels()
    ensures forall i :: 0 <= i < |WindDirTable| ==> WindDirTable[i].name in WindAngleTable
    ensures forall i :: 0 <= i < |WindDirTable| ==> WindDirTable[i].name != ErrorLabel
    ensures forall i :: 0 <= i < |WindDirTable| ==> WindDirTable[i].name != ""
  {
  }

  /**
   * Every reading in [123, 3800) lies in exactly one sector of the table,
   * and every other reading in none.
   */
  lemma ExactlyOneSector(v: int)
    ensures MinReading <= v < EndReading ==>
              exists i :: 0 <= i < |WindDirTable| && WindDirTable[i].readings.Contains(v)
    ensures forall i, j ::
              (0 <= i < |WindDirTable| && 0 <= j < |WindDirTable|
               && WindDirTable[i].readings.Contains(v) && WindDirTable[j].readings.Contains(v)) ==> i == j
    ensures !(MinReading <= v < EndReading) ==>
              forall i :: 0 <= i < |WindDirTable| ==> !WindDirTable[i].readings.Contains(v)
  {
    WindDirTableShape();
    CoveredExactly(WindDirTable, v);
    forall i, j | 0 <= i < |WindDirTable| && 0 <= j < |WindDirTable|
        && WindDirTable[i].readings.Contains(v) && WindDirTable[j].readings.Contains(v)
      ensures i == j
    {
      RangesDisjoint(WindDirTable, i, j, v);
    }
  }

  /**
   * The label of the sector the reading lies in, searching the table in
   * order and stopping at the first match; "ERROR" when there is none.
   */
  method WindAdcToDirection(adc: int) returns (dir: string)
    ensures dir == ErrorLabel <==> !(MinReading <= adc < EndReading)
    ensures dir != ErrorLabel ==>
              exists i :: 0 <= i < |WindDirTable| && WindDirTable[i].readings.Contains(adc)
                          && WindDirTable[i].name == dir
    ensures forall i :: 0 <= i < |WindDirTable| && WindDirTable[i].readings.Contains(adc) ==>
              WindDirTable[i].name == dir
    ensures dir != ErrorLabel ==> dir in WindAngleTable
  {
    var direction: Option<string> := None;
    var i := 0;
    while i < |WindDirTable|
      invariant 0 <= i <= |WindDirTable|
      invariant forall j :: 0 <= j < i ==> !WindDirTable[j].readings.Contains(adc)
      invariant direction == None
                || (i < |WindDirTable| && WindDirTable[i].readings.Contains(adc)
                    && direction == Some(WindDirTable[i].name))
    {
      if WindDirTable[i].readings.Contains(adc) {
        direction := Some(WindDirTable[i].name);
        break;
      }
      i := i + 1;
    }
    ExactlyOneSector(adc);
    WindDirLabels();
    dir := if direction.Some? && direction.value != "" then direction.value else ErrorLabel;
  }

  /** The angle of a compass label; any other label, "ERROR" included, gives 0. */
  function DirectionToAngle(dir: string): (angle: real)
    ensures IsCompassAngle(angle)
    ensures dir !in WindAngleTable ==> angle == 0.0
  {
    if dir in WindAngleTable then WindAngleTable[dir] else 0.0
  }

  /** Distinct labels have distinct angles, and "ERROR" has none. */
  lemma AnglesDistinct(a: string, b: string)
    requires a in WindAngleTable && b in WindAngleTable && a != b
    ensures DirectionToAngle(a) != DirectionToAngle(b)
  {
  }

  /** "ERROR" is not a compass dir, so it reads as due north. */
  lemma ErrorIsNorth()
    ensures ErrorLabel !in WindAngleTable
    ensures DirectionToAngle(ErrorLabel) == DirectionToAngle("N") == 0.0
  {
  }
}
