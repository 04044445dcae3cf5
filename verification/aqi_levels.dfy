/**
 * The six AQI severity bands and the classification of a reading into one of them
 * (src/types/index.ts). A reading is a JavaScript number; it is modelled as a `real`.
 */
module AqiLevels {
  import opened Wrappers

  datatype Level = Good | Moderate | UnhealthySensitive | Unhealthy | VeryUnhealthy | Hazardous

  /** One band: inclusive bounds plus its display metadata. */
  datatype AqiRange = AqiRange(
    min: int,
    max: int,
    level: Level,
    labelText: string,
    color: string,
    textColor: string,
    advice: string)

  /** The band table, in the order the classification scans it. */
  const AQI_RANGES: seq<AqiRange> := [
    AqiRange(0, 50, Good, "Good", "#00e400", "#000", "Air quality is satisfactory."),
    AqiRange(51, 100, Moderate, "Moderate", "#ffff00", "#000",
             "Acceptable; moderate health concern for sensitive people."),
    AqiRange(101, 150, UnhealthySensitive, "Unhealthy for Sensitive", "#ff7e00", "#000",
             "Sensitive groups may experience health effects."),
    AqiRange(151, 200, Unhealthy, "Unhealthy", "#ff0000", "#fff",
             "Everyone may begin to experience health effects."),
    AqiRange(201, 300, VeryUnhealthy, "Very Unhealthy", "#8f3f97", "#fff",
             "Health alert: everyone may experience serious effects."),
    AqiRange(301, 500, Hazardous, "Hazardous", "#7e0023", "#fff",
             "Health warning of emergency conditions.")
  ]

  /** The fallback band: the last entry of the table. */
  const HAZARDOUS: AqiRange := AQI_RANGES[|AQI_RANGES| - 1]

  /** Position of a level in the table, 0 for good up to 5 for hazardous. */
  function Severity(l: Level): nat {
    match l
    case Good => 0
    case Moderate => 1
    case UnhealthySensitive => 2
    case Unhealthy => 3
    case VeryUnhealthy => 4
    case Hazardous => 5
  }

  /** The band test of the scan: `aqi >= r.min && aqi <= r.max`. */
  predicate Contains(r: AqiRange, aqi: real) {
    r.min as real <= aqi <= r.max as real
  }

  /** Some band of the table contains the reading. */
  predicate Covered(aqi: real) {
    exists i :: 0 <= i < |AQI_RANGES| && Contains(AQI_RANGES[i], aqi)
  }

  /** Index of the first band of `ranges` that contains `aqi`, if any (`Array.prototype.find`). */
  function FirstMatch(ranges: seq<AqiRange>, aqi: real): (r: Option<nat>)
    ensures r.Some? ==> r.value < |ranges| && Contains(ranges[r.value], aqi)
    ensures r.Some? ==> forall j :: 0 <= j < r.value ==> !Contains(ranges[j], aqi)
    ensures r.None? <==> forall i :: 0 <= i < |ranges| ==> !Contains(ranges[i], aqi)
  {
    if |ranges| == 0 then None
    else if Contains(ranges[0], aqi) then Some(0)
    else match FirstMatch(ranges[1..], aqi)
      case None => None
      case Some(k) => Some(k + 1)
  }

  /** `getAQILevel`: the first band containing the reading, or the last band when none does. */
  function GetAQILevel(aqi: real): (r: AqiRange)
    ensures r in AQI_RANGES
    ensures Covered(aqi) ==> Contains(r, aqi)
    ensures !Covered(aqi) ==> r == HAZARDOUS
  {
    match FirstMatch(AQI_RANGES, aqi)
    case Some(i) => AQI_RANGES[i]
    case None => HAZARDOUS
  }

  /** `getAQIColor`: the colour of the band `getAQILevel` picks. */
  function GetAQIColor(aqi: real): (c: string)
    ensures c in {"#00e400", "#ffff00", "#ff7e00", "#ff0000", "#8f3f97", "#7e0023"}
  {
    GetAQILevel(aqi).color
  }

  /** The table is ascending and integer-contiguous from 0 to 500, with levels in severity order. */
  lemma RangesWellFormed()
    ensures |AQI_RANGES| == 6
    ensures AQI_RANGES[0].min == 0 && HAZARDOUS.max == 500
    ensures forall i :: 0 <= i < |AQI_RANGES| ==> AQI_RANGES[i].min < AQI_RANGES[i].max
    ensures forall i :: 0 <= i < |AQI_RANGES| - 1 ==> AQI_RANGES[i].max + 1 == AQI_RANGES[i + 1].min
    ensures forall i :: 0 <= i < |AQI_RANGES| ==> Severity(AQI_RANGES[i].level) == i
  {
  }

  /** Every band lies strictly below every later band. */
  lemma RangesAscending(i: int, j: int)
    requires 0 <= i < j < |AQI_RANGES|
    ensures AQI_RANGES[i].max < AQI_RANGES[j].min
  {
    RangesWellFormed();
    if j > i + 1 {
      RangesAscending(i, j - 1);
    }
  }

  /** No reading lies in two bands. */
  lemma BandsDisjoint(i: int, j: int, aqi: real)
    requires 0 <= i < |AQI_RANGES| && 0 <= j < |AQI_RANGES|
    requires Contains(AQI_RANGES[i], aqi) && Contains(AQI_RANGES[j], aqi)
    ensures i == j
  {
    if i < j {
      RangesAscending(i, j);
    } else if j < i {
      RangesAscending(j, i);
    }
  }

  /** The readings some band contains are exactly these six closed intervals. */
  lemma CoveredIff(aqi: real)
    ensures Covered(aqi) <==>
      || 0.0 <= aqi <= 50.0
      || 51.0 <= aqi <= 100.0
      || 101.0 <= aqi <= 150.0
      || 151.0 <= aqi <= 200.0
      || 201.0 <= aqi <= 300.0
      || 301.0 <= aqi <= 500.0
  {
    if 0.0 <= aqi <= 50.0 {
      assert Contains(AQI_RANGES[0], aqi);
    } else if 51.0 <= aqi <= 100.0 {
      assert Contains(AQI_RANGES[1], aqi);
    } else if 101.0 <= aqi <= 150.0 {
      assert Contains(AQI_RANGES[2], aqi);
    } else if 151.0 <= aqi <= 200.0 {
      assert Contains(AQI_RANGES[3], aqi);
    } else if 201.0 <= aqi <= 300.0 {
      assert Contains(AQI_RANGES[4], aqi);
    } else if 301.0 <= aqi <= 500.0 {
      assert Contains(AQI_RANGES[5], aqi);
    }
  }

  /** Every integer reading from 0 to 500 gets the one band that contains it. */
  lemma ClassifyIntegerReading(n: int)
    requires 0 <= n <= 500
    ensures Contains(GetAQILevel(n as real), n as real)
    ensures forall i :: 0 <= i < |AQI_RANGES| && Contains(AQI_RANGES[i], n as real) ==>
      AQI_RANGES[i] == GetAQILevel(n as real)
  {
    CoveredIff(n as real);
    var r := GetAQILevel(n as real);
    var k :| 0 <= k < |AQI_RANGES| && AQI_RANGES[k] == r;
    forall i | 0 <= i < |AQI_RANGES| && Contains(AQI_RANGES[i], n as real)
      ensures AQI_RANGES[i] == r
    {
      BandsDisjoint(i, k, n as real);
    }
  }

  /** A reading inside band `i` is classified as band `i`, whatever the rest of the table holds. */
  lemma ClassifyInBand(i: int, aqi: real)
    requires 0 <= i < |AQI_RANGES|
    requires Contains(AQI_RANGES[i], aqi)
    ensures GetAQILevel(aqi) == AQI_RANGES[i]
    ensures GetAQIColor(aqi) == AQI_RANGES[i].color
  {
    var r := GetAQILevel(aqi);
    var k :| 0 <= k < |AQI_RANGES| && AQI_RANGES[k] == r;
    BandsDisjoint(i, k, aqi);
  }

  /** Each band boundary belongs to the lower band; the next integer starts the next band. */
  lemma BoundariesExact()
    ensures GetAQILevel(0.0).level == Good
    ensures GetAQILevel(50.0).level == Good && GetAQILevel(51.0).level == Moderate
    ensures GetAQILevel(100.0).level == Moderate && GetAQILevel(101.0).level == UnhealthySensitive
    ensures GetAQILevel(150.0).level == UnhealthySensitive && GetAQILevel(151.0).level == Unhealthy
    ensures GetAQILevel(200.0).level == Unhealthy && GetAQILevel(201.0).level == VeryUnhealthy
    ensures GetAQILevel(300.0).level == VeryUnhealthy && GetAQILevel(301.0).level == Hazardous
    ensures GetAQILevel(500.0).level == Hazardous
  {
    ClassifyInBand(0, 0.0);
    ClassifyInBand(0, 50.0);
    ClassifyInBand(1, 51.0);
    ClassifyInBand(1, 100.0);
    ClassifyInBand(2, 101.0);
    ClassifyInBand(2, 150.0);
    ClassifyInBand(3, 151.0);
    ClassifyInBand(3, 200.0);
    ClassifyInBand(4, 201.0);
    ClassifyInBand(4, 300.0);
    ClassifyInBand(5, 301.0);
    ClassifyInBand(5, 500.0);
  }

  /**
   * Readings outside every band fall back to hazardous: negative readings, readings
   * above 500, and fractional readings in the gaps between bands alike.
   */
  lemma UncoveredIsHazardous(aqi: real)
    requires aqi < 0.0 || aqi > 500.0
          || 50.0 < aqi < 51.0 || 100.0 < aqi < 101.0 || 150.0 < aqi < 151.0
          || 200.0 < aqi < 201.0 || 300.0 < aqi < 301.0
    ensures GetAQILevel(aqi) == HAZARDOUS
    ensures GetAQILevel(aqi).level == Hazardous
  {
    CoveredIff(aqi);
  }

  /** Every reading from 301 upward, however large, is hazardous: the classification saturates. */
  lemma Saturation(aqi: real)
    requires aqi >= 301.0
    ensures GetAQILevel(aqi) == GetAQILevel(500.0) == HAZARDOUS
  {
    ClassifyInBand(5, 500.0);
    if aqi <= 500.0 {
      ClassifyInBand(5, aqi);
    } else {
      UncoveredIsHazardous(aqi);
    }
  }

  /** On readings inside the bands, a larger reading never gets a less severe band. */
  lemma MonotoneOnCovered(x: real, y: real)
    requires Covered(x) && Covered(y) && x <= y
    ensures Severity(GetAQILevel(x).level) <= Severity(GetAQILevel(y).level)
  {
    RangesWellFormed();
    var i :| 0 <= i < |AQI_RANGES| && AQI_RANGES[i] == GetAQILevel(x);
    var j :| 0 <= j < |AQI_RANGES| && AQI_RANGES[j] == GetAQILevel(y);
    if j < i {
      RangesAscending(j, i);
    }
  }

  /** The gaps break that order: 50.5 is rated hazardous while 51 is only moderate. */
  lemma GapBreaksMonotonicity()
    ensures Severity(GetAQILevel(50.5).level) > Severity(GetAQILevel(51.0).level)
  {
    UncoveredIsHazardous(50.5);
    ClassifyInBand(1, 51.0);
  }

  /** Two readings get the same colour exactly when they get the same band. */
  lemma ColorIdentifiesBand(x: real, y: real)
    ensures GetAQIColor(x) == GetAQIColor(y) <==> GetAQILevel(x) == GetAQILevel(y)
  {
  }
}
