/**
 * The data logic of the pollutant bar chart (src/components/PollutantChart.tsx): the per-pollutant
 * threshold table, the bar colour step function, and the list of bars built from a station's
 * individual readings.
 */
module PollutantChart {
  import AqiLevels

  /** One row of the pollutant table: its key in the readings, display label, unit and five thresholds. */
  datatype PollutantInfo = PollutantInfo(key: string, labelText: string, unit: string, thresholds: seq<real>)

  /** The table, in its declaration order (the order `Object.entries` yields it in). */
  const POLLUTANT_INFO: seq<PollutantInfo> := [
    PollutantInfo("pm25", "PM2.5", "μg/m³", [12.0, 35.0, 55.0, 150.0, 250.0]),
    PollutantInfo("pm10", "PM10", "μg/m³", [54.0, 154.0, 254.0, 354.0, 424.0]),
    PollutantInfo("o3", "O₃", "ppb", [54.0, 70.0, 85.0, 105.0, 200.0]),
    PollutantInfo("no2", "NO₂", "ppb", [53.0, 100.0, 360.0, 649.0, 1249.0]),
    PollutantInfo("so2", "SO₂", "ppb", [35.0, 75.0, 185.0, 304.0, 604.0]),
    PollutantInfo("co", "CO", "ppm", [4.4, 9.4, 12.4, 15.4, 30.4])
  ]

  /** The six bar colours, from cleanest to worst. */
  const BAR_COLORS: seq<string> := ["#00e400", "#ffff00", "#ff7e00", "#ff0000", "#8f3f97", "#7e0023"]

  /**
   * `value <= thresholds[i]`. Reading past the end of the array gives `undefined`, and a
   * comparison with `undefined` is false.
   */
  predicate AtMost(value: real, thresholds: seq<real>, i: nat) {
    i < |thresholds| && value <= thresholds[i]
  }

  /** Five strictly ascending thresholds, as every table row has. */
  predicate Ascending(thresholds: seq<real>) {
    |thresholds| == 5 && forall i, j :: 0 <= i < j < 5 ==> thresholds[i] < thresholds[j]
  }

  /** Which of the six colours `getBarColor` picks: the first threshold the value does not exceed. */
  function BarColorIndex(value: real, thresholds: seq<real>): (k: nat)
    ensures k < |BAR_COLORS|
    ensures k < 5 ==> AtMost(value, thresholds, k)
    ensures forall i :: 0 <= i < k ==> !AtMost(value, thresholds, i)
  {
    if AtMost(value, thresholds, 0) then 0
    else if AtMost(value, thresholds, 1) then 1
    else if AtMost(value, thresholds, 2) then 2
    else if AtMost(value, thresholds, 3) then 3
    else if AtMost(value, thresholds, 4) then 4
    else 5
  }

  /** `getBarColor`: total over every value and every thresholds array. */
  function GetBarColor(value: real, thresholds: seq<real>): (c: string)
    ensures c in BAR_COLORS
    ensures c == "#00e400" <==> |thresholds| > 0 && value <= thresholds[0]
  {
    BAR_COLORS[BarColorIndex(value, thresholds)]
  }

  /** Every row of the table has five strictly ascending thresholds. */
  lemma TableThresholdsAscending()
    ensures forall i :: 0 <= i < |POLLUTANT_INFO| ==> Ascending(POLLUTANT_INFO[i].thresholds)
  {
  }

  /** With ascending thresholds, colour `k` is chosen exactly for values in `(thresholds[k-1], thresholds[k]]`. */
  lemma BarColorBands(value: real, thresholds: seq<real>)
    requires Ascending(thresholds)
    ensures BarColorIndex(value, thresholds) == 0 <==> value <= thresholds[0]
    ensures forall k :: 1 <= k < 5 ==>
      (BarColorIndex(value, thresholds) == k <==> thresholds[k - 1] < value <= thresholds[k])
    ensures BarColorIndex(value, thresholds) == 5 <==> value > thresholds[4]
    ensures GetBarColor(value, thresholds) == "#7e0023" <==> value > thresholds[4]
  {
  }

  /** Thresholds are inclusive: a value equal to `thresholds[k]` gets colour `k`, not `k + 1`. */
  lemma ThresholdsInclusive(thresholds: seq<real>, k: nat)
    requires Ascending(thresholds) && k < 5
    ensures BarColorIndex(thresholds[k], thresholds) == k
    ensures GetBarColor(thresholds[k], thresholds) == BAR_COLORS[k]
  {
    BarColorBands(thresholds[k], thresholds);
  }

  /** With ascending thresholds a larger value never gets a cleaner colour. */
  lemma BarColorMonotone(x: real, y: real, thresholds: seq<real>)
    requires Ascending(thresholds) && x <= y
    ensures BarColorIndex(x, thresholds) <= BarColorIndex(y, thresholds)
  {
    BarColorBands(x, thresholds);
    BarColorBands(y, thresholds);
  }

  /** The bar colours are the AQI band colours, in the same order. */
  lemma BarColorsAreBandColors()
    ensures |BAR_COLORS| == |AqiLevels.AQI_RANGES|
    ensures forall i :: 0 <= i < |BAR_COLORS| ==> BAR_COLORS[i] == AqiLevels.AQI_RANGES[i].color
  {
  }

  /** A station's individual readings: key to `v`; a key is present when `data[key]` is an object. */
  type Readings = map<string, real>

  /** One bar of the chart. */
  datatype ChartEntry = ChartEntry(name: string, value: real, unit: string, thresholds: seq<real>)

  /** The bar a table row gives for reading `v`: the row's label, unit and thresholds, and `v` as is. */
  function EntryFor(info: PollutantInfo, v: real): ChartEntry {
    ChartEntry(info.labelText, v, info.unit, info.thresholds)
  }

  /** The `map`/`filter(Boolean)` over table rows: one bar per row whose key has a reading. */
  function Entries(infos: seq<PollutantInfo>, data: Readings): (r: seq<ChartEntry>)
    ensures |r| <= |infos|
    ensures forall e :: e in r ==>
      exists i :: 0 <= i < |infos| && infos[i].key in data && e == EntryFor(infos[i], data[infos[i].key])
    ensures forall i :: 0 <= i < |infos| && infos[i].key in data ==> EntryFor(infos[i], data[infos[i].key]) in r
  {
    if |infos| == 0 then []
    else
      var rest := Entries(infos[1..], data);
      assert forall i :: 1 <= i < |infos| ==> infos[i] == infos[1..][i - 1];
      if infos[0].key in data then [EntryFor(infos[0], data[infos[0].key])] + rest else rest
  }

  /** `chartData` for a station's readings. */
  function ChartData(data: Readings): seq<ChartEntry> {
    Entries(POLLUTANT_INFO, data)
  }

  /** How many rows of `infos` have a reading. */
  function PresentCount(infos: seq<PollutantInfo>, data: Readings): nat {
    if |infos| == 0 then 0
    else (if infos[0].key in data then 1 else 0) + PresentCount(infos[1..], data)
  }

  /** There is one bar per row whose key has a reading. */
  lemma {:induction false} EntriesLength(infos: seq<PollutantInfo>, data: Readings)
    ensures |Entries(infos, data)| == PresentCount(infos, data)
  {
    if |infos| > 0 {
      EntriesLength(infos[1..], data);
    }
  }

  /** Position of the first row with this label. */
  function LabelPos(infos: seq<PollutantInfo>, name: string): nat {
    if |infos| == 0 || infos[0].labelText == name then 0 else 1 + LabelPos(infos[1..], name)
  }

  predicate DistinctLabels(infos: seq<PollutantInfo>) {
    forall i, j :: 0 <= i < j < |infos| ==> infos[i].labelText != infos[j].labelText
  }

  /** Bars come out in table order. */
  lemma {:induction false} EntriesInTableOrder(infos: seq<PollutantInfo>, data: Readings)
    requires DistinctLabels(infos)
    ensures forall j, k :: 0 <= j < k < |Entries(infos, data)| ==>
      LabelPos(infos, Entries(infos, data)[j].name) < LabelPos(infos, Entries(infos, data)[k].name)
  {
    if |infos| > 0 {
      var tail := infos[1..];
      var rest := Entries(tail, data);
      EntriesInTableOrder(tail, data);
      forall e | e in rest
        ensures e.name != infos[0].labelText
        ensures LabelPos(infos, e.name) == 1 + LabelPos(tail, e.name)
      {
        var i :| 0 <= i < |tail| && tail[i].key in data && e == EntryFor(tail[i], data[tail[i].key]);
        assert tail[i] == infos[i + 1];
      }
      var r := Entries(infos, data);
      if infos[0].key in data {
        assert r == [EntryFor(infos[0], data[infos[0].key])] + rest;
        forall j, k | 0 <= j < k < |r|
          ensures LabelPos(infos, r[j].name) < LabelPos(infos, r[k].name)
        {
          assert r[k] == rest[k - 1] && r[k] in rest;
          if j > 0 {
            assert r[j] == rest[j - 1] && r[j] in rest;
          }
        }
      } else {
        assert r == rest;
        forall j, k | 0 <= j < k < |r|
          ensures LabelPos(infos, r[j].name) < LabelPos(infos, r[k].name)
        {
          assert r[j] in rest && r[k] in rest;
        }
      }
    }
  }

  /** Readings under keys that are not in the table (weather keys `t`, `h`, `w`, `p`) never affect the bars. */
  lemma {:induction false} EntriesIgnoreOtherKeys(infos: seq<PollutantInfo>, data: Readings, other: Readings)
    requires forall i :: 0 <= i < |infos| ==>
      (infos[i].key in data <==> infos[i].key in other) &&
      (infos[i].key in data ==> data[infos[i].key] == other[infos[i].key])
    ensures Entries(infos, data) == Entries(infos, other)
  {
    if |infos| > 0 {
      assert forall i :: 1 <= i < |infos| ==> infos[i] == infos[1..][i - 1];
      EntriesIgnoreOtherKeys(infos[1..], data, other);
    }
  }

  /** The bars are in pollutant order pm25, pm10, o3, no2, so2, co; weather readings add nothing. */
  lemma ChartDataShape(data: Readings)
    ensures |ChartData(data)| == PresentCount(POLLUTANT_INFO, data)
    ensures forall j, k :: 0 <= j < k < |ChartData(data)| ==>
      LabelPos(POLLUTANT_INFO, ChartData(data)[j].name) < LabelPos(POLLUTANT_INFO, ChartData(data)[k].name)
    ensures ChartData(data) == ChartData(data - {"t", "h", "w", "p"})
  {
    EntriesLength(POLLUTANT_INFO, data);
    EntriesInTableOrder(POLLUTANT_INFO, data);
    EntriesIgnoreOtherKeys(POLLUTANT_INFO, data, data - {"t", "h", "w", "p"});
  }

  /** The "No pollutant data available" branch is taken exactly when none of the six keys has a reading. */
  lemma EmptyChartIff(data: Readings)
    ensures |ChartData(data)| == 0 <==>
      "pm25" !in data && "pm10" !in data && "o3" !in data && "no2" !in data && "so2" !in data && "co" !in data
  {
    if |ChartData(data)| == 0 {
      assert POLLUTANT_INFO[0].key !in data && POLLUTANT_INFO[1].key !in data && POLLUTANT_INFO[2].key !in data;
      assert POLLUTANT_INFO[3].key !in data && POLLUTANT_INFO[4].key !in data && POLLUTANT_INFO[5].key !in data;
    } else {
      var e := ChartData(data)[0];
      assert e in ChartData(data);
    }
  }
}
