/**
  The documents of the simulated Atmospheric Water Generator and the value
  validator of the sensor controller (Back/controller/sensorController.js).

  Units: water level, humidity and battery in percent, temperatures in degrees
  Celsius, TDS in ppm, all whole numbers; the flow rate, which the controller
  always rounds to two decimals, in hundredths of a litre per minute; times in
  milliseconds since the epoch.
 */
module Telemetry {
  import opened Opt

  /** The only device the simulator writes for. */
  const DeviceId := "SIM-AWG-01"

  datatype Trend = Increasing | Stable | Full

  /** One Sensor document. */
  datatype Reading = Reading(
    deviceId: string,
    waterLevel: int,
    humidity: int,
    temp: int,
    waterTemp: int,
    tds: int,
    flowRate: int,
    battery: int,
    trend: Trend,
    timestamp: int)

  /** The process-wide fallback values used when a generated value is rejected. */
  datatype LastGood = LastGood(
    waterLevel: int,
    humidity: int,
    temp: int,
    waterTemp: int,
    tds: int,
    flowRate: int,
    battery: int)

  /** The values the controller starts with; a flow of 0.5 is 50 hundredths. */
  const InitialLastGood := LastGood(0, 65, 25, 20, 50, 50, 80)

  /** One History document: the summary of a completed fill session. */
  datatype HistoryEntry = HistoryEntry(
    deviceId: string,
    date: int,
    startTime: int,
    endTime: int,
    totalWater: int,
    avgFlowRate: int,
    avgHumidity: int,
    avgTemp: int,
    avgTDS: int,
    fillDuration: int,
    totalReadings: nat)

  datatype AlertKind = WaterLevel | Humidity | WaterQuality | Battery

  datatype AlertLevel = Low | High | Critical | Success

  /** One Alert document. */
  datatype Alert = Alert(
    deviceId: string,
    kind: AlertKind,
    level: AlertLevel,
    message: string,
    value: int,
    isRead: bool,
    timestamp: int)

  /** The levels the Alert schema admits; `success` is not among them. */
  predicate SchemaLevel(level: AlertLevel) {
    level == Low || level == High || level == Critical
  }

  // The validation ranges, both bounds inclusive.
  const HumidityMin := 10
  const HumidityMax := 100
  const TempMin := -10
  const TempMax := 60
  const WaterTempMin := 0
  const WaterTempMax := 50
  const TdsMin := 0
  const TdsMax := 500
  const FlowMin := 0
  const FlowMax := 500
  const BatteryMin := 0
  const BatteryMax := 100

  /**
    `validate`: a candidate inside [min, max] is kept, anything else is
    replaced by the last good value.
   */
  function Validate(val: int, min: int, max: int, lastGood: int): (r: int)
    ensures min <= val <= max ==> r == val
    ensures !(min <= val <= max) ==> r == lastGood
    ensures min <= lastGood <= max ==> min <= r <= max
  {
    if val < min || val > max then lastGood else val
  }

  /** Validating twice against the same range changes nothing more. */
  lemma ValidateIdempotent(val: int, min: int, max: int, lastGood: int)
    ensures Validate(Validate(val, min, max, lastGood), min, max, lastGood) == Validate(val, min, max, lastGood)
  {
  }

  predicate LastGoodInRange(g: LastGood) {
    && 0 <= g.waterLevel <= 100
    && HumidityMin <= g.humidity <= HumidityMax
    && TempMin <= g.temp <= TempMax
    && WaterTempMin <= g.waterTemp <= WaterTempMax
    && TdsMin <= g.tds <= TdsMax
    && FlowMin <= g.flowRate <= FlowMax
    && BatteryMin <= g.battery <= BatteryMax
  }

  /** Every stored field lies inside its validation range and the level inside [0, 100]. */
  predicate ReadingInRange(r: Reading) {
    && 0 <= r.waterLevel <= 100
    && HumidityMin <= r.humidity <= HumidityMax
    && TempMin <= r.temp <= TempMax
    && WaterTempMin <= r.waterTemp <= WaterTempMax
    && TdsMin <= r.tds <= TdsMax
    && FlowMin <= r.flowRate <= FlowMax
    && BatteryMin <= r.battery <= BatteryMax
  }

  predicate AllInRange(rs: seq<Reading>) {
    forall i :: 0 <= i < |rs| ==> ReadingInRange(rs[i])
  }

  /** Readings in insertion order carry non-decreasing timestamps. */
  predicate Chronological(rs: seq<Reading>) {
    forall i, j :: 0 <= i < j < |rs| ==> rs[i].timestamp <= rs[j].timestamp
  }

  function Last<T>(s: seq<T>): T
    requires s != []
  {
    s[|s| - 1]
  }

  /**
    The `n` newest elements of a collection kept oldest first, newest first:
    what `find().sort({ timestamp: -1 }).limit(n)` returns.
   */
  function Newest<T>(s: seq<T>, n: nat): (r: seq<T>)
    ensures |r| == if n < |s| then n else |s|
    ensures forall i :: 0 <= i < |r| ==> r[i] == s[|s| - 1 - i]
    decreases n
  {
    if n == 0 || s == [] then [] else [Last(s)] + Newest(s[..|s| - 1], n - 1)
  }

  /**
    `parseInt(req.query.limit) || default`: a missing or unparsable limit
    (None) and a limit of 0 fall back to the default; MongoDB reads a negative
    limit as its absolute value.
   */
  function QueryLimit(raw: Option<int>, default: nat): (n: nat)
    ensures raw == None || raw == Some(0) ==> n == default
    ensures raw.Some? && raw.value != 0 ==> n > 0 && (n == raw.value || n == -raw.value)
  {
    match raw
    case None => default
    case Some(k) => if k == 0 then default else if k < 0 then -k else k
  }

  // One field of every reading, in the same order, for the means.

  function Flows(rs: seq<Reading>): (xs: seq<int>)
    ensures |xs| == |rs| && forall i :: 0 <= i < |rs| ==> xs[i] == rs[i].flowRate
  {
    seq(|rs|, i requires 0 <= i < |rs| => rs[i].flowRate)
  }

  function Humidities(rs: seq<Reading>): (xs: seq<int>)
    ensures |xs| == |rs| && forall i :: 0 <= i < |rs| ==> xs[i] == rs[i].humidity
  {
    seq(|rs|, i requires 0 <= i < |rs| => rs[i].humidity)
  }

  function Temps(rs: seq<Reading>): (xs: seq<int>)
    ensures |xs| == |rs| && forall i :: 0 <= i < |rs| ==> xs[i] == rs[i].temp
  {
    seq(|rs|, i requires 0 <= i < |rs| => rs[i].temp)
  }

  function TdsValues(rs: seq<Reading>): (xs: seq<int>)
    ensures |xs| == |rs| && forall i :: 0 <= i < |rs| ==> xs[i] == rs[i].tds
  {
    seq(|rs|, i requires 0 <= i < |rs| => rs[i].tds)
  }
}
