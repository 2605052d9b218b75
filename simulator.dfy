/**
  The simulated sensor and its session state machine (`genData` and the
  request handlers over the same collections). The three database
  collections become sequence fields kept oldest first; `Math.random`
  becomes the `Draws` of a tick and `Date.now` the `now` parameter.
 */
module Simulator {
  import opened Opt
  import opened Telemetry
  import opened Smoothing
  import opened Rollover
  import opened Alerts

  /**
    The random values of one tick, after `Math.floor` or two-decimal rounding:
    `Math.floor(rand(a, b))` lies in a..b-1, and `rand(0.2, 1.0)` rounded to
    hundredths in 20..100.
   */
  datatype Draws = Draws(
    startLevel: int,
    increase: int,
    humidity: int,
    temp: int,
    waterTemp: int,
    tds: int,
    flowRate: int,
    battery: int)
  {
    predicate InRange() {
      && 1 <= startLevel <= 4
      && 1 <= increase <= 3
      && 50 <= humidity <= 84
      && 20 <= temp <= 34
      && 15 <= waterTemp <= 29
      && 20 <= tds <= 89
      && 20 <= flowRate <= 100
      && 40 <= battery <= 99
    }
  }

  /** The level a tick proposes: a cold start, or the newest level plus the increase. */
  function ProposedLevel(readings: seq<Reading>, d: Draws): int {
    if readings == [] then d.startLevel else Last(readings).waterLevel + d.increase
  }

  /** The tick that fills the bottle: a previous reading and a proposed level of 100 or more. */
  predicate IsRollover(readings: seq<Reading>, d: Draws) {
    readings != [] && ProposedLevel(readings, d) >= 100
  }

  /**
    The six scalar fields passed through `validate` against their ranges,
    falling back on the last good values; level, trend and time untouched.
   */
  function ValidateReading(c: Reading, g: LastGood): (r: Reading)
    ensures r.deviceId == c.deviceId && r.waterLevel == c.waterLevel
    ensures r.trend == c.trend && r.timestamp == c.timestamp
    ensures r.humidity == Validate(c.humidity, HumidityMin, HumidityMax, g.humidity)
    ensures r.temp == Validate(c.temp, TempMin, TempMax, g.temp)
    ensures r.waterTemp == Validate(c.waterTemp, WaterTempMin, WaterTempMax, g.waterTemp)
    ensures r.tds == Validate(c.tds, TdsMin, TdsMax, g.tds)
    ensures r.flowRate == Validate(c.flowRate, FlowMin, FlowMax, g.flowRate)
    ensures r.battery == Validate(c.battery, BatteryMin, BatteryMax, g.battery)
    ensures LastGoodInRange(g) && 0 <= c.waterLevel <= 100 ==> ReadingInRange(r)
    ensures ReadingInRange(c) ==> r == c
  {
    c.(humidity := Validate(c.humidity, HumidityMin, HumidityMax, g.humidity),
       temp := Validate(c.temp, TempMin, TempMax, g.temp),
       waterTemp := Validate(c.waterTemp, WaterTempMin, WaterTempMax, g.waterTemp),
       tds := Validate(c.tds, TdsMin, TdsMax, g.tds),
       flowRate := Validate(c.flowRate, FlowMin, FlowMax, g.flowRate),
       battery := Validate(c.battery, BatteryMin, BatteryMax, g.battery))
  }

  /** The final reading of a session: level 100, trend full, fresh draws validated. */
  function FullReading(g: LastGood, d: Draws, now: int): (r: Reading)
    ensures r.waterLevel == 100 && r.trend == Full && r.timestamp == now
    ensures LastGoodInRange(g) ==> ReadingInRange(r)
  {
    ValidateReading(Reading(DeviceId, 100, d.humidity, d.temp, d.waterTemp, d.tds, d.flowRate, d.battery, Full, now), g)
  }

  /** The reading a non-final tick proposes: draws, with three fields smoothed when possible. */
  function Candidate(readings: seq<Reading>, d: Draws, now: int): Reading {
    var s := Smooth(readings);
    var flow := if s.Some? then s.value.flowRate else d.flowRate;
    var humidity := if s.Some? then s.value.humidity else d.humidity;
    var temp := if s.Some? then s.value.temp else d.temp;
    Reading(DeviceId, ProposedLevel(readings, d), humidity, temp, d.waterTemp, d.tds, flow, d.battery, Increasing, now)
  }

  /**
    The reading a non-final tick stores. A cold start begins at 1..4; after
    that the level rises by 1..3 and stays below 100; every field is in range.
   */
  function GeneratedReading(readings: seq<Reading>, g: LastGood, d: Draws, now: int): (r: Reading)
    requires !IsRollover(readings, d)
    ensures r.trend == Increasing && r.timestamp == now && r.deviceId == DeviceId
    ensures readings == [] ==> r.waterLevel == d.startLevel
    ensures readings != [] ==> r.waterLevel == Last(readings).waterLevel + d.increase < 100
    ensures d.InRange() && readings != [] ==> Last(readings).waterLevel < r.waterLevel
    ensures d.InRange() && AllInRange(readings) && LastGoodInRange(g) ==> ReadingInRange(r)
  {
    ValidateReading(Candidate(readings, d, now), g)
  }

  /**
    In every state the simulator reaches, validation never falls back: the
    draws lie inside the ranges, and so do means over in-range readings.
   */
  lemma ValidationNeverFallsBack(readings: seq<Reading>, g: LastGood, d: Draws, now: int)
    requires d.InRange() && AllInRange(readings) && !IsRollover(readings, d)
    ensures GeneratedReading(readings, g, d, now) == Candidate(readings, d, now)
    ensures FullReading(g, d, now) == Reading(DeviceId, 100, d.humidity, d.temp, d.waterTemp, d.tds, d.flowRate, d.battery, Full, now)
  {
    SmoothedWithinRanges(readings);
  }

  /** The fallback snapshot after a non-final tick: the values just stored. */
  function LastGoodOf(r: Reading): LastGood {
    LastGood(r.waterLevel, r.humidity, r.temp, r.waterTemp, r.tds, r.flowRate, r.battery)
  }

  /**
    The summary written when a tick fills the bottle covers every reading of
    the session plus the final one, lasts a non-negative number of minutes,
    ends now, and has its averages inside the validation ranges.
   */
  lemma RolloverSummary(readings: seq<Reading>, g: LastGood, d: Draws, now: int)
    requires IsRollover(readings, d) && AllInRange(readings) && Chronological(readings)
    requires LastGoodInRange(g) && now >= Last(readings).timestamp
    ensures var all := readings + [FullReading(g, d, now)];
      && SessionSummary(all, now).Some?
      && var e := SessionSummary(all, now).value;
      && e.totalReadings == |readings| + 1 && e.totalWater == 100
      && e.startTime == readings[0].timestamp && e.endTime == now
      && e.fillDuration >= 0
      && FlowMin <= e.avgFlowRate <= FlowMax
      && HumidityMin <= e.avgHumidity <= HumidityMax
      && TempMin <= e.avgTemp <= TempMax
      && TdsMin <= e.avgTDS <= TdsMax
  {
    var all := readings + [FullReading(g, d, now)];
    assert AllInRange(all);
    assert Chronological(all);
    SummaryWithinRanges(all, now);
  }

  /**
    The alerts of a non-final tick never carry `success`, which the Alert
    schema would refuse, and with in-range draws never concern water quality
    or the battery: the stored TDS stays below 90 and the battery above 39.
   */
  lemma TickAlerts(readings: seq<Reading>, g: LastGood, d: Draws, now: int)
    requires d.InRange() && !IsRollover(readings, d) && AllInRange(readings)
    ensures var alerts := CheckAlerts(GeneratedReading(readings, g, d, now), now);
      && AllSchemaLevels(alerts)
      && !HasKind(alerts, WaterQuality) && !HasKind(alerts, Battery)
  {
    var r := GeneratedReading(readings, g, d, now);
    ValidationNeverFallsBack(readings, g, d, now);
    BelowFullAlertsInSchema(r, now);
  }

  predicate ClockAfter(readings: seq<Reading>, now: int) {
    readings == [] || Last(readings).timestamp <= now
  }

  /** Appending a reading stamped no earlier than the newest keeps the collection valid. */
  lemma AppendReading(rs: seq<Reading>, r: Reading)
    requires AllInRange(rs) && Chronological(rs) && ReadingInRange(r) && ClockAfter(rs, r.timestamp)
    ensures AllInRange(rs + [r]) && Chronological(rs + [r])
  {
  }

  predicate AllSchemaLevels(alerts: seq<Alert>) {
    forall i :: 0 <= i < |alerts| ==> SchemaLevel(alerts[i].level)
  }

  lemma AppendAlerts(alerts: seq<Alert>, batch: seq<Alert>)
    requires AllSchemaLevels(alerts) && AllSchemaLevels(batch)
    ensures AllSchemaLevels(alerts + batch)
  {
  }

  /** A non-filling tick keeps every part of the simulator's invariant. */
  lemma StoreKeepsInvariant(readings: seq<Reading>, g: LastGood, alerts: seq<Alert>, d: Draws, now: int)
    requires AllInRange(readings) && Chronological(readings) && LastGoodInRange(g) && AllSchemaLevels(alerts)
    requires d.InRange() && !IsRollover(readings, d) && ClockAfter(readings, now)
    ensures var r := GeneratedReading(readings, g, d, now);
      && AllInRange(readings + [r]) && Chronological(readings + [r])
      && LastGoodInRange(LastGoodOf(r))
      && AllSchemaLevels(alerts + CheckAlerts(r, now))
  {
    var r := GeneratedReading(readings, g, d, now);
    AppendReading(readings, r);
    BelowFullAlertsInSchema(r, now);
    AppendAlerts(alerts, CheckAlerts(r, now));
  }

  /** The answers `drinkWater` gives: 200 with the new level, 400, or 404. */
  datatype DrinkResponse = Drunk(newLevel: int) | InvalidLevel | NoSensorData

  class Sim {
    /** The Sensor collection of the current session, oldest first. */
    var readings: seq<Reading>
    /** The History collection, in insertion order. */
    var history: seq<HistoryEntry>
    /** The Alert collection, in insertion order. */
    var alerts: seq<Alert>
    /** The module-level `lastGoodValues`. */
    var lastGood: LastGood
    /** The module-level `sessionStart`; `null` is None. */
    var sessionStart: Option<int>

    /**
      Stored readings and fallback values lie in their ranges, readings are
      in time order, and every stored alert has a level the schema admits.
     */
    ghost predicate Valid()
      reads this
    {
      && AllInRange(readings)
      && Chronological(readings)
      && LastGoodInRange(lastGood)
      && AllSchemaLevels(alerts)
    }

    /**
      A process starting over the collections it finds in the database, with
      the initial fallback values and no session start recorded.
     */
    constructor (storedReadings: seq<Reading>, storedHistory: seq<HistoryEntry>, storedAlerts: seq<Alert>)
      requires AllInRange(storedReadings) && Chronological(storedReadings)
      requires AllSchemaLevels(storedAlerts)
      ensures Valid()
      ensures readings == storedReadings && history == storedHistory && alerts == storedAlerts
      ensures lastGood == InitialLastGood && sessionStart == None
    {
      readings := storedReadings;
      history := storedHistory;
      alerts := storedAlerts;
      lastGood := InitialLastGood;
      sessionStart := None;
    }

    /**
      `saveHistory`: appends the summary of the stored readings, or nothing
      when there are none.
     */
    method SaveHistory(now: int)
      modifies this`history
      ensures history == old(history) + (match SessionSummary(readings, now)
                                         case None => []
                                         case Some(e) => [e])
    {
      var all := readings;
      if |all| == 0 {
        return;
      }
      var entry := SessionSummary(all, now);
      history := history + [entry.value];
    }

    /**
      `genData`: one tick of the simulator at time `now` with the random
      values `d`. A tick that reaches 100 stores the full reading, writes one
      History entry for the session, empties the collection and forgets the
      session start, leaving alerts and fallback values alone; any other tick
      stores one new reading, makes it the fallback snapshot and appends the
      alerts it raises.
     */
    method Tick(now: int, d: Draws)
      requires Valid() && d.InRange() && ClockAfter(readings, now)
      modifies this
      ensures Valid()
      ensures old(IsRollover(readings, d)) ==>
        && readings == []
        && history == old(history) + [SessionSummary(old(readings) + [FullReading(lastGood, d, now)], now).value]
        && alerts == old(alerts) && lastGood == old(lastGood) && sessionStart == None
      ensures !old(IsRollover(readings, d)) ==>
        var r := GeneratedReading(old(readings), old(lastGood), d, now);
        && readings == old(readings) + [r]
        && lastGood == LastGoodOf(r)
        && alerts == old(alerts) + CheckAlerts(r, now)
        && history == old(history)
        && sessionStart == if old(readings) == [] then Some(now) else old(sessionStart)
    {
      if readings != [] {
        var prev := readings[|readings| - 1];
        if prev.waterLevel + d.increase >= 100 {
          FinishSession(now, d);
          return;
        }
      }
      StoreReading(now, d);
    }

    /**
      The filling tick: the full reading joins the session, the session is
      summarised into History and the Sensor collection is emptied.
     */
    method FinishSession(now: int, d: Draws)
      requires Valid() && IsRollover(readings, d) && ClockAfter(readings, now)
      modifies this
      ensures Valid()
      ensures readings == []
      ensures history == old(history) + [SessionSummary(old(readings) + [FullReading(lastGood, d, now)], now).value]
      ensures alerts == old(alerts) && lastGood == old(lastGood) && sessionStart == None
    {
      var sensor := FullReading(lastGood, d, now);
      readings := readings + [sensor];
      SaveHistory(now);
      readings := [];
      sessionStart := None;
    }

    /**
      Any other tick: the new reading is stored as the newest one and as the
      fallback snapshot, followed by the alerts it raises; a cold start also
      records the session start.
     */
    method StoreReading(now: int, d: Draws)
      requires Valid() && d.InRange() && !IsRollover(readings, d) && ClockAfter(readings, now)
      modifies this
      ensures Valid()
      ensures var r := GeneratedReading(old(readings), old(lastGood), d, now);
        && readings == old(readings) + [r]
        && lastGood == LastGoodOf(r)
        && alerts == old(alerts) + CheckAlerts(r, now)
        && history == old(history)
        && sessionStart == if old(readings) == [] then Some(now) else old(sessionStart)
    {
      ghost var r := GeneratedReading(readings, lastGood, d, now);
      StoreKeepsInvariant(readings, lastGood, alerts, d, now);
      if readings == [] {
        sessionStart := Some(now);
      }
      var data := NextReading(now, d);
      assert data == r;
      lastGood := LastGoodOf(data);
      readings := readings + [data];

      var batch := CheckAlerts(data, now);
      InsertAlerts(batch);
    }

    /** `Alert.insertMany` of a tick's batch, skipped when the batch is empty. */
    method InsertAlerts(batch: seq<Alert>)
      modifies this`alerts
      ensures alerts == old(alerts) + batch
    {
      if |batch| > 0 {
        alerts := alerts + batch;
      } else {
        assert alerts + batch == alerts;
      }
    }

    /**
      The reading a non-filling tick computes: the proposed level, the
      smoothed (or drawn) flow, humidity and temperature, and every value
      validated against its range with the last good value as fallback.
     */
    method NextReading(now: int, d: Draws) returns (data: Reading)
      requires !IsRollover(readings, d)
      ensures data == GeneratedReading(readings, lastGood, d, now)
    {
      var newLevel;
      if readings == [] {
        newLevel := d.startLevel;
      } else {
        newLevel := readings[|readings| - 1].waterLevel + d.increase;
      }

      var rawHumidity, rawTemp, rawFlowRate := d.humidity, d.temp, d.flowRate;
      var smoothed := Smooth(readings);
      if smoothed.Some? {
        rawFlowRate := smoothed.value.flowRate;
        rawHumidity := smoothed.value.humidity;
        rawTemp := smoothed.value.temp;
      }

      var validHumidity := Validate(rawHumidity, HumidityMin, HumidityMax, lastGood.humidity);
      var validTemp := Validate(rawTemp, TempMin, TempMax, lastGood.temp);
      var validWaterTemp := Validate(d.waterTemp, WaterTempMin, WaterTempMax, lastGood.waterTemp);
      var validTds := Validate(d.tds, TdsMin, TdsMax, lastGood.tds);
      var validFlowRate := Validate(rawFlowRate, FlowMin, FlowMax, lastGood.flowRate);
      var validBattery := Validate(d.battery, BatteryMin, BatteryMax, lastGood.battery);

      data := Reading(DeviceId, newLevel, validHumidity, validTemp, validWaterTemp, validTds,
                      validFlowRate, validBattery, Increasing, now);
    }

    /**
      `drinkWater`: a missing level or one outside 0..100 is refused (400)
      and a missing reading reported (404), both without change; otherwise
      only the newest reading's level and trend are overwritten, the trend
      becoming full at 100 and stable below.
     */
    method Drink(remainingLevel: Option<int>) returns (response: DrinkResponse)
      requires Valid()
      modifies this`readings
      ensures Valid()
      ensures remainingLevel.None? || remainingLevel.value < 0 || remainingLevel.value > 100 ==>
        response == InvalidLevel && readings == old(readings)
      ensures remainingLevel.Some? && 0 <= remainingLevel.value <= 100 && old(readings) == [] ==>
        response == NoSensorData && readings == old(readings)
      ensures remainingLevel.Some? && 0 <= remainingLevel.value <= 100 && old(readings) != [] ==>
        var level := remainingLevel.value;
        var n := |old(readings)|;
        && response == Drunk(level)
        && |readings| == n
        && readings[..n - 1] == old(readings)[..n - 1]
        && readings[n - 1] == old(readings)[n - 1].(waterLevel := level, trend := if level >= 100 then Full else Stable)
    {
      if remainingLevel.None? || remainingLevel.value < 0 || remainingLevel.value > 100 {
        return InvalidLevel;
      }
      if |readings| == 0 {
        return NoSensorData;
      }
      var level := remainingLevel.value;
      var latest := readings[|readings| - 1];
      latest := latest.(waterLevel := level, trend := if level >= 100 then Full else Stable);
      readings := readings[..|readings| - 1] + [latest];
      response := Drunk(level);
    }

    /** `markAlertsRead`: every alert becomes read; nothing else about them changes. */
    method MarkAlertsRead()
      requires Valid()
      modifies this`alerts
      ensures Valid()
      ensures |alerts| == |old(alerts)|
      ensures forall i :: 0 <= i < |alerts| ==> alerts[i] == old(alerts)[i].(isRead := true)
    {
      var current := alerts;
      alerts := seq(|current|, i requires 0 <= i < |current| => current[i].(isRead := true));
    }

    /** `getLatest`: the newest reading, if any, and at most five newest unread alerts. */
    method Latest() returns (sensor: Option<Reading>, unread: seq<Alert>)
      ensures sensor.None? <==> readings == []
      ensures sensor.Some? ==> sensor.value == Last(readings)
      ensures |unread| <= 5
      ensures forall i :: 0 <= i < |unread| ==> !unread[i].isRead && unread[i] in alerts
      ensures unread == Newest(Unread(alerts), 5)
    {
      sensor := if |readings| == 0 then None else Some(readings[|readings| - 1]);
      unread := Newest(Unread(alerts), 5);
    }

    /** `getReadings`: the newest readings, newest first, 50 unless a limit is given. */
    method GetReadings(limit: Option<int>) returns (page: seq<Reading>)
      ensures var n := QueryLimit(limit, 50);
        && |page| == (if n < |readings| then n else |readings|)
        && forall i :: 0 <= i < |page| ==> page[i] == readings[|readings| - 1 - i]
    {
      page := Newest(readings, QueryLimit(limit, 50));
    }

    /** `getHistory`: the newest session summaries, newest first, 20 unless a limit is given. */
    method GetHistory(limit: Option<int>) returns (page: seq<HistoryEntry>)
      ensures var n := QueryLimit(limit, 20);
        && |page| == (if n < |history| then n else |history|)
        && forall i :: 0 <= i < |page| ==> page[i] == history[|history| - 1 - i]
    {
      page := Newest(history, QueryLimit(limit, 20));
    }

    /** `getAlerts`: the 50 newest alerts, newest first. */
    method GetAlerts() returns (page: seq<Alert>)
      ensures |page| == if 50 < |alerts| then 50 else |alerts|
      ensures forall i :: 0 <= i < |page| ==> page[i] == alerts[|alerts| - 1 - i]
    {
      page := Newest(alerts, 50);
    }
  }

  /** The unread alerts, in their original order. */
  function Unread(alerts: seq<Alert>): (r: seq<Alert>)
    ensures |r| <= |alerts|
    ensures forall a :: a in r <==> a in alerts && !a.isRead
  {
    if alerts == [] then []
    else (if alerts[0].isRead then [] else [alerts[0]]) + Unread(alerts[1..])
  }

  /**
    Filtering distributes over concatenation: the unread alerts keep their
    insertion order, and each one appears as often as it was stored.
   */
  lemma {:induction false} UnreadAppend(a: seq<Alert>, b: seq<Alert>)
    ensures Unread(a + b) == Unread(a) + Unread(b)
  {
    if a != [] {
      assert (a + b)[1..] == a[1..] + b;
      UnreadAppend(a[1..], b);
    } else {
      assert a + b == b;
    }
  }
}
