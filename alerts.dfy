/**
  The alert evaluator (`checkAlerts`): fixed thresholds applied to one stored
  reading, giving at most one alert per concern in a fixed order.
 */
module Alerts {
  import opened Telemetry

  const FullMessage := "\U{2705} Bottle is FULL - Ready to drink!"
  const LevelCriticalMessage := "\U{274C} Water level critically low"
  const LevelLowMessage := "\U{26A0}\U{FE0F} Water level low"
  const LevelHighMessage := "\U{1F514} Water level almost full"
  const HumidityLowMessage := "\U{1F514} Low humidity affects production"
  const TdsMessage := "Water quality unsafe - High TDS"
  const BatteryCriticalMessage := "Battery critically low"
  const BatteryLowMessage := "Battery low - charge recommended"

  function NewAlert(r: Reading, kind: AlertKind, level: AlertLevel, message: string, value: int, now: int): Alert {
    Alert(r.deviceId, kind, level, message, value, false, now)
  }

  /** The water-level alert: the first of >= 100, <= 10, <= 20, >= 95 that holds. */
  function WaterLevelAlert(r: Reading, now: int): (alerts: seq<Alert>)
    ensures |alerts| <= 1
    ensures alerts != [] <==> r.waterLevel <= 20 || r.waterLevel >= 95
    ensures forall a :: a in alerts ==>
      && a.kind == WaterLevel && a.value == r.waterLevel && Fresh(a, r, now)
      && (a.level == Success <==> r.waterLevel >= 100)
      && (a.level == Critical <==> r.waterLevel <= 10)
      && (a.level == Low <==> 10 < r.waterLevel <= 20)
      && (a.level == High <==> 95 <= r.waterLevel < 100)
  {
    if r.waterLevel >= 100 then [NewAlert(r, WaterLevel, Success, FullMessage, r.waterLevel, now)]
    else if r.waterLevel <= 10 then [NewAlert(r, WaterLevel, Critical, LevelCriticalMessage, r.waterLevel, now)]
    else if r.waterLevel <= 20 then [NewAlert(r, WaterLevel, Low, LevelLowMessage, r.waterLevel, now)]
    else if r.waterLevel >= 95 then [NewAlert(r, WaterLevel, High, LevelHighMessage, r.waterLevel, now)]
    else []
  }

  function HumidityAlert(r: Reading, now: int): (alerts: seq<Alert>)
    ensures |alerts| <= 1
    ensures alerts != [] <==> r.humidity < 55
    ensures forall a :: a in alerts ==>
      a.kind == Humidity && a.level == Low && a.value == r.humidity && Fresh(a, r, now)
  {
    if r.humidity < 55 then [NewAlert(r, Humidity, Low, HumidityLowMessage, r.humidity, now)] else []
  }

  function TdsAlert(r: Reading, now: int): (alerts: seq<Alert>)
    ensures |alerts| <= 1
    ensures alerts != [] <==> r.tds > 100
    ensures forall a :: a in alerts ==>
      a.kind == WaterQuality && a.level == Critical && a.value == r.tds && Fresh(a, r, now)
  {
    if r.tds > 100 then [NewAlert(r, WaterQuality, Critical, TdsMessage, r.tds, now)] else []
  }

  function BatteryAlert(r: Reading, now: int): (alerts: seq<Alert>)
    ensures |alerts| <= 1
    ensures alerts != [] <==> r.battery <= 25
    ensures forall a :: a in alerts ==>
      && a.kind == Battery && a.value == r.battery && Fresh(a, r, now)
      && (a.level == Critical <==> r.battery <= 15)
      && (a.level == Low <==> 15 < r.battery <= 25)
  {
    if r.battery <= 15 then [NewAlert(r, Battery, Critical, BatteryCriticalMessage, r.battery, now)]
    else if r.battery <= 25 then [NewAlert(r, Battery, Low, BatteryLowMessage, r.battery, now)]
    else []
  }

  /** The message the evaluator attaches to each concern and level. */
  function MessageFor(kind: AlertKind, level: AlertLevel): string {
    match kind
    case WaterLevel =>
      (match level
       case Success => FullMessage
       case Critical => LevelCriticalMessage
       case Low => LevelLowMessage
       case _ => LevelHighMessage)
    case Humidity => HumidityLowMessage
    case WaterQuality => TdsMessage
    case Battery => if level == Critical then BatteryCriticalMessage else BatteryLowMessage
  }

  /**
    An alert of this tick: unread, for the reading's device, stamped now, and
    carrying the message of its concern and level.
   */
  predicate Fresh(a: Alert, r: Reading, now: int) {
    !a.isRead && a.timestamp == now && a.deviceId == r.deviceId && a.message == MessageFor(a.kind, a.level)
  }

  /** Position of each concern in the evaluator's output. */
  function Rank(kind: AlertKind): nat {
    match kind
    case WaterLevel => 0
    case Humidity => 1
    case WaterQuality => 2
    case Battery => 3
  }

  ghost predicate HasKind(alerts: seq<Alert>, kind: AlertKind) {
    exists a :: a in alerts && a.kind == kind
  }

  /** Every alert of `alerts` ranks strictly below every later one. */
  predicate RankOrdered(alerts: seq<Alert>) {
    forall i, j :: 0 <= i < j < |alerts| ==> Rank(alerts[i].kind) < Rank(alerts[j].kind)
  }

  /**
    `checkAlerts`: the batch of alerts one reading produces. Each concern is
    present exactly when its threshold is crossed, with the level the table
    gives it; all alerts are unread and stamped with the time of the tick.
   */
  function CheckAlerts(r: Reading, now: int): (alerts: seq<Alert>)
    ensures |alerts| <= 4
    ensures forall a :: a in alerts ==> Fresh(a, r, now)
    ensures HasKind(alerts, WaterLevel) <==> r.waterLevel <= 20 || r.waterLevel >= 95
    ensures forall a :: a in alerts && a.kind == WaterLevel ==>
      && a.value == r.waterLevel
      && (a.level == Success <==> r.waterLevel >= 100)
      && (a.level == Critical <==> r.waterLevel <= 10)
      && (a.level == Low <==> 10 < r.waterLevel <= 20)
      && (a.level == High <==> 95 <= r.waterLevel < 100)
    ensures HasKind(alerts, Humidity) <==> r.humidity < 55
    ensures forall a :: a in alerts && a.kind == Humidity ==> a.level == Low && a.value == r.humidity
    ensures HasKind(alerts, WaterQuality) <==> r.tds > 100
    ensures forall a :: a in alerts && a.kind == WaterQuality ==> a.level == Critical && a.value == r.tds
    ensures HasKind(alerts, Battery) <==> r.battery <= 25
    ensures forall a :: a in alerts && a.kind == Battery ==>
      && a.value == r.battery
      && (a.level == Critical <==> r.battery <= 15)
      && (a.level == Low <==> 15 < r.battery <= 25)
  {
    WaterLevelConcern(r, now);
    HumidityConcern(r, now);
    WaterQualityConcern(r, now);
    BatteryConcern(r, now);
    Batch(r, now)
  }

  /** The four evaluations, concatenated in the evaluator's order. */
  function Batch(r: Reading, now: int): seq<Alert> {
    WaterLevelAlert(r, now) + HumidityAlert(r, now) + TdsAlert(r, now) + BatteryAlert(r, now)
  }

  lemma InBatch(r: Reading, now: int)
    ensures forall a :: a in Batch(r, now) <==>
      a in WaterLevelAlert(r, now) || a in HumidityAlert(r, now) || a in TdsAlert(r, now) || a in BatteryAlert(r, now)
  {
  }

  lemma WaterLevelConcern(r: Reading, now: int)
    ensures forall a :: a in Batch(r, now) ==> Fresh(a, r, now)
    ensures HasKind(Batch(r, now), WaterLevel) <==> r.waterLevel <= 20 || r.waterLevel >= 95
    ensures forall a :: a in Batch(r, now) && a.kind == WaterLevel ==>
      && a.value == r.waterLevel
      && (a.level == Success <==> r.waterLevel >= 100)
      && (a.level == Critical <==> r.waterLevel <= 10)
      && (a.level == Low <==> 10 < r.waterLevel <= 20)
      && (a.level == High <==> 95 <= r.waterLevel < 100)
  {
    InBatch(r, now);
  }

  lemma HumidityConcern(r: Reading, now: int)
    ensures HasKind(Batch(r, now), Humidity) <==> r.humidity < 55
    ensures forall a :: a in Batch(r, now) && a.kind == Humidity ==> a.level == Low && a.value == r.humidity
  {
    InBatch(r, now);
  }

  lemma WaterQualityConcern(r: Reading, now: int)
    ensures HasKind(Batch(r, now), WaterQuality) <==> r.tds > 100
    ensures forall a :: a in Batch(r, now) && a.kind == WaterQuality ==> a.level == Critical && a.value == r.tds
  {
    InBatch(r, now);
  }

  lemma BatteryConcern(r: Reading, now: int)
    ensures HasKind(Batch(r, now), Battery) <==> r.battery <= 25
    ensures forall a :: a in Batch(r, now) && a.kind == Battery ==>
      && a.value == r.battery
      && (a.level == Critical <==> r.battery <= 15)
      && (a.level == Low <==> 15 < r.battery <= 25)
  {
    InBatch(r, now);
  }

  /**
    The batch lists water level, humidity, water quality and battery in that
    order, so it holds at most one alert per concern.
   */
  lemma CheckAlertsOrdered(r: Reading, now: int)
    ensures RankOrdered(CheckAlerts(r, now))
  {
    var w, h, t, b := WaterLevelAlert(r, now), HumidityAlert(r, now), TdsAlert(r, now), BatteryAlert(r, now);
    OrderedAppend(w, h, 0);
    OrderedAppend(w + h, t, 1);
    OrderedAppend(w + h + t, b, 2);
  }

  /** Appending at most one alert that ranks above everything so far keeps the order. */
  lemma OrderedAppend(a: seq<Alert>, b: seq<Alert>, bound: nat)
    requires RankOrdered(a) && |b| <= 1
    requires forall i :: 0 <= i < |a| ==> Rank(a[i].kind) <= bound
    requires forall i :: 0 <= i < |b| ==> Rank(b[i].kind) > bound
    ensures RankOrdered(a + b)
    ensures forall i :: 0 <= i < |a + b| ==> Rank((a + b)[i].kind) <= bound || (b != [] && (a + b)[i] == b[0])
  {
  }

  /** A reading of a full bottle is the one that yields a `success` alert. */
  lemma FullReadingYieldsSuccess(r: Reading, now: int)
    requires r.waterLevel >= 100
    ensures exists i :: 0 <= i < |CheckAlerts(r, now)| && CheckAlerts(r, now)[i].level == Success
  {
    assert CheckAlerts(r, now)[0].kind == WaterLevel;
  }

  /** Below 100 percent every alert has a level the Alert schema accepts. */
  lemma BelowFullAlertsInSchema(r: Reading, now: int)
    requires r.waterLevel < 100
    ensures forall i :: 0 <= i < |CheckAlerts(r, now)| ==> SchemaLevel(CheckAlerts(r, now)[i].level)
  {
    var alerts := CheckAlerts(r, now);
    forall i | 0 <= i < |alerts| ensures SchemaLevel(alerts[i].level) {
      match alerts[i].kind
      case WaterLevel =>
      case Humidity =>
      case WaterQuality =>
      case Battery =>
    }
  }
}
