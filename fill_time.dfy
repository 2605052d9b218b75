/**
  The fill-time estimator (`fillTime`): a decision tree over the newest
  reading and the ten newest readings, computed on request.
 */
module FillTime {
  import opened Opt
  import opened Telemetry
  import opened Stats
  import opened Decimal

  datatype FillStatus = NoData | Full | NotFilling | Slow | Filling

  /**
    The JSON answer: message, minutes (or -1 / 0), status, and the optional
    suggestion, mean flow (hundredths) and production prediction.
   */
  datatype FillEstimate = FillEstimate(
    msg: string,
    time: int,
    status: FillStatus,
    suggestion: Option<string>,
    avgFlowRate: Option<int>,
    prediction: Option<string>)

  const NoDataMessage := "No data available"
  const FullMessage := "Bottle Full"
  const NotFillingMessage := "Not Filling / Very Low Production"
  const SlowMessage := "> 12 hrs (Try changing location)"
  const SlowSuggestion := "Low efficiency detected. Consider moving device to area with higher humidity."
  const StableMessage := "Production stable"

  /** Estimates above this many minutes (12 hours) are reported as slow. */
  const SlowMinutes := 720
  /** How many of the newest readings the trend and mean flow look at. */
  const RecentWindow := 10
  /** The trend compares the newest reading with the fifth newest. */
  const TrendSpan := 5

  /**
    `Math.floor(remaining / flowRate)` with the flow in hundredths: the whole
    minutes the remaining percentage takes at the current flow.
   */
  function MinutesToFull(level: int, flow: int): (m: nat)
    requires level < 100 && flow > 0
    ensures m * flow <= 100 * (100 - level) < (m + 1) * flow
  {
    (100 * (100 - level)) / flow
  }

  /** At a fixed flow, a fuller bottle never has a longer estimate. */
  lemma MinutesToFullMonotone(lower: int, higher: int, flow: int)
    requires lower <= higher < 100 && flow > 0
    ensures MinutesToFull(higher, flow) <= MinutesToFull(lower, flow)
  {
    var a, b := MinutesToFull(higher, flow), MinutesToFull(lower, flow);
    assert a * flow <= 100 * (100 - higher) <= 100 * (100 - lower) < (b + 1) * flow;
    MulCancelStrict(a, b + 1, flow);
  }

  /** "{h} hr {m} min", or "{m} min" under an hour. */
  function DurationText(mins: nat): (t: string)
    ensures |t| >= 5 && t[|t| - 4..] == " min"
    ensures mins < 60 ==> t == NatToString(mins) + " min"
    ensures mins >= 60 ==> t == NatToString(mins / 60) + " hr " + NatToString(mins % 60) + " min"
  {
    var hrs, m := mins / 60, mins % 60;
    if hrs > 0 then NatToString(hrs) + " hr " + NatToString(m) + " min" else NatToString(m) + " min"
  }

  datatype Outlook = Rising | Dropping | Steady

  /** The humidity trend classified with a dead band of five points either way. */
  function HumidityOutlook(trend: int): (o: Outlook)
    ensures o == Rising <==> trend > 5
    ensures o == Dropping <==> trend < -5
    ensures o == Steady <==> -5 <= trend <= 5
  {
    if trend > 5 then Rising else if trend < -5 then Dropping else Steady
  }

  function PredictionText(o: Outlook, latestHumidity: int): string {
    match o
    case Rising => "Production likely increasing (Humidity rising to " + IntToString(latestHumidity) + "%)"
    case Dropping => "Production may slow down (Humidity dropping to " + IntToString(latestHumidity) + "%)"
    case Steady => StableMessage
  }

  /**
    `fillTime` over the stored readings (oldest first). No reading: no data.
    A full bottle: zero minutes. No measurable flow: not filling. Otherwise
    the floored minutes to full, reported as slow above twelve hours and as
    filling (with a duration text) below; with at least five readings the
    answer adds the mean flow and the humidity prediction.
   */
  function FillTime(readings: seq<Reading>): (e: FillEstimate)
    ensures readings == [] ==> e.status == NoData && e.time == -1 && e.msg == NoDataMessage
    ensures readings != [] && Last(readings).waterLevel >= 100 ==>
      e.status == FillStatus.Full && e.time == 0 && e.msg == FullMessage
    ensures readings != [] && Last(readings).waterLevel < 100 && Last(readings).flowRate <= 0 ==>
      e.status == NotFilling && e.time == -1 && e.msg == NotFillingMessage
    ensures e.suggestion.Some? <==> e.status == Slow
    ensures e.avgFlowRate.Some? <==> e.prediction.Some?
    ensures e.prediction.Some? ==> e.status == Filling
    ensures readings != [] && Last(readings).waterLevel < 100 && Last(readings).flowRate > 0 ==>
      var d := Last(readings);
      && e.time >= 0
      && e.time * d.flowRate <= 100 * (100 - d.waterLevel) < (e.time + 1) * d.flowRate
      && (e.status == Slow <==> e.time > SlowMinutes)
      && (e.status == Filling <==> e.time <= SlowMinutes)
    ensures e.status == Slow ==> e.suggestion == Some(SlowSuggestion) && e.msg == SlowMessage
    ensures e.status == Filling ==> e.time >= 0 && e.msg == DurationText(e.time)
    ensures e.status == Filling ==> (e.prediction.Some? <==> |readings| >= TrendSpan)
    ensures e.status == Filling && |readings| >= TrendSpan ==>
      var latest := Last(readings).humidity;
      var trend := latest - readings[|readings| - TrendSpan].humidity;
      && e.prediction == Some(PredictionText(HumidityOutlook(trend), latest))
      && e.avgFlowRate == Some(RoundedMean(Flows(Newest(readings, RecentWindow))))
  {
    if readings == [] then FillEstimate(NoDataMessage, -1, NoData, None, None, None)
    else
      var data := Last(readings);
      var remaining := 100 - data.waterLevel;
      if remaining <= 0 then FillEstimate(FullMessage, 0, FillStatus.Full, None, None, None)
      else if data.flowRate <= 0 then FillEstimate(NotFillingMessage, -1, NotFilling, None, None, None)
      else
        var mins := MinutesToFull(data.waterLevel, data.flowRate);
        if mins > SlowMinutes then FillEstimate(SlowMessage, mins, Slow, Some(SlowSuggestion), None, None)
        else
          var recent := Newest(readings, RecentWindow);
          if |recent| >= TrendSpan then
            var trend := recent[0].humidity - recent[4].humidity;
            var prediction := PredictionText(HumidityOutlook(trend), recent[0].humidity);
            FillEstimate(DurationText(mins), mins, Filling, None, Some(RoundedMean(Flows(recent))), Some(prediction))
          else
            FillEstimate(DurationText(mins), mins, Filling, None, None, None)
  }
}
