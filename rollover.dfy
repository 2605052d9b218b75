/**
  Session rollover (`saveHistory`): the summary of a completed fill session,
  taken over every stored reading in chronological order.
 */
module Rollover {
  import opened Opt
  import opened Telemetry
  import opened Stats

  /** Milliseconds per minute. */
  const MsPerMinute := 60000

  /**
    `saveHistory`: nothing for an empty collection; otherwise one History
    entry with the reading count, a full bottle of water, floored means of
    humidity, temperature and TDS, the flow mean to a hundredth, and the
    whole minutes between the first and the last reading.
   */
  function SessionSummary(all: seq<Reading>, now: int): (h: Option<HistoryEntry>)
    ensures h.None? <==> all == []
    ensures h.Some? ==>
      var e := h.value;
      && e.deviceId == DeviceId && e.date == now
      && e.totalReadings == |all| && e.totalWater == 100
      && e.startTime == all[0].timestamp && e.endTime == Last(all).timestamp
      && e.fillDuration * MsPerMinute <= e.endTime - e.startTime < (e.fillDuration + 1) * MsPerMinute
      && e.avgFlowRate == RoundedMean(Flows(all))
      && e.avgHumidity * |all| <= Sum(Humidities(all)) < (e.avgHumidity + 1) * |all|
      && e.avgTemp * |all| <= Sum(Temps(all)) < (e.avgTemp + 1) * |all|
      && e.avgTDS * |all| <= Sum(TdsValues(all)) < (e.avgTDS + 1) * |all|
  {
    if all == [] then None
    else
      var start, end := all[0].timestamp, Last(all).timestamp;
      Some(HistoryEntry(
        DeviceId, now, start, end, 100,
        RoundedMean(Flows(all)),
        FloorMean(Humidities(all)),
        FloorMean(Temps(all)),
        FloorMean(TdsValues(all)),
        (end - start) / MsPerMinute,
        |all|))
  }

  /**
    A session of in-range readings in chronological order is summarised with
    a non-negative duration and averages inside the validation ranges.
   */
  lemma SummaryWithinRanges(all: seq<Reading>, now: int)
    requires all != [] && AllInRange(all) && Chronological(all)
    ensures var e := SessionSummary(all, now).value;
      && e.fillDuration >= 0
      && FlowMin <= e.avgFlowRate <= FlowMax
      && HumidityMin <= e.avgHumidity <= HumidityMax
      && TempMin <= e.avgTemp <= TempMax
      && TdsMin <= e.avgTDS <= TdsMax
  {
    MeansWithin(Flows(all), FlowMin, FlowMax);
    MeansWithin(Humidities(all), HumidityMin, HumidityMax);
    MeansWithin(Temps(all), TempMin, TempMax);
    MeansWithin(TdsValues(all), TdsMin, TdsMax);
  }
}
