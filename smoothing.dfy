/**
  The smoothing filter (`smoothData`): the flow rate, humidity and
  temperature of a new reading are replaced by means over the newest stored
  readings once there are enough of them.
 */
module Smoothing {
  import opened Opt
  import opened Telemetry
  import opened Stats

  /** How many of the newest readings the means are taken over. */
  const Window := 5
  /** Fewer stored readings than this and nothing is smoothed. */
  const MinReadings := 3

  datatype Smoothed = Smoothed(flowRate: int, humidity: int, temp: int)

  /**
    `smoothData`: None with fewer than three stored readings; otherwise the
    means over the (at most five) newest: the flow rounded to a hundredth,
    humidity and temperature floored.
   */
  function Smooth(readings: seq<Reading>): (r: Option<Smoothed>)
    ensures r.None? <==> |readings| < MinReadings
    ensures r.Some? ==>
      var recent := Newest(readings, Window);
      && r.value.flowRate == RoundedMean(Flows(recent))
      && r.value.humidity * |recent| <= Sum(Humidities(recent)) < (r.value.humidity + 1) * |recent|
      && r.value.temp * |recent| <= Sum(Temps(recent)) < (r.value.temp + 1) * |recent|
  {
    var recent := Newest(readings, Window);
    if |recent| < MinReadings then None
    else Some(Smoothed(RoundedMean(Flows(recent)), FloorMean(Humidities(recent)), FloorMean(Temps(recent))))
  }

  /**
    Means over stored readings that lie in their validation ranges lie in
    those ranges too, so the validator accepts every smoothed value.
   */
  lemma SmoothedWithinRanges(readings: seq<Reading>)
    requires AllInRange(readings)
    ensures Smooth(readings).Some? ==>
      && FlowMin <= Smooth(readings).value.flowRate <= FlowMax
      && HumidityMin <= Smooth(readings).value.humidity <= HumidityMax
      && TempMin <= Smooth(readings).value.temp <= TempMax
  {
    var recent := Newest(readings, Window);
    if |recent| >= MinReadings {
      assert forall i :: 0 <= i < |recent| ==> ReadingInRange(recent[i]) by {
        forall i | 0 <= i < |recent| ensures ReadingInRange(recent[i]) {
          assert recent[i] == readings[|readings| - 1 - i];
        }
      }
      MeansWithin(Flows(recent), FlowMin, FlowMax);
      MeansWithin(Humidities(recent), HumidityMin, HumidityMax);
      MeansWithin(Temps(recent), TempMin, TempMax);
    }
  }
}
