# AWG simulator, chat history and display formatters in Dafny

This project models three pieces of the Atmospheric Water Generator (AWG)
monitoring application and proves properties of them.

1. **The simulated sensor engine** (`Back/controller/sensorController.js`).
   A process-wide fallback snapshot (`lastGoodValues`) and a session start
   sit beside three database collections: the Sensor readings of the current
   fill session, the History of completed sessions, and the Alerts. One tick
   (`genData`) does one of two things:
   - It raises the water level from a cold start or from the newest reading.
     It replaces flow, humidity and temperature by means over recent readings
     once three exist (`smoothData`), passes every value through the range
     validator (`validate`), stores the reading and records the alerts it
     raises (`checkAlerts`).
   - When the level would reach 100, it stores a final full reading, writes
     a session summary (`saveHistory`) and empties the collection.

   The request handlers are also modelled: the fill-time estimate
   (`fillTime`), `drinkWater`, `markAlertsRead`, and the newest-first queries
   with their default limits.
2. **The chat page's conversation list** (`frontend/app/chat/page.tsx`).
   It holds the open conversation and the list of saved conversations,
   newest first, capped at 20 and mirrored into the browser's storage.
   Saving, loading, starting, deleting and sending are modelled.
3. **The display formatters** (`frontend/lib/format.ts`): `formatTime`,
   `formatSessionId` and `formatDeviceId`.

Modelling choices:
- **Units.** Levels, humidity, temperatures, TDS and battery are whole
  numbers, because the controller floors all of them. The flow rate is always
  rounded to two decimals, so it is kept as whole hundredths of a litre per
  minute. Its range 0..5 becomes 0..500, and the `flowRate <= 0.001` test
  becomes `<= 0`. Times are milliseconds.
- **Means.** A floored mean is `Sum / n`. A mean printed with `toFixed(2)` is
  rounded to the nearest hundredth, halves up.
- **Randomness.** `Math.random` becomes a `Draws` value per tick. Its ranges
  follow from `Math.floor(rand(a, b))` lying in `a..b-1`: start level 1..4,
  increase 1..3, humidity 50..84, temperature 20..34, water temperature
  15..29, TDS 20..89, battery 40..99, and flow 20..100 hundredths.
- **Collections and clock.** Each collection is a sequence kept in insertion
  order. "Sort by timestamp descending, limit n" is `Newest`. The clock is a
  `now` parameter. A tick requires it to be no earlier than the newest
  stored reading, which keeps the readings in time order.

The alert levels admitted by the Alert schema (`Back/models/Alert.js:6`:
`low`, `high`, `critical`) do not include the `success` level that
`checkAlerts` gives a reading at 100 percent (`FullReadingYieldsSuccess`).
The model records this discrepancy rather than fixing it. The full reading
is never passed to `checkAlerts`, because the filling tick returns first. So
`Sim.Valid` can carry "every stored alert has a schema level" as an
invariant of every tick (`TickAlerts`, `BelowFullAlertsInSchema`).

## Model

| member | source | states |
|---|---|---|
| Telemetry.Validate | Back/controller/sensorController.js:18-23 | the value is kept exactly when it lies in [min, max], both bounds inclusive, and is replaced by the last good value otherwise; an in-range fallback gives an in-range result |
| Telemetry.ValidateIdempotent | Back/controller/sensorController.js:18-23 | validating a validated value again changes nothing, whatever the fallback |
| Telemetry.Newest | Back/controller/sensorController.js:27 | newest-first "take n": min(n, size) elements, the i-th being the i-th newest |
| Telemetry.QueryLimit | Back/controller/sensorController.js:260 | a missing, unparsable or zero limit gives the default; any other limit is used by its absolute value |
| Stats.FloorMean | Back/controller/sensorController.js:32-33 | `Math.floor` of a mean: m*n <= sum < (m+1)*n |
| Stats.RoundedMean | Back/controller/sensorController.js:31 | the mean rounded to the nearest unit (hundredth of the flow), halves up: \|2*sum - 2*m*n\| bounded by n |
| Stats.SumBounds | Back/controller/sensorController.js:142-145 | a sum of n values in [lo, hi] lies in [n*lo, n*hi] |
| Stats.MeansWithin | Back/controller/sensorController.js:31-33 | floored and rounded means of values in [lo, hi] lie in [lo, hi] |
| Smoothing.Smooth | Back/controller/sensorController.js:25-38 | no smoothing with fewer than 3 stored readings; otherwise the rounded flow mean and the floored humidity and temperature means over the (at most 5) newest readings |
| Smoothing.SmoothedWithinRanges | Back/controller/sensorController.js:90-102 | over in-range readings, every smoothed value lies inside the range its validator checks |
| Rollover.SessionSummary | Back/controller/sensorController.js:137-165 | no entry for an empty session; otherwise reading count, 100 percent of water, first and last timestamps, whole minutes between them (floored), rounded flow mean and floored humidity, temperature and TDS means |
| Rollover.SummaryWithinRanges | Back/controller/sensorController.js:142-160 | for in-range readings in time order, the duration is non-negative and every average lies in its validation range |
| Alerts.WaterLevelAlert | Back/controller/sensorController.js:170-203 | at most one alert, present iff level <= 20 or >= 95; success iff >= 100, critical iff <= 10, low iff in (10, 20], high iff in [95, 100) |
| Alerts.HumidityAlert | Back/controller/sensorController.js:205-213 | one low alert iff humidity < 55, else none |
| Alerts.TdsAlert | Back/controller/sensorController.js:215-223 | one critical alert iff TDS > 100, else none |
| Alerts.BatteryAlert | Back/controller/sensorController.js:225-241 | at most one alert, present iff battery <= 25; critical iff <= 15, low iff in (15, 25] |
| Alerts.CheckAlerts | Back/controller/sensorController.js:167-242 | at most 4 alerts, all unread and stamped now; each concern present exactly when its threshold is crossed, with the level, value and message the threshold table gives |
| Alerts.CheckAlertsOrdered | Back/controller/sensorController.js:170-241 | the batch lists water level, humidity, water quality, battery in that order (strictly increasing concern rank) |
| Alerts.FullReadingYieldsSuccess | Back/controller/sensorController.js:171-178 | a reading at 100 percent or more yields a `success` alert, a level the Alert schema does not admit |
| Alerts.BelowFullAlertsInSchema | Back/controller/sensorController.js:179-241 | below 100 percent every alert level is one the Alert schema admits |
| FillTime.MinutesToFull | Back/controller/sensorController.js:286 | the floored minutes: m*flow <= remaining < (m+1)*flow |
| FillTime.MinutesToFullMonotone | Back/controller/sensorController.js:286 | at a fixed flow a fuller bottle never has a longer estimate |
| FillTime.HumidityOutlook | Back/controller/sensorController.js:299-307 | rising iff the humidity trend exceeds 5, dropping iff below -5, steady otherwise |
| FillTime.FillTime | Back/controller/sensorController.js:268-328 | no reading: no data (-1); level >= 100: full (0); no flow: not filling (-1), each with its message; a suggestion only when slow, the mean flow and prediction only together and only when filling; otherwise the floored minutes, slow iff above 720 with the suggestion, filling iff at most 720 with the duration text; with 5 or more readings the prediction from newest minus fifth-newest humidity and the rounded mean flow over the 10 newest |
| Simulator.ValidateReading | Back/controller/sensorController.js:97-102 | each of the six scalar fields is validated on its own against its range and its own fallback, and level, trend, time and device are unchanged; an in-range fallback gives an in-range reading; an in-range reading is unchanged |
| Simulator.FullReading | Back/controller/sensorController.js:59-69 | the final reading has level 100, trend full, the tick's time, and is in range when the fallback is |
| Simulator.GeneratedReading | Back/controller/sensorController.js:44-124 | a cold start stores the drawn start level; otherwise the previous level plus the increase, below 100 and strictly above the previous level; trend increasing; every field in range |
| Simulator.ValidationNeverFallsBack | Back/controller/sensorController.js:83-102 | over in-range stored readings and in-range draws, no value is replaced by its fallback |
| Simulator.RolloverSummary | Back/controller/sensorController.js:55-77 | the filling tick's summary exists, counts the session plus the full reading, ends now, has a non-negative duration and in-range averages |
| Simulator.TickAlerts | Back/controller/sensorController.js:131 | a non-filling tick raises only schema-valid alerts and never a water-quality or battery alert |
| Simulator.StoreKeepsInvariant | Back/controller/sensorController.js:104-131 | storing the generated reading keeps readings in range and in time order, the snapshot in range and every alert level schema-valid |
| Simulator.Sim.constructor | Back/controller/sensorController.js:7-16 | a restart over the stored collections, with the initial fallback values and no session start |
| Simulator.Sim.SaveHistory | Back/controller/sensorController.js:137-165 | appends the session summary, or nothing when no reading is stored |
| Simulator.Sim.Tick | Back/controller/sensorController.js:40-135 | the filling tick empties the readings, appends exactly the session summary, clears the session start and leaves alerts and snapshot alone; any other tick appends the generated reading, makes it the snapshot, appends its alerts and starts a session on a cold start; the invariant is kept |
| Simulator.Sim.FinishSession | Back/controller/sensorController.js:55-77 | readings emptied, one summary of the session plus the full reading appended, session start cleared, the rest unchanged |
| Simulator.Sim.StoreReading | Back/controller/sensorController.js:83-131 | the generated reading appended and made the snapshot, its alerts appended, history unchanged, session start set on a cold start; the invariant is kept |
| Simulator.Sim.InsertAlerts | Back/controller/sensorController.js:243-245 | the batch is appended; an empty batch leaves the alerts as they were |
| Simulator.Sim.NextReading | Back/controller/sensorController.js:44-124 | the imperative computation of level, smoothing and validation yields the generated reading |
| Simulator.Sim.Drink | Back/controller/sensorController.js:363-385 | a missing level or one outside [0, 100] is refused, a missing reading reported, both without change; otherwise only the newest reading's level and trend change (full iff 100, else stable) |
| Simulator.Sim.MarkAlertsRead | Back/controller/sensorController.js:354-361 | every alert becomes read and nothing else about the alerts changes |
| Simulator.Sim.Latest | Back/controller/sensorController.js:248-256 | the newest reading if any, and the at most 5 newest unread alerts |
| Simulator.Sim.GetReadings | Back/controller/sensorController.js:258-266 | the newest readings, newest first, as many as the limit (50 by default) allows |
| Simulator.Sim.GetHistory | Back/controller/sensorController.js:335-343 | the newest session summaries, newest first, as many as the limit (20 by default) allows |
| Simulator.Sim.GetAlerts | Back/controller/sensorController.js:345-352 | the 50 newest alerts, newest first |
| Simulator.Unread | Back/controller/sensorController.js:251 | exactly the unread alerts |
| Simulator.UnreadAppend | Back/controller/sensorController.js:251 | the filter distributes over concatenation, so the unread alerts keep their insertion order and multiplicity |
| ChatHistory.Without | frontend/app/chat/page.tsx:34 | exactly the conversations with another id remain |
| ChatHistory.WithoutAppend | frontend/app/chat/page.tsx:53 | filtering distributes over concatenation, so the survivors keep their relative order |
| ChatHistory.WithoutAbsent | frontend/app/chat/page.tsx:34 | filtering an id nobody carries changes nothing |
| ChatHistory.WithoutUnique | frontend/app/chat/page.tsx:53 | filtering keeps ids unique |
| ChatHistory.WithoutAtMostOne | frontend/app/chat/page.tsx:53 | with unique ids, filtering removes at most one conversation, and none when the id is absent |
| ChatHistory.DeleteKeepsOthers | frontend/app/chat/page.tsx:52-55 | deleting keeps every other conversation, keeps ids unique and shortens the list by at most one |
| ChatHistory.Title | frontend/app/chat/page.tsx:25 | the first 30 characters of the first message, or "New Chat" when there is no first message or its text is empty |
| ChatHistory.Saved | frontend/app/chat/page.tsx:34-37 | the saved conversation first, then the others without any older copy in their previous order, at most 20 in all |
| ChatHistory.SavedUnique | frontend/app/chat/page.tsx:34-37 | saving keeps ids unique, so the saved conversation appears exactly once |
| ChatHistory.SavedIdempotent | frontend/app/chat/page.tsx:34-37 | saving the same conversation twice gives the list of the first save |
| ChatHistory.BotText | frontend/app/chat/page.tsx:78-87 | the response text, "No response" for a missing or empty one, or the connection error text |
| ChatHistory.ChatIdFor | frontend/app/chat/page.tsx:24 | the open id when set and non-empty, otherwise the decimal text of the clock |
| ChatHistory.ChatPage.constructor | frontend/app/chat/page.tsx:13-19 | an empty conversation, and the list read back from storage (empty when nothing is stored) |
| ChatHistory.ChatPage.SetInput | frontend/app/chat/page.tsx:276 | the text box holds the typed text |
| ChatHistory.ChatPage.SaveToHistory | frontend/app/chat/page.tsx:21-40 | an empty conversation changes nothing; otherwise the list becomes the saved list under the open or fresh id, storage holds the same list, and that id becomes the open one |
| ChatHistory.ChatPage.LoadChat | frontend/app/chat/page.tsx:42-45 | the chosen conversation and its id become the open ones |
| ChatHistory.ChatPage.NewChat | frontend/app/chat/page.tsx:47-50 | an empty conversation with no id |
| ChatHistory.ChatPage.DeleteChat | frontend/app/chat/page.tsx:52-59 | every conversation with the id leaves the list and storage; the open conversation is reset exactly when it had that id |
| ChatHistory.ChatPage.Send | frontend/app/chat/page.tsx:61-94 | blank input changes nothing; otherwise exactly two messages (the user's, then the reply or error text) are appended, the text box is cleared and the conversation is saved |
| Format.SplitMinutes | frontend/lib/format.ts:14-15 | hours*60 + minutes gives back the input, with minutes below 60 |
| Format.FormatTime | frontend/lib/format.ts:13-21 | the text ends in "m" |
| Format.FormatTimeParse | frontend/lib/format.ts:13-21 | the text is "{h}h {m}m" with h > 0 and m < 60, or "{m}m" with m < 60, without leading zeros: `ParseTime` accepts exactly these texts and reads back the minutes they were made from |
| Format.FormatTimeHourMark | frontend/lib/format.ts:17-20 | the text contains "h " exactly from 60 minutes on |
| Format.FormatTimeRoundTrip | frontend/lib/format.ts:13-21 | reading the text back gives the minutes it was made from |
| Format.ParsedTimeIsFormatted | frontend/lib/format.ts:13-21 | every text `ParseTime` accepts is the one written for the minutes it reads |
| Format.FormatSessionId | frontend/lib/format.ts:27-29 | "#" and the digits of total - index zero-padded to at least 3, whose value is total - index |
| Format.SessionIdWidth | frontend/lib/format.ts:28 | exactly 4 characters iff total - index is below 1000 |
| Format.IndexOf | frontend/lib/format.ts:24 | the first position where the pattern occurs, or none when it occurs nowhere |
| Format.FormatDeviceId | frontend/lib/format.ts:23-25 | unchanged without "SIM-"; otherwise the first occurrence removed and 4 characters shorter |
| Format.FormatDeviceIdStripsPrefix | frontend/lib/format.ts:24 | "SIM-" followed by s gives s |
| Decimal.NatToString | frontend/lib/format.ts:28 | `String(n)`: at least one digit, no leading zero |
| Decimal.ParseNatToString | frontend/lib/format.ts:28 | parsing the decimal text gives the number back |
| Decimal.CanonicalRoundTrip | frontend/lib/format.ts:28 | digit text without leading zeros is exactly what printing its value writes |
| Decimal.NatToStringLength | frontend/lib/format.ts:28 | at most k digits iff the number is below 10^k |
| Decimal.PadStart | frontend/lib/format.ts:28 | `padStart`: the text right-aligned in the fill character to at least the width |
| Decimal.ParseNatLeadingZeros | frontend/lib/format.ts:28 | zero padding does not change the parsed value |

## Left out

- Database and timers: Mongoose persistence becomes sequence fields. Failures and the `500` error answers are not modelled. Neither is the 30-second timer that drives ticks, nor ticks that overlap.
- Randomness: `Math.random` becomes the `Draws` parameter of a tick, restricted to the ranges above.
- Floating point: flow values are whole hundredths, so `toFixed(2)`'s behaviour at exact binary ties and at float noise is not modelled. In `fillTime` the quotient `remaining / flowRate` is exact here, whereas a float quotient that lands just below a whole number could floor one lower.
- Telemetry.Validate: the `isNaN` branch is not modelled, because whole numbers are never NaN.
- Simulator.Sim.Drink: a fractional or non-numeric `remainingLevel` is not modelled, because the parameter is an optional whole number.
- Simulator.Sim.Tick: requires the clock not to run backwards past the newest reading, because the model keeps the Sensor collection in time order instead of sorting it.
- Simulator.Sim.GetHistory: entries are returned newest first by insertion order, which matches `sort({ date: -1 })` only for a clock that never runs backwards: every entry is dated by the tick that wrote it, but a tick after a rollover is not required to be later than the newest history date.
- Console logging, the `sessionStart` timestamp's `Date` type (it is the tick's clock here), and the HTTP status and message strings beyond the three `drinkWater` outcomes.
- ChatHistory.Title: cuts at 30 Unicode characters, whereas `substring` counts UTF-16 code units. Each character outside the Basic Multilingual Plane takes two units in JavaScript, so any such character among the first 30 moves the cut: with 20 emoji, `substring` keeps 15 and the model keeps 20. Non-string message texts are not modelled either.
- ChatHistory.ChatPage.SaveToHistory: one `now` stands for both `Date.now()` calls. The fresh id is the decimal text of that clock value.
- ChatHistory.ChatPage.Send: the request to the AI endpoint is replaced by its outcome (`Reply`). The bot message's `data` field, the loading flag, and React's stale closures are not modelled; the operation runs as one atomic step. Concurrent sends are not modelled.
- ChatHistory.ChatPage.constructor: storage that holds malformed JSON is not modelled. `JSON.parse` would throw there.
- Simulator.Sim.constructor: requires the stored collections to be ones this program wrote: in-range readings in time order and alerts with schema levels. The controller itself starts over whatever the database holds.
- Simulator.Sim.Latest: the alerts of one batch share one timestamp. Under `sort({ timestamp: -1 })` MongoDB returns such ties in an unspecified order, whereas the model fixes reverse insertion order.
- Simulator.Sim.GetAlerts: fixes reverse insertion order among alerts with equal timestamps, as `Latest` does, where MongoDB leaves their order unspecified.
- Format.FormatTime and Format.FormatSessionId: take whole non-negative minutes and a non-negative `total - index`. Fractional or negative inputs, where JavaScript's `%` and `padStart` differ, are not modelled.
- `formatNumber`, `formatPercent` and `formatDecimal` are float formatting and are not part of this model. Neither are the rendering and polling of the dashboard, analytics, history, support, login and register pages.
- The AI, chat, authentication and support controllers are not part of this model: they call a language-model service, bcrypt and JWT, and a mail service.
