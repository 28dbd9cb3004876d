# IoT temperature monitor: verified model of the stream and page logic

This project models the logic of a React dashboard for a Pico W temperature
sensor. The sensor publishes packets over MQTT and stores readings and
settings in a Firebase realtime database. The model covers the code that
sits between those feeds and the screen:

- **MQTT packet buffer** (`MqttData`, from `src/hooks/useMqttData.ts`). The
  buffer is newest first. Each decoded packet is put in front and the list
  is cut to `limit`. A payload that fails to decode changes nothing.
  `clearData` empties the buffer. The `connect`, `offline` and `error`
  events set a connectivity flag.
- **Evaluation page** (`Evaluation`, from `src/pages/Evaluation.tsx`). A
  session counter looks only at the buffer head. It starts a new session
  when the declared interval changes and otherwise counts each new
  `msg_id`. The page also derives the inter-arrival latency series, its mean
  (rounded like `toFixed(0)`), the throughput and expected-interval chart
  series, and the reset and update-interval handlers.
- **Live sensor feed** (`SensorData`, from `src/hooks/useSensorData.ts`).
  Each snapshot gives the current temperature and status (from the last
  record), the chart values, the labels `"1".."n"` and a newest-first
  history. An absent snapshot keeps every value as it was.
- **Threshold classifiers.** These are `Home` (from `src/pages/Home.tsx`),
  `History` (from `src/pages/History.tsx`) and `Dashboard` (from
  `src/pages/Dashboard.tsx`). Each is a total function that checks hot
  before cold. `Thresholds` proves that the three pages always name the
  same band.
- **Settings** (`SettingsPage`, from `src/pages/Settings.tsx`, and
  `SettingsData`, from `src/hooks/useSettingsData.ts`). These cover the
  defaults 21/27/1, the `read_interval || 1` fallback, the fetch / save /
  reset transitions of the form, and the `messageSeverity` prefix rule.

Hook state that the source overwrites through setters is a class with
`modifies` methods: `MqttHistory`, `EvaluationPage`, `SensorFeed`,
`SettingsForm` and `SettingsFeed`. Each such method states the complete new
state. The async handlers are split at their `await`. `Begin…` is the state
while the write is in flight and returns the document to be written.
`Complete…(writeOk)` is the `try`/`catch`/`finally` that follows. Loops in
the source are `while` loops with invariants:
- the latency loop and its in-place `reverse()`;
- the snapshot `forEach` and its in-place `reverse()`.

Each loop is proved against a specification function (`Latencies`,
`Reversed`). The clock, the decoded MQTT payload and every store outcome are
parameters.

Behaviour of the code worth knowing before reading the model:
- **Latency sign.** Each gap is the newer timestamp minus the older one, in
  buffer order (newest first), so newest-first timestamps 1600, 1300, 1000
  give gaps of +300, and a buffer holding 1000, 1300, 1600 gives -300.
  `LatencyExample` proves both orders.
- **Buffer capacity.** `limit` is a hook argument that can change between
  renders while the buffer state survives. `MqttHistory.Rerender` models
  this, and `PushBounded` holds even for an over-long previous buffer.
- **When the flag is set.** The code sets `isConnected` on `connect`,
  before it subscribes (src/hooks/useMqttData.ts:44-47).
- **Deduplication.** Every decoded packet is pushed into the buffer,
  duplicates included; only the session counter ignores a repeat, and only
  a consecutive one, so ids A, B, A count three (`NonConsecutiveRepeat`).
- **Empty snapshots.** Only an absent snapshot keeps the previous sensor
  values. A present snapshot with no entries sets 0, "Offline" and empty
  lists.
- **Measurement window.** There is no time-boxed measurement window (no
  deadline, countdown or one-shot result), so none is modelled.

## Model

| member | source | states |
|---|---|---|
| MqttData.PushUpdate | src/hooks/useMqttData.ts:56-59 | the new buffer has length min(\|prev\|+1, limit) and is a prefix of the packet followed by the old buffer |
| MqttData.PushBounded | src/hooks/useMqttData.ts:56-59 | after any push the buffer length is at most `limit`, even when the previous buffer was longer |
| MqttData.PushShape | src/hooks/useMqttData.ts:57-58 | with limit ≥ 1 the head is the pushed packet and the rest is the first min(\|prev\|, limit-1) old entries in their old order, so only the oldest are dropped |
| MqttData.PushGrows | src/hooks/useMqttData.ts:57-59 | when \|prev\|+1 ≤ limit the push only prepends: the length grows by exactly one |
| MqttData.PushAllWindow | src/hooks/useMqttData.ts:53-64 | after any non-empty series of pushes the buffer is the arrivals in reverse arrival order in front of the old buffer, cut to `limit`; its length is ≤ limit and its head is the last packet pushed |
| MqttData.MqttHistory.constructor | src/hooks/useMqttData.ts:21-23 | a new hook starts with an empty buffer and disconnected |
| MqttData.MqttHistory.ClearData | src/hooks/useMqttData.ts:26-28 | `clearData` empties the buffer and changes nothing else |
| MqttData.MqttHistory.OnMessage | src/hooks/useMqttData.ts:53-64 | a decoded packet is pushed (bounded, at the head); a decode failure leaves the buffer unchanged; the connectivity flag is not read or written |
| MqttData.MqttHistory.OnConnect | src/hooks/useMqttData.ts:44-46 | `connect` sets the flag to true and leaves the buffer |
| MqttData.MqttHistory.OnOffline | src/hooks/useMqttData.ts:66 | `offline` sets the flag to false and leaves the buffer |
| MqttData.MqttHistory.OnError | src/hooks/useMqttData.ts:68-71 | `error` sets the flag to false and leaves the buffer |
| MqttData.MqttHistory.Rerender | src/hooks/useMqttData.ts:21-23 | a render with a new `limit` keeps buffer and flag; only the limit used by later pushes changes |
| Seqs.ReverseInPlace | src/hooks/useSensorData.ts:51 | in-place `reverse()`: the array afterwards is the reverse of its old contents |
| Evaluation.EffectiveInterval | src/pages/Evaluation.tsx:43-44 | the head's interval when present and non-zero, otherwise the default 2; never 0 |
| Evaluation.SessionStep | src/pages/Evaluation.tsx:41-61 | an empty buffer changes nothing; otherwise the interval and last id become the head's; an interval change sets count 1 and the start time; an unchanged interval adds exactly 1 when the last id changed and 0 when it did not |
| Evaluation.SessionStepIdempotent | src/pages/Evaluation.tsx:53-61 | running the step again on the same buffer changes nothing, at any clock time; this covers both the repeated head and the re-run caused by the `currentInterval` change |
| Evaluation.SessionStepHeadOnly | src/pages/Evaluation.tsx:43 | the step depends only on the buffer head |
| Evaluation.ResetSession | src/pages/Evaluation.tsx:102-103 | the reset zeroes the count and restarts the clock, and keeps the interval and the last counted id |
| Evaluation.ArrivalAfterReset | src/pages/Evaluation.tsx:99-106 | after a reset, the first same-interval packet counts 1, or 0 if it repeats the last counted id |
| Evaluation.CountWithinSession | src/pages/Evaluation.tsx:56-59 | while the declared interval stays equal to the session's, the count grows by exactly the number of arrivals whose id differs from the previous one, and the interval is kept |
| Evaluation.CountAfterIntervalChange | src/pages/Evaluation.tsx:48-53 | a packet with a new interval starts a session whose count is 1 plus the later id changes within that interval |
| Evaluation.DuplicateCountedOnce | src/pages/Evaluation.tsx:56-59 | the same packet delivered twice within a session raises the count by at most 1 |
| Evaluation.NonConsecutiveRepeat | src/pages/Evaluation.tsx:56-59 | only the previous id is remembered, so a repeat that is not consecutive (ids a, b, a) is counted again: three arrivals raise the count by three |
| Evaluation.IntervalChangeTrace | src/pages/Evaluation.tsx:33-58 | from the mount state, intervals 2,2,2,5,5 with distinct ids give counts 1,2,3,1,2 and leave the interval at 5 |
| Evaluation.LatencyAt | src/pages/Evaluation.tsx:70-78 | the series has n-1 entries, and entry k is the timestamp of buffer packet n-2-k minus that of packet n-1-k (oldest pair first) |
| Evaluation.LatencyShort | src/pages/Evaluation.tsx:66 | fewer than two packets give an empty series |
| Evaluation.LatencyTelescopes | src/pages/Evaluation.tsx:70-78 | the series sums to the newest timestamp minus the oldest |
| Evaluation.LatencyData | src/pages/Evaluation.tsx:65-79 | the loop plus in-place reverse computes exactly `Latencies` of the buffer |
| Evaluation.RoundsHalfAwayUnique | src/pages/Evaluation.tsx:82 | the rounding rule (nearest integer, ties away from zero) picks at most one integer |
| Evaluation.RoundedQuotient | src/pages/Evaluation.tsx:82 | its result is the integer nearest sum/len, ties going away from zero |
| Evaluation.AvgLatency | src/pages/Evaluation.tsx:81-83 | 0 for an empty series; otherwise the mean rounded to the nearest integer, ties away from zero |
| Evaluation.AvgOfConstant | src/pages/Evaluation.tsx:81-83 | a series of equal gaps averages to exactly that gap |
| Evaluation.LatencyExample | src/pages/Evaluation.tsx:65-83 | newest-first timestamps 1600,1300,1000 give [300,300] and mean 300; the reverse order gives [-300,-300] and -300 |
| Evaluation.ThroughputSeries | src/pages/Evaluation.tsx:117-122 | `sessionCount` points running 1, 2, … up to the count |
| Evaluation.ThroughputExtends | src/pages/Evaluation.tsx:122 | one more counted message appends exactly one point, the new total |
| Evaluation.ExpectedSeries | src/pages/Evaluation.tsx:146 | one point per latency point, each `currentInterval * 1000` |
| Evaluation.ExpectedSeriesLength | src/pages/Evaluation.tsx:146 | the expected line has one point per consecutive pair of buffered packets |
| Evaluation.EvaluationPage.constructor | src/pages/Evaluation.tsx:26-38 | mount state: buffer of limit 100 empty, count 0, interval 2, no last id, target 2, not saving |
| Evaluation.EvaluationPage.SessionEffect | src/pages/Evaluation.tsx:41-61 | the effect's updates to the state and the ref equal `SessionStep` of the old session and the current buffer |
| Evaluation.EvaluationPage.OnMqttMessage | src/pages/Evaluation.tsx:41-42 | a decoded message is pushed and the session is stepped on the new buffer; a decode failure changes neither |
| Evaluation.EvaluationPage.SetTargetInterval | src/pages/Evaluation.tsx:174 | the input sets only `targetInterval` |
| Evaluation.EvaluationPage.BeginUpdateInterval | src/pages/Evaluation.tsx:85-88 | saving starts, and the write carries `targetInterval` |
| Evaluation.EvaluationPage.CompleteUpdateInterval | src/pages/Evaluation.tsx:89 | saving ends on success and on failure; nothing else changes |
| Evaluation.EvaluationPage.BeginResetDefaults | src/pages/Evaluation.tsx:92-96 | saving starts, and the write carries interval 2 |
| Evaluation.EvaluationPage.CompleteResetDefaults | src/pages/Evaluation.tsx:92-113 | on success: target 2, count 0, new start time, buffer cleared, interval and last id kept; on failure only saving changes; saving ends either way |
| Evaluation.EvaluationPage.ChartData | src/pages/Evaluation.tsx:117-153 | the render's latency, expected-interval and throughput datasets, as specified above |
| Decimal.NatToString | src/hooks/useSensorData.ts:38 | `toString()` of a natural number: non-empty, digits only, no leading zero |
| Decimal.NatToStringRoundTrip | src/hooks/useSensorData.ts:38 | reading the text back as a decimal number gives the number |
| Decimal.NatToStringInjective | src/hooks/useSensorData.ts:38 | distinct labels for distinct positions |
| SensorData.DeriveSnapshot | src/hooks/useSensorData.ts:27-51 | values = the records' temperatures in key order; labels = "1".."n"; temperature and status from the last record, or 0 and "Offline" for no records; history = the records reversed |
| SensorData.HistoryNewestFirst | src/hooks/useSensorData.ts:44-51 | history entry k is record n-1-k; the newest record comes first |
| SensorData.LabelReadsAsPosition | src/hooks/useSensorData.ts:38 | label i reads as the number i+1 |
| SensorData.SensorFeed.constructor | src/hooks/useSensorData.ts:14-18 | initial state 0, "Loading...", three empty lists |
| SensorData.SensorFeed.OnValue | src/hooks/useSensorData.ts:24-53 | an absent snapshot keeps all five values; a present one sets all five as `DeriveSnapshot` states |
| Home.AverageTemp | src/pages/Home.tsx:12-16 | no average exactly when there are no readings; otherwise the mean |
| Home.ClassifyAverage | src/pages/Home.tsx:18-24 | no-data exactly when there is no average; hot exactly when avg > max; cold exactly when avg ≤ max and avg < min; ideal exactly when min ≤ avg ≤ max |
| Home.Status | src/pages/Home.tsx:26-37 | the captions "Very Hot", "Cold", "Ideal Comfort" and "No Data" map one-to-one to the four keys |
| Home.NoReadingsNoData | src/pages/Home.tsx:12-37 | no readings are captioned "No Data" |
| Home.ZeroAverageClassified | src/pages/Home.tsx:15-19 | an average of 0 is classified, not treated as no data |
| History.FormatEvaluation | src/pages/History.tsx:19-24 | the dash exactly for a missing temperature (0 is not missing); HOT exactly above max; COLD exactly at most max and below min; IDEAL exactly within the inclusive bounds |
| History.StatusChipColor | src/pages/History.tsx:26-29 | 'default' exactly for a missing or empty status, 'warning' exactly for 'INACTIVE', 'success' for any other status |
| Dashboard.GetStatusColor | src/pages/Dashboard.tsx:14-19 | grey while loading at any temperature; otherwise hot colour exactly above max, cold colour exactly at most max and below min, ideal colour exactly within the bounds |
| Dashboard.AlertColor | src/pages/Dashboard.tsx:40 | '#fff3cd' exactly for 'INACTIVE', '#e2e3e5' otherwise |
| Thresholds.PagesAgree | src/pages/Dashboard.tsx:14-19 | Home's key, History's evaluation and Dashboard's colour (once loaded) name the same band for every present temperature |
| Thresholds.InvertedThresholdsHotWins | src/pages/History.tsx:21-22 | when min > max, a temperature between them is hot on all three pages: hot takes precedence |
| SettingsPage.MessageSeverity | src/pages/Settings.tsx:93-94 | 'success' exactly for a leading ✅, 'error' exactly for a leading ❌, 'info' for everything else, '' included |
| SettingsPage.MessagesHaveTheirSeverity | src/pages/Settings.tsx:40-94 | every message the page sets gets the severity its mark implies; 'Saving...', 'Resetting…' and '' are info |
| SettingsPage.SettingsForm.constructor | src/pages/Settings.tsx:22-26 | initial state 21, 27, loading, not saving, empty message |
| SettingsPage.SettingsForm.CompleteFetch | src/pages/Settings.tsx:31-43 | each threshold is replaced only by a stored number; otherwise it is kept; a failed fetch sets the load-failure message; loading ends in every case |
| SettingsPage.SettingsForm.SetMinTemp | src/pages/Settings.tsx:123 | the field edit sets only the minimum |
| SettingsPage.SettingsForm.SetMaxTemp | src/pages/Settings.tsx:135 | the field edit sets only the maximum |
| SettingsPage.SettingsForm.BeginSave | src/pages/Settings.tsx:49-59 | saving starts with 'Saving...' and writes the form's thresholds and the time |
| SettingsPage.SettingsForm.CompleteSave | src/pages/Settings.tsx:54-68 | thresholds kept; a success or error message by outcome (success or error severity); saving ends on both paths |
| SettingsPage.SettingsForm.BeginResetDefaults | src/pages/Settings.tsx:71-79 | saving starts, and the write holds 21/27 and the time |
| SettingsPage.SettingsForm.CompleteResetDefaults | src/pages/Settings.tsx:74-90 | on success 21/27 and '✅ Defaults restored.'; on failure thresholds unchanged and '❌ Failed to reset defaults.'; saving ends on both paths |
| SettingsData.ReadIntervalOrDefault | src/hooks/useSettingsData.ts:20 | a missing or zero stored interval gives 1; any other value is kept; never 0 |
| SettingsData.SettingsFeed.constructor | src/hooks/useSettingsData.ts:8-11 | initial state 21, 27, loading, interval 1, so `Valid` (the interval is not 0) holds from the start |
| SettingsData.SettingsFeed.OnValue | src/hooks/useSettingsData.ts:15-23 | present data sets min, max and interval (with the fallback); absent data keeps them; loading ends after every delivery; the interval is never 0 before or after (`Valid`) |

## Left out

- MQTT transport. Broker URL, credentials, the random client id,
  keep-alive, subscribe and its callback, reconnect and `client.end`
  (src/hooks/useMqttData.ts:31-42, 47-50, 73-78) are I/O. The model receives
  their events as method calls. `JSON.parse` arrives as an
  `Option<Packet>`.
- Logging. The console logging in every handler is not modelled.
- Firebase calls. `onValue`, `get`, `set`, `update`, `query` and
  `limitToLast` are foreign calls. Their results are parameters: an
  `Option` snapshot, a `FetchOutcome`, or a `writeOk` flag. Subscription
  teardown is not modelled.
- React scheduling. The session effect is one step per buffer change.
  With render batching the real page may never see some intermediate heads.
  The effect's re-run after `setCurrentInterval` is covered by
  `SessionStepIdempotent` instead of being executed.
- Evaluation.Replay: the clock is held at one `now` for the whole replay.
  `sessionStartTime` is written by the page but never read, so no count
  depends on it.
- MqttData.PushUpdate: `limit` is a natural number. A negative or
  fractional `limit`, for which `slice(0, limit)` would behave differently,
  is not modelled. The only caller, src/pages/Evaluation.tsx:26, passes 100;
  the hook's default `limit = 50` is not modelled, since the constructor takes
  `limit` explicitly.
- Home.AverageTemp: the mean is not rounded with `toFixed(1)`, which is
  floating-point formatting. `ClassifyAverage` takes the (already rounded)
  average as its input. `averageTemp` is classified by the presence of the
  formatted string, and the model keeps that.
- Evaluation.AvgLatency: returns the integer, not the `toFixed(0)` string.
  For a mean in (-0.5, 0) the page shows "-0" where the model gives 0.
  Exact ties are decided as `toFixed` decides them for the small integer
  sums and lengths (at most 99) that occur here.
- NaN. `Number(data.min_temp)` of a missing field (useSettingsData.ts:18-20)
  would be NaN. Thresholds and temperatures are `real`, so this is not
  modelled. That also makes the `typeof … === 'number'` guards of
  src/pages/Home.tsx:21-22 always true.
- Timer. The `setTimeout` that clears the settings message after three
  seconds (src/pages/Settings.tsx:62, 84) is a timer and is not modelled.
- Presentation. Chart.js and MUI presentation is excluded. This covers the
  Home gradients (src/pages/Home.tsx:39-72), the latency chart's
  `i.toString()` labels, the "MQTT Active" chip, the projected msgs/min
  text, and TempChart, StatusCard and NavBar.
- Unused value. `readInterval` is read from `useSettings` in
  src/pages/Evaluation.tsx:27 but never used there, so it is not modelled
  on that page.
- Wiring. Routing, app wiring and Firebase initialisation (src/routes.tsx,
  src/App.tsx, src/config/firebase.config.ts) contain no logic.
- Strings. JavaScript's `startsWith` compares UTF-16 code units, and the
  model compares code points. The two marks ✅ and ❌ are single code units,
  so the results agree.
