# Boiler control — a Dafny model of its decision rules

The system controls a home boiler. It has three parts:

- a mobile app: a data provider that polls the mobile API, a connection banner, a temperature dial and a schedule strip;
- Python services:
  - the mobile API, which caches MQTT readings and publishes setpoints;
  - an AI service with a command guardrail and a maintenance analyzer;
  - a chatbot that turns messages into validated commands;
- three MQTT simulators for the OpenTherm gateway, the windows and the house.

This project models the decision rules and state updates of those parts. It proves what they guarantee.

Every network, MQTT, LLM or Home Assistant call is an input value to the model:

- a reply with a status and a body;
- a timeout;
- an exception.

Code that updates state in place is a `class`. Each method is specified by a function of the old state. Pure rules are functions, with lemmas for the properties that relate several calls.

One module per source file:

| module | source file |
|---|---|
| `Common` | helpers: `Option`, `Clamp`, `Trunc`, an MQTT `Publish` record |
| `Text` | helpers: Python and JavaScript string built-ins (`lower`, `split`, `strip`, `in`, `replace`, `float`) |
| `ApiClient` | `boiler-mobile-app/src/api/MobileApiClient.ts` |
| `DataContext` | `boiler-mobile-app/src/contexts/DataContext.tsx` |
| `ConnectionStatusBar` | `boiler-mobile-app/src/components/ConnectionStatusBar.tsx` |
| `CentralDial` | `boiler-mobile-app/src/components/CentralDial.tsx` |
| `ScheduleTimeline` | `boiler-mobile-app/src/components/ScheduleTimeline.tsx` |
| `Guardrail` | `ai_boiler/src/guardrail.py` |
| `Maintenance` | `ai_boiler/src/maintenance.py` |
| `AiMain` | `ai_boiler/src/main.py` |
| `Chatbot` | `chatbot/chatbot_service.py` |
| `MobileApi` | `mobile_api/src/main.py` |
| `SimOtgw` | `ot_simulator/sim_otgw.py` |
| `SimWindows` | `window_simulator/sim_windows.py` |
| `SimThermal` | `thermal_simulator/sim_thermal.py` |

Points where the behaviour is easy to misread:

- React callbacks capture the state of the render that created them. `DataContext` records this as a `Snapshot`, and the polling interval keeps an old one (see Findings).
- A failed refresh outside the connected state sets a message only when it goes offline. While the captured count stays below 2 the old message, possibly none, is kept.
- The entity-id list of the maintenance report is never empty, so the endpoint's 400 branch cannot happen. `AiMain.EntityListNeverEmpty` proves this.

## Model

| member | source | states |
|---|---|---|
| ApiClient.GetBoilerStatus | boiler-mobile-app/src/api/MobileApiClient.ts:57-85 | Any failure gives the fixed fallback (65.3, 1.5, 75, true). An ok reply maps every snake_case field to its camelCase field. Missing numbers default to 0. `flameOn` is true exactly when `flame_on` is the JSON `true`. |
| ApiClient.GetRoomStatus | boiler-mobile-app/src/api/MobileApiClient.ts:90-112 | On failure the fallback (20.5, 21). Otherwise `currentTemp` is `indoor_temp ?? 20` and `targetTemp` is the boiler status's `setpoint ?? 21`. |
| ApiClient.MapWindows | boiler-mobile-app/src/api/MobileApiClient.ts:125-129 | The mapping keeps length and order. Position i gets id `String(i + 1)`. |
| ApiClient.GetWindowSensors | boiler-mobile-app/src/api/MobileApiClient.ts:117-139 | Failure gives the four fallback windows and a missing list gives []. Otherwise: same length, names kept, ids "1".."n", `isOpen` exactly when `is_open === true`. |
| ApiClient.WindowIdsDistinct | boiler-mobile-app/src/api/MobileApiClient.ts:125-127 | Two windows at different positions get different ids. |
| ApiClient.GetSchedules | boiler-mobile-app/src/api/MobileApiClient.ts:144-170 | Failure gives the four fallback slots and a missing list gives []. Otherwise id, time and temperature are kept; a slot is active exactly when `enabled === true` or `active === true`. |
| ApiClient.GetEnergyData | boiler-mobile-app/src/api/MobileApiClient.ts:175-198 | Energy data is always {145, 168, []}. |
| ApiClient.EnergyIgnoresHistory | boiler-mobile-app/src/api/MobileApiClient.ts:177-196 | Two different history replies give the same energy data. |
| ApiClient.SetTargetTemperature | boiler-mobile-app/src/api/MobileApiClient.ts:203-222 | True exactly for an ok reply whose `success` is the JSON `true`. |
| ApiClient.HealthUrl | boiler-mobile-app/src/api/MobileApiClient.ts:277 | The probe URL ends in "/health". A base without "/api" is kept whole. |
| ApiClient.HealthUrlDropsFirstApi | boiler-mobile-app/src/api/MobileApiClient.ts:277 | With the first "/api" at position n, the probe URL is the base with exactly that occurrence removed, then "/health". |
| ApiClient.CheckHealth | boiler-mobile-app/src/api/MobileApiClient.ts:275-283 | Up exactly when the GET of `HealthUrl(baseUrl)` answers ok; an error status or a thrown fetch is down. |
| ApiClient.HealthProbeIsServerRoot | boiler-mobile-app/src/config/api.ts:12-25 | The app's configured base URL is probed at "http://192.168.1.18:8004/health", the server's root route, not under "/api". |
| ApiClient.HealthUrlOfApiSuffix | boiler-mobile-app/src/api/MobileApiClient.ts:277 | A host without an 'a', followed by "/api", is probed at that host followed by "/health". |
| DataContext.Refreshed | boiler-mobile-app/src/contexts/DataContext.tsx:72-125 | `isLoading` is false afterwards. Success stores the five values, sets connected and `lastUpdated`, clears the message and zeroes the count. Failure keeps the cached data. A failure seen while connected sets error with a message and keeps the count. Otherwise the count rises by one, and the status is offline exactly when the captured count is at least 2 (connecting when below). |
| DataContext.PollingIntervalMs | boiler-mobile-app/src/contexts/DataContext.tsx:157-161 | 15000 ms exactly when offline, 10000 ms otherwise. |
| DataContext.RetrySuccessConnects | boiler-mobile-app/src/contexts/DataContext.tsx:127-132 | A retry whose refresh succeeds ends connected with count 0 and no message, whatever the state before. |
| DataContext.RetryFailure | boiler-mobile-app/src/contexts/DataContext.tsx:127-132 | A failed retry from a non-connected state leaves count 1. It lands offline exactly when the count before the retry was at least 2. |
| DataContext.StaleIntervalStaysConnecting | boiler-mobile-app/src/contexts/DataContext.tsx:154-164 | A closure that saw connecting with a count below 2 keeps the status at connecting however often it fails, while the count grows by one per run. |
| DataContext.FreshRefreshReachesOffline | boiler-mobile-app/src/contexts/DataContext.tsx:109-120 | With a fresh snapshot each run, from connecting with count 0, failures 1 and 2 stay connecting and failure 3 goes offline with the offline message. |
| DataContext.DataProvider.constructor | boiler-mobile-app/src/contexts/DataContext.tsx:61-70 | The initial `useState` values: defaults, loading, connecting, no update, no message, count 0. |
| DataContext.DataProvider.RefreshWith | boiler-mobile-app/src/contexts/DataContext.tsx:72-125 | The new state is `Refreshed` of the old one. Entering while offline with a captured count below 3 first writes connecting. The last status written is the final status. |
| DataContext.DataProvider.Settle | boiler-mobile-app/src/contexts/DataContext.tsx:96-124 | The new state is `Settled` of the old one: the fetched data on success, otherwise the failure judged by the captured status and count; loading ends either way. |
| DataContext.DataProvider.RefreshData | boiler-mobile-app/src/contexts/DataContext.tsx:72-125 | A refresh from the current render: `Refreshed` with the fields as they were on entry. |
| DataContext.DataProvider.RetryConnection | boiler-mobile-app/src/contexts/DataContext.tsx:127-132 | The reset to connecting, count 0 and no message, followed by the same render's refresh. |
| DataContext.DataProvider.SetTargetTemp | boiler-mobile-app/src/contexts/DataContext.tsx:134-151 | While offline: false, no client call, only the message changes. Otherwise: the result is the client's answer; on success only `room.targetTemp` changes and a refresh follows after 1000 ms; on false nothing changes; on a throw only the message changes. |
| ConnectionStatusBar.StatusName | boiler-mobile-app/src/contexts/DataContext.tsx:67 | Each status is published as its text ("connected", ...). |
| ConnectionStatusBar.StatusNameInjective | boiler-mobile-app/src/contexts/DataContext.tsx:67 | Different statuses are different texts. |
| ConnectionStatusBar.GetStatusConfig | boiler-mobile-app/src/components/ConnectionStatusBar.tsx:35-73 | Retry is shown exactly for statuses other than connected and connecting. Gives the four labels, and "Sconosciuto" for any other text. |
| ConnectionStatusBar.LabelsOneToOne | boiler-mobile-app/src/components/ConnectionStatusBar.tsx:41-63 | The four statuses show four different labels, none the unknown one. Retry is shown exactly for offline and error. |
| ConnectionStatusBar.TimestampOnlyWhenConnected | boiler-mobile-app/src/components/ConnectionStatusBar.tsx:104 | The time is shown exactly when connected and `lastUpdated` is present. |
| ConnectionStatusBar.ShowTimestamp | boiler-mobile-app/src/components/ConnectionStatusBar.tsx:104 | The time shows only with a recorded update, and never outside "connected". |
| ConnectionStatusBar.StatusChanged | boiler-mobile-app/src/components/ConnectionStatusBar.tsx:80-87 | A status change keeps the busy flag and preserves consistency. Any non-connected status is visible with no pending hide timer. An unchanged status changes nothing. |
| ConnectionStatusBar.TimerFired | boiler-mobile-app/src/components/ConnectionStatusBar.tsx:82-84 | The timer clears the flag, so a connected banner is hidden. |
| ConnectionStatusBar.Mounted | boiler-mobile-app/src/components/ConnectionStatusBar.tsx:78-87 | The first render is visible and consistent. The timer is pending exactly when connected. |
| ConnectionStatusBar.ReconnectShowsThenHides | boiler-mobile-app/src/components/ConnectionStatusBar.tsx:80-91 | Returning to connected keeps the banner up with the timer pending, and the timer then hides it. |
| ConnectionStatusBar.HiddenOnlyWhenConnected | boiler-mobile-app/src/components/ConnectionStatusBar.tsx:89-91 | A hidden banner is connected with its flag cleared. Any other status shows it again. |
| ConnectionStatusBar.Visible | boiler-mobile-app/src/components/ConnectionStatusBar.tsx:89-91 | A hidden banner has status "connected", and a set banner flag always renders. |
| ConnectionStatusBar.StatusBar.constructor | boiler-mobile-app/src/components/ConnectionStatusBar.tsx:78-87 | The state is `Mounted` of the initial status. |
| ConnectionStatusBar.StatusBar.OnStatusChange | boiler-mobile-app/src/components/ConnectionStatusBar.tsx:80-87 | The new state is `StatusChanged` of the old one. |
| ConnectionStatusBar.StatusBar.TimerFires | boiler-mobile-app/src/components/ConnectionStatusBar.tsx:82-84 | The new state is `TimerFired` of the old one. |
| ConnectionStatusBar.StatusBar.HandleRetry | boiler-mobile-app/src/components/ConnectionStatusBar.tsx:29-33 | The busy flag is set during `retryConnection` and cleared after it. The banner fields are kept, and the provider ends in `Retried` of its old state. |
| CentralDial.HandleIncrement | boiler-mobile-app/src/components/CentralDial.tsx:77-81 | Asks for target + 0.5 exactly when target < max, and does nothing otherwise. |
| CentralDial.HandleDecrement | boiler-mobile-app/src/components/CentralDial.tsx:83-87 | Asks for target − 0.5 exactly when target > min, and does nothing otherwise. |
| CentralDial.DisabledIffNoChange | boiler-mobile-app/src/components/CentralDial.tsx:129-141 | Minus is disabled exactly when decrement does nothing, and plus exactly when increment does nothing. |
| CentralDial.DefaultRange | boiler-mobile-app/src/components/CentralDial.tsx:35-36 | Without bounds the range is 5 to 30. |
| CentralDial.Progress | boiler-mobile-app/src/components/CentralDial.tsx:39 | Undefined exactly for an empty range. Otherwise progress × (max − min) = target − min. |
| CentralDial.ProgressEnds | boiler-mobile-app/src/components/CentralDial.tsx:39 | Progress is 0 at min and 1 at max. |
| CentralDial.ProgressInUnit | boiler-mobile-app/src/components/CentralDial.tsx:39 | Progress lies in [0, 1] exactly when the target lies in [min, max]. |
| CentralDial.ProgressMonotone | boiler-mobile-app/src/components/CentralDial.tsx:39 | A higher target never gives a shorter arc. |
| CentralDial.DecrementUndoesIncrement | boiler-mobile-app/src/components/CentralDial.tsx:77-87 | A step down after a step up returns to the original target. |
| CentralDial.PressPlusOnGrid | boiler-mobile-app/src/components/CentralDial.tsx:77-81 | On the half-degree grid, n presses land at min(k + n, m) steps. The maximum is reached and never passed. |
| CentralDial.OffGridOvershoot | boiler-mobile-app/src/components/CentralDial.tsx:77-81 | Off the grid one press passes the maximum: 29.8 becomes 30.3. |
| ScheduleTimeline.JsNumber | boiler-mobile-app/src/components/ScheduleTimeline.tsx:31 | Text that is blank by JavaScript's whitespace gives 0; otherwise the JavaScript-trimmed text gives its signed decimal value, or None (NaN) when it is not one. |
| ScheduleTimeline.PaddedDigitsNumber | boiler-mobile-app/src/components/ScheduleTimeline.tsx:31 | Digits after any JavaScript whitespace, such as U+00A0 or U+FEFF, read as their value. |
| ScheduleTimeline.SeparatorIsNotBlank | boiler-mobile-app/src/components/ScheduleTimeline.tsx:31 | U+001C..U+001F are whitespace to Python but not to `Number`, and alone they give NaN, not 0. |
| ScheduleTimeline.SlotStart | boiler-mobile-app/src/components/ScheduleTimeline.tsx:31-33 | A slot moment exists only when the split gives two numeric parts. |
| ScheduleTimeline.NoColonNoSlot | boiler-mobile-app/src/components/ScheduleTimeline.tsx:31-33 | A time without ':' is an invalid date. |
| ScheduleTimeline.IsCurrentSlot | boiler-mobile-app/src/components/ScheduleTimeline.tsx:30-37 | Only a valid slot moment can be current. |
| ScheduleTimeline.DigitsSlotStart | boiler-mobile-app/src/components/ScheduleTimeline.tsx:31-33 | A digit-only "HH:MM" lands at midnight + HH h + MM min of now's day. |
| ScheduleTimeline.CurrentIffNear | boiler-mobile-app/src/components/ScheduleTimeline.tsx:35-36 | A valid slot is current exactly when it is strictly less than 30 minutes from now. |
| ScheduleTimeline.CurrentIffWithinHalfHour | boiler-mobile-app/src/components/ScheduleTimeline.tsx:30-37 | "HH:MM" is current exactly when now lies strictly within 30 minutes of it. Exactly 30 minutes either side is not current. |
| ScheduleTimeline.NoMidnightWrap | boiler-mobile-app/src/components/ScheduleTimeline.tsx:32-36 | A slot at or after 23:30 is never current in the first half hour after midnight. |
| ScheduleTimeline.ActiveDoesNotMatter | boiler-mobile-app/src/components/ScheduleTimeline.tsx:51-59 | Whether a slot is current does not depend on its `active` flag. |
| Guardrail.CheckHardLimits | ai_boiler/src/guardrail.py:122-161 | Denies exactly a temperature above 25 or below 5, or a pressure above 3.0 or below 0.8, for the listed actions with a value. Bounds are inclusive. Only temperature denials carry an alternative: 25.0 above the limit, 5.0 below. |
| Guardrail.TemperatureBoundsInclusive | ai_boiler/src/guardrail.py:130-143 | 25.0 and 5.0 pass and 25.5 is denied. |
| Guardrail.CheckStateConsistency | ai_boiler/src/guardrail.py:163-207 | Denies exactly: timeout, 404, state "unavailable", or a climate `set_temperature` without a temperature attribute. Every other reply allows. An escaping exception is `None`. |
| Guardrail.AnyOccurs | ai_boiler/src/guardrail.py:212 | `any(k in s for k in ks)`: true exactly when some keyword occurs. |
| Guardrail.ContainsSuspiciousKeywords | ai_boiler/src/guardrail.py:209-212 | True exactly when one of the ten keywords occurs in the lower-cased input. |
| Guardrail.KeywordsIgnoreCase | ai_boiler/src/guardrail.py:211-212 | Upper-casing the input does not change the test. |
| Guardrail.EmbeddedKeywordIsSuspicious | ai_boiler/src/guardrail.py:49-52 | A keyword anywhere in the input makes it suspicious. |
| Guardrail.LlmSafetyCheck | ai_boiler/src/guardrail.py:214-278 | Passes exactly on a 200 whose stripped, upper-cased reply contains neither DANGEROUS nor SUSPICIOUS. Timeouts and errors deny. |
| Guardrail.ShortAnswerPasses | ai_boiler/src/guardrail.py:262-271 | A reply shorter than "DANGEROUS", such as "SAFE", passes. |
| Guardrail.ValidateCommand | ai_boiler/src/guardrail.py:71-120 | Allowed exactly when the hard limits pass, the state allows, and the LLM passes if a keyword occurs; allowed exactly when severity is "safe". Hard-limit denials are "danger" with their alternative, and no service is consulted. State denials are "warning". LLM denials are "danger". The LLM is consulted exactly when the first two pass and a keyword occurs. |
| Guardrail.AboveMaxDenied | ai_boiler/src/guardrail.py:84-91 | Above 25 is denied as danger with the 25.0 alternative, without the LLM, whatever the services reply. |
| Guardrail.LlmOnlyForSuspicious | ai_boiler/src/guardrail.py:105-113 | Without a keyword the verdict does not depend on the LLM reply. |
| Guardrail.EscapedStateIgnored | ai_boiler/src/guardrail.py:94-103 | An exception escaping the state check has the effect of a passing check. |
| Maintenance.NormalizeStamp | ai_boiler/src/maintenance.py:193-195 | A trailing "Z" becomes "+00:00". Any other text is kept. |
| Maintenance.ParseEntry | ai_boiler/src/maintenance.py:188-204 | An entry is skipped exactly when its state is missing or not a number, or its timestamp is missing. The value is the parsed state. The timestamp is the normalised text, or the clock when it does not parse. |
| Maintenance.Kept | ai_boiler/src/maintenance.py:187-204 | The results are those of the entries that parse, in order, never more than the entries; `KeptSkipsFailure` and `KeptKeepsSuccess` state which survive. |
| Maintenance.KeptAll | ai_boiler/src/maintenance.py:187-204 | When every entry parses, the results are the parsed entries, one per entry, in order. |
| Maintenance.KeptAppend | ai_boiler/src/maintenance.py:187-204 | The entries of two lists parse to the results of the first followed by those of the second. |
| Maintenance.KeptOne | ai_boiler/src/maintenance.py:187-204 | One entry is kept exactly when it parses. |
| Maintenance.KeptSkipsFailure | ai_boiler/src/maintenance.py:187-204 | An entry that fails to parse is dropped: the results equal those of the list without it. |
| Maintenance.KeptKeepsSuccess | ai_boiler/src/maintenance.py:187-204 | An entry that parses is kept, after the results of the entries before it and before those after it. |
| Maintenance.ParsedEntries | ai_boiler/src/maintenance.py:187-204 | Parsing never adds entries; the lemmas below say which survive. |
| Maintenance.MalformedEntryDropped | ai_boiler/src/maintenance.py:187-204 | A malformed entry is skipped, and the others are parsed as if it were not there. |
| Maintenance.WellFormedEntryKept | ai_boiler/src/maintenance.py:187-204 | A well-formed entry appears in the result, between the entries before and after it, in order. |
| Maintenance.WellFormedEntriesAllKept | ai_boiler/src/maintenance.py:187-204 | A list of well-formed entries is parsed in full, entry by entry, in order. |
| Maintenance.ParseEntries | ai_boiler/src/maintenance.py:187-207 | The loop returns `ParsedEntries` of the list. |
| Maintenance.FetchSensorHistory | ai_boiler/src/maintenance.py:139-211 | Non-200, a non-list body, an empty body and an exception all give []. Otherwise the result is the parse of the first list. |
| Maintenance.DetectPressureAnomalies | ai_boiler/src/maintenance.py:213-253 | None for fewer than 2 readings. Otherwise one `pressure_drop` exactly when max − min > 0.2, first, with that drop, "high" above 0.4 and "medium" otherwise, and the leak advice; then one `low_pressure` exactly when the mean < 1.0, with the mean, "high" and the refill advice; nothing else. |
| Maintenance.DetectTemperatureAnomalies | ai_boiler/src/maintenance.py:255-284 | Fewer than 10 readings give none. Otherwise exactly one `temperature_fluctuation` ("medium") when the variance exceeds 9, that is when σ > 3. |
| Maintenance.SteadyTemperatureNoAnomaly | ai_boiler/src/maintenance.py:263-282 | Constant readings give no fluctuation anomaly. |
| Maintenance.StateChanges | ai_boiler/src/maintenance.py:301-304 | A count of adjacent unequal readings, at most n − 1. |
| Maintenance.ConstantNoChanges | ai_boiler/src/maintenance.py:301-304 | Constant readings have no state change. |
| Maintenance.Days | ai_boiler/src/maintenance.py:307 | hours / 24 for at least 3 hours, 0.1 for at most 2 hours, so never below 0.1. |
| Maintenance.HeatingCycles | ai_boiler/src/maintenance.py:297-332 | Above 15 changes per day: exactly one `excessive_cycling` anomaly and the hysteresis suggestion. The inertia suggestion always comes last, so there are 1 or 2 suggestions. |
| Maintenance.SteadyHistoryNoCycling | ai_boiler/src/maintenance.py:301-318 | A constant history gives no cycling anomaly. |
| Maintenance.AnalyzeHeatingCycles | ai_boiler/src/maintenance.py:286-332 | `None` exactly for an empty history. Otherwise the counting loop gives `HeatingCycles`. |
| Maintenance.Deduction | ai_boiler/src/maintenance.py:342-350 | low 2, high 10, critical 20, medium and any unknown severity 5. |
| Maintenance.TotalDeduction | ai_boiler/src/maintenance.py:349-351 | At least 2 per anomaly. |
| Maintenance.HealthScore | ai_boiler/src/maintenance.py:340-353 | Within [0, 100], and 100 without anomalies. |
| Maintenance.TotalDeductionAppend | ai_boiler/src/maintenance.py:349-351 | Deductions add up over concatenation. |
| Maintenance.AppendNeverIncreasesScore | ai_boiler/src/maintenance.py:349-353 | More anomalies never raise the score. |
| Maintenance.CalculateHealthScore | ai_boiler/src/maintenance.py:334-353 | The loop returns `HealthScore`: 100 minus the deductions, clamped. |
| Maintenance.NextMaintenanceDays | ai_boiler/src/maintenance.py:355-377 | 0 days with a critical anomaly, 7 with a high one. Otherwise 14 if the score is below 70, 30 if below 85, else 90. |
| Maintenance.LowerScoreNotLater | ai_boiler/src/maintenance.py:372-377 | A lower score never schedules maintenance later. |
| Maintenance.CleanReportInNinetyDays | ai_boiler/src/maintenance.py:363-377 | No anomaly gives 90 days. |
| Maintenance.DetectorAnomalies | ai_boiler/src/maintenance.py:103-109 | "pressure" (any case) selects the pressure detector; otherwise "temperature" selects the temperature detector; otherwise none. |
| Maintenance.SensorFindings | ai_boiler/src/maintenance.py:94-116 | An empty history contributes nothing. |
| Maintenance.UnrelatedSensorsAddNothing | ai_boiler/src/maintenance.py:103-116 | Sensors whose ids name neither pressure, temperature nor climate add no anomaly and no suggestion. |
| Maintenance.AnalyzeSensor | ai_boiler/src/maintenance.py:95-116 | One loop iteration returns `SensorFindings`; "climate" (case-sensitive) adds the cycle analysis. |
| Maintenance.GenerateMaintenanceReport | ai_boiler/src/maintenance.py:73-137 | The anomalies of every sensor in order. The sensor suggestions, then the two general ones last. The score of those anomalies and the next maintenance for that score. |
| AiMain.BatchOutcome | ai_boiler/src/main.py:131-142 | A raising request is a denial with severity "danger". Any other request gets the guardrail's verdict. |
| AiMain.ValidateOne | ai_boiler/src/main.py:101-122 | 503 without a guardrail. 500 when validation raises. Otherwise the guardrail's verdict. |
| AiMain.ValidateBatch | ai_boiler/src/main.py:125-144 | 503 without a guardrail. Otherwise exactly one result per request, in request order, each the outcome of its own request. |
| AiMain.BatchAgreesWithSingle | ai_boiler/src/main.py:131-142 | Each batch element agrees with the single-command endpoint; a raising request is denied. |
| AiMain.ParseEntityIds | ai_boiler/src/main.py:168 | commas + 1 ids, none containing ',' or surrounding space. |
| AiMain.EntityListNeverEmpty | ai_boiler/src/main.py:168-171 | The list is never empty, so the 400 branch is unreachable. |
| AiMain.ParseJoinedIds | ai_boiler/src/main.py:168 | Trimmed ids joined with "," parse back to themselves. |
| AiMain.SensorsFor | ai_boiler/src/main.py:174-177 | One analyzer input per parsed id, in order. |
| AiMain.GetMaintenanceReport | ai_boiler/src/main.py:149-182 | 503 without an analyzer. Otherwise the report of the parsed ids, with the score of its anomalies and the next-maintenance estimate for those anomalies and that score. |
| AiMain.GetSafetyLimits | ai_boiler/src/main.py:207-222 | 503 without a guardrail, otherwise the limits. |
| AiMain.ReportedLimitsAreEnforced | ai_boiler/src/main.py:213-222 | A value passes the guardrail exactly when it lies within the reported limits. |
| Chatbot.JsonSpan | chatbot/chatbot_service.py:102-103 | The match exists exactly when a '{' precedes a later '}', and it runs from brace to brace. |
| Chatbot.ExtractIntent | chatbot/chatbot_service.py:57-119 | A non-200 reply, an exception, no match and a decode error all give action "unknown" with confidence 0.0. Otherwise the decoded intent. |
| Chatbot.NoBracesUnknown | chatbot/chatbot_service.py:102-109 | A reply without '{' gives the unknown intent. |
| Chatbot.ValidateCommand | chatbot/chatbot_service.py:121-151 | A non-200 reply or an exception is a denial with severity "danger". A 200 passes on the guardrail's verdict. |
| Chatbot.HaServiceFor | chatbot/chatbot_service.py:157-182 | A service exists exactly for set_temperature, turn_on and turn_off, at `/api/services/climate/<action>`. |
| Chatbot.ExecuteHaCommand | chatbot/chatbot_service.py:153-187 | A request is sent exactly for a supported action. Success exactly when it was sent and got a 200. |
| Chatbot.SuggestionOf | chatbot/chatbot_service.py:253-254 | A suggestion line exactly for a present, non-empty alternative. |
| Chatbot.ProcessMessage | chatbot/chatbot_service.py:206-293 | A `null` confidence raises. Confidence below 0.5 (missing = 0) clarifies, unvalidated, calling nothing. `get_status` reports the fetched state's temperature and current temperature, validated, when a non-empty state was fetched, and otherwise says the status is unavailable. Commands go to the guardrail; they are executed exactly when allowed. A denial is unvalidated with the reason and the optional suggestion. When allowed the reply is validated, with `action_taken` set exactly on a 200. The reply is then the execution failure on any other answer, and otherwise names the new temperature, or says switched off or on, by action. Anything else is unvalidated. |
| Chatbot.FailedExtractionIsHarmless | chatbot/chatbot_service.py:113-119 | A failed extraction clarifies and reaches no service. |
| Chatbot.UnreachableGuardrailBlocks | chatbot/chatbot_service.py:136-151 | With the guardrail down no command is sent and no action is reported. |
| Chatbot.GuardrailDenialIsFinal | chatbot/chatbot_service.py:244-260 | A command the guardrail itself denies is never sent and is never reported as validated. |
| MobileApi.InitialCacheValid | mobile_api/src/main.py:51-63 | The initial cache holds every key the status endpoint reads, each with a value of its type. |
| MobileApi.TopicKey | mobile_api/src/main.py:157-176 | Only the ten status topics map to cache keys; the setpoint state topic maps to "setpoint". |
| MobileApi.PayloadValue | mobile_api/src/main.py:158-176 | Flame is `upper(payload) == "ON"` and mode is the text. Modulation is `int(float(payload))`. Other keys take the float. A malformed number fails. |
| MobileApi.AfterMessage | mobile_api/src/main.py:151-181 | An unknown topic sets only `last_update`. A malformed payload leaves the whole cache unchanged. |
| MobileApi.AfterMessageChangesOneKey | mobile_api/src/main.py:157-178 | A good message on a status topic writes its own key and `last_update`, and no other entry. |
| MobileApi.AfterMessageValid | mobile_api/src/main.py:151-181 | Every message keeps the cache readable by the status endpoint. |
| MobileApi.GetBoilerStatus | mobile_api/src/main.py:222-236 | `enabled` exactly when mode ≠ "off". The timestamp falls back to now when no update was seen. Every other field (water, return, pressure, modulation, flame, setpoint, indoor and outdoor) is the cache's value. |
| MobileApi.SetpointMessageReadBack | mobile_api/src/main.py:169-178 | A setpoint message changes only the setpoint and timestamp of the status read afterwards. |
| MobileApi.ClientReadsServerStatus | mobile_api/src/main.py:225-236 | The app's client reads the server's status back unchanged. |
| MobileApi.WaterSetpoint | mobile_api/src/main.py:245 | clamp(t, 30, 80). |
| MobileApi.RoomTarget | mobile_api/src/main.py:263 | clamp(t, 15, 25). |
| MobileApi.CurveWater | mobile_api/src/main.py:265-267 | The unclamped curve is 35 at a room target equal to the outdoor temperature, above 35 for a warmer target and below for a colder one. |
| MobileApi.RoomToWater | mobile_api/src/main.py:263-268 | clamp(35 + 1.5·(clamp(t, 15, 25) − outdoor), 30, 80). |
| MobileApi.RoomToWaterMonotone | mobile_api/src/main.py:263-268 | A warmer room target never asks for cooler water. |
| MobileApi.RoomCurveDistinguishesTargets | mobile_api/src/main.py:263-268 | Away from the clamps, different room targets give different setpoints. |
| MobileApi.DialTargetBecomesWaterMinimum | mobile_api/src/main.py:238-247 | Every dial target 5..30 is posted as water setpoint 30, which the app reads back as its target. |
| MobileApi.DialTargetEchoedAsWaterMinimum | ot_simulator/sim_otgw.py:60-100 | Through the boiler simulator, the posted 30 is stored and echoed as 30, and the echo read back gives the app room target 30. |
| MobileApi.Service.constructor | mobile_api/src/main.py:51-67 | The initial cache, no connection, no client, nothing published. |
| MobileApi.Service.StartClient | mobile_api/src/main.py:188-200 | The client exists afterwards; nothing else changes. |
| MobileApi.Service.OnConnect | mobile_api/src/main.py:125-149 | Connected exactly when rc = 0. |
| MobileApi.Service.OnDisconnect | mobile_api/src/main.py:183-186 | Not connected afterwards. |
| MobileApi.Service.OnMessage | mobile_api/src/main.py:151-181 | The cache becomes `AfterMessage` of the old cache; nothing else changes. |
| MobileApi.Service.SetTemperature | mobile_api/src/main.py:238-254 | 503 and nothing published without a connection. Otherwise publishes and returns clamp(t, 30, 80). |
| MobileApi.Service.SetRoomTemperature | mobile_api/src/main.py:256-278 | 503 without a connection. Otherwise publishes `RoomToWater` of the cached outdoor temperature as the setpoint and returns the clamped room target with that water setpoint. |
| MobileApi.Service.SetMode | mobile_api/src/main.py:280-298 | 503 without a connection. Otherwise publishes "heat" or "off" to the mode topic. |
| SimOtgw.ModeIgnoresCase | ot_simulator/sim_otgw.py:66-75 | The mode command is case-insensitive. |
| SimOtgw.ModeState | ot_simulator/sim_otgw.py:66-75 | The published mode is "heat" exactly when enabled. |
| SimOtgw.SetpointCommand | ot_simulator/sim_otgw.py:78-87 | Defined exactly for a numeric payload. The stored value is clamp(value, 30, 80), case by case. |
| SimOtgw.SetpointRoundTrip | ot_simulator/sim_otgw.py:78-87 | A whole-degree setpoint from 30 to 80 is stored as sent. |
| SimOtgw.ClimateCurveSetpoint | ot_simulator/sim_otgw.py:102-119 | Always in [35, 80]. 35 at or above 20 °C outside, 80 at or below −10 °C, the linear curve between. |
| SimOtgw.ClimateCurveMonotone | ot_simulator/sim_otgw.py:110-119 | Colder outside never asks for cooler water. |
| SimOtgw.TargetModulation | ot_simulator/sim_otgw.py:124-150 | 0 when disabled. Otherwise 3·(setpoint − boiler) + 0.3·demand, cut to 100 above and to 0 below. |
| SimOtgw.StepModulation | ot_simulator/sim_otgw.py:152-160 | Stays in [0, 100] and moves by at most 2.0 toward the target without overshooting. |
| SimOtgw.ModulationReachesTarget | ot_simulator/sim_otgw.py:152-160 | A steady target at most 2k away is reached within k steps. |
| SimOtgw.ModulationStaysAtTarget | ot_simulator/sim_otgw.py:152-160 | At the target the modulation stays there. |
| SimOtgw.Step | ot_simulator/sim_otgw.py:121-193 | One physics step. The modulation is the rate-limited step, and the flame is on exactly above 5 %. Boiler and return stay in [20, 80] and pressure in [0.5, 3.0] for any noise. With the flame off the boiler never warms. Mode, setpoint and sensor inputs are kept. |
| SimOtgw.Simulator.constructor | ot_simulator/sim_otgw.py:31-42 | The initial state, with the retained setpoint and mode messages published. |
| SimOtgw.CommandOf | ot_simulator/sim_otgw.py:60-97 | Each of the five command topics is recognised exactly when the topic equals it. |
| SimOtgw.ReceivedChangesOwnField | ot_simulator/sim_otgw.py:60-100 | Each topic updates only its own field. A non-numeric payload or an unknown topic changes nothing. Only a mode command and a numeric setpoint publish, and each publishes its new state. |
| SimOtgw.Received | ot_simulator/sim_otgw.py:60-100 | At most one message is published. The boiler, return, modulation, pressure and flame fields never change. An unknown topic, or a non-numeric payload on any topic but the mode command, changes nothing. |
| SimOtgw.Simulator.OnMessage | ot_simulator/sim_otgw.py:60-100 | The new state and the appended messages are those of `Received`, whose properties `ReceivedChangesOwnField` states. |
| SimOtgw.Simulator.SetMode | ot_simulator/sim_otgw.py:66-75 | Only the enabled flag changes, and the matching mode state is published. |
| SimOtgw.Simulator.SetSetpoint | ot_simulator/sim_otgw.py:78-87 | Only the setpoint changes, and the new value is published. |
| SimOtgw.Simulator.SetReading | ot_simulator/sim_otgw.py:89-97 | A reading goes into the field its topic names. Any other topic changes nothing. Nothing is published. |
| SimOtgw.Simulator.UpdatePhysics | ot_simulator/sim_otgw.py:121-193 | The new state is `Step` of the old one, and nothing is published. |
| SimOtgw.Simulator.UpdateModulation | ot_simulator/sim_otgw.py:124-163 | The new state is `Modulate` of the old one: the rate-limited modulation and the flame. |
| SimOtgw.Simulator.UpdateTemperatures | ot_simulator/sim_otgw.py:165-193 | The new state is `Heat` of the old one: heating, cooling, return lag, pressure and the clamps. |
| SimWindows.WindowIdsAreKeys | window_simulator/sim_windows.py:16-21 | The id list and the dictionary's keys are the same four windows. |
| SimWindows.AddressedWindow | window_simulator/sim_windows.py:39-45 | Only a known window is addressed, and never by a topic with fewer than 3 parts. |
| SimWindows.WindowTopicAddressesWindow | window_simulator/sim_windows.py:39-45 | Every topic built for a window parses back to that window. |
| SimWindows.NextState | window_simulator/sim_windows.py:46-54 | on/open/1 gives "on", off/close/closed/0 gives "off", in any case. Anything else keeps the state. |
| SimWindows.NextStateIdempotent | window_simulator/sim_windows.py:46-54 | Repeating a command changes nothing more. |
| SimWindows.NextStateIgnoresCase | window_simulator/sim_windows.py:46-54 | Upper-casing the payload does not change the result. |
| SimWindows.AllStateMessagesAt | window_simulator/sim_windows.py:108-111 | Window k's state is message 2k on `.../window_<id>/state`, and its attributes are message 2k+1 on `.../attributes`. |
| SimWindows.DiscoveryCommandRoundTrip | window_simulator/sim_windows.py:79-106 | The advertised command topic addresses its window. The advertised on/off payloads set on/off. |
| SimWindows.WindowSimulator.constructor | window_simulator/sim_windows.py:16-21 | The four initial windows, nothing published. |
| SimWindows.WindowSimulator.OnMessage | window_simulator/sim_windows.py:34-59 | An unaddressed topic changes nothing. Otherwise only that window's state changes, room names are untouched, and its state is republished even for an unknown payload. |
| SimWindows.WindowSimulator.PublishWindowState | window_simulator/sim_windows.py:61-77 | Appends the state and attributes messages. |
| SimWindows.WindowSimulator.PublishAllStates | window_simulator/sim_windows.py:108-111 | Appends every window's messages, in dictionary order. |
| SimWindows.WindowSimulator.PublishStates | window_simulator/sim_windows.py:108-111 | For any list of known ids: appends their messages, in order, and leaves the windows unchanged. |
| SimWindows.WindowSimulator.DiscoveryConfigs | window_simulator/sim_windows.py:79-106 | One record per window, with `unique_id` `window_sim_<id>` and command topic `.../window_<id>/set`. |
| SimThermal.PublishedStatesReadBack | thermal_simulator/sim_thermal.py:76-78 | The window simulator's "on"/"off" read as open/closed. |
| SimThermal.WindowOpens | thermal_simulator/sim_thermal.py:76-78 | Open exactly for "on", "open" or "1" in any case: upper-casing the payload first gives the same answer. |
| SimThermal.FirstWindow | thermal_simulator/sim_thermal.py:73-84 | The first window, in order, whose `window_<id>` occurs in the topic. |
| SimThermal.WindowsAfter | thermal_simulator/sim_thermal.py:73-84 | No window is lost. When some window's `window_<id>` occurs in the topic, the first such window in id order takes the payload's state and no other changes. When none occurs, or the topic lacks "window_", nothing changes. |
| SimThermal.WindowTagHasPrefix | thermal_simulator/sim_thermal.py:73-75 | A topic naming a window passes the outer `"window_" in topic` test. |
| SimThermal.NoPrefixNoWindow | thermal_simulator/sim_thermal.py:73-75 | Without "window_" no window matches. |
| SimThermal.StateTopicAddressesFirstWindow | thermal_simulator/sim_thermal.py:73-84 | The window simulator's state topic of the first window selects that window. |
| SimThermal.OpenCount | thermal_simulator/sim_thermal.py:101 | At most the number of windows. |
| SimThermal.OpenCountZero | thermal_simulator/sim_thermal.py:101 | The count is 0 exactly when no window is open. |
| SimThermal.OpeningAddsOne | thermal_simulator/sim_thermal.py:101 | Opening a closed window adds exactly one. |
| SimThermal.OpenCountUnchanged | thermal_simulator/sim_thermal.py:101 | A window outside the list does not change the count. |
| SimThermal.UValue | thermal_simulator/sim_thermal.py:104-108 | 0.5 + 0.4 × the open count. |
| SimThermal.HeatLoss | thermal_simulator/sim_thermal.py:98-114 | Heat is lost exactly in the direction of the temperature difference. |
| SimThermal.MoreOpenWindowsLoseMore | thermal_simulator/sim_thermal.py:104-114 | On a cold day more open windows lose more heat. |
| SimThermal.HeatProvided | thermal_simulator/sim_thermal.py:116-130 | 0 when supply ≤ return, otherwise min(0.3·4.186·Δ, 8)·DT. Always within [0, 8·DT]. |
| SimThermal.IndoorAfter | thermal_simulator/sim_thermal.py:132-146 | At least outdoor − 2, and at most 30 when outdoor ≤ 32. Unclamped inside those limits. |
| SimThermal.HeatingDemand | thermal_simulator/sim_thermal.py:148-158 | clamp(20·(target − indoor), 0, 100), case by case. |
| SimThermal.DemandFallsAsHouseWarms | thermal_simulator/sim_thermal.py:148-158 | A warmer house never asks for more heat. |
| SimThermal.Thermal.constructor | thermal_simulator/sim_thermal.py:29-45 | The initial state and four closed windows. |
| SimThermal.Thermal.OnMessage | thermal_simulator/sim_thermal.py:62-87 | Boiler readings update their fields, and a malformed number keeps them. Otherwise the first matching window is set open exactly for on/open/1. Nothing else changes. |
| SimThermal.Thermal.UpdateBoilerReading | thermal_simulator/sim_thermal.py:66-70 | A numeric payload replaces the boiler or return reading, a malformed one keeps it, and nothing else changes. |
| SimThermal.Thermal.UpdateWindow | thermal_simulator/sim_thermal.py:73-84 | The windows become `WindowsAfter`: only the first window the topic names changes. Every other field is kept. |
| SimThermal.Thermal.CalculateHeatLoss | thermal_simulator/sim_thermal.py:98-114 | Stores the open count and returns `HeatLoss` for it. |
| SimThermal.Thermal.UpdateIndoorTemperature | thermal_simulator/sim_thermal.py:132-146 | The new indoor temperature is `IndoorAfter` of provided heat and loss. |
| SimThermal.Thermal.CalculateHeatingDemand | thermal_simulator/sim_thermal.py:148-158 | Stores `HeatingDemand` of target and indoor. |
| SimThermal.Thermal.Tick | thermal_simulator/sim_thermal.py:216-237 | One pass of the main loop: the new indoor temperature is `IndoorAfter` of the old one with the boiler's heat and the window-dependent loss, stays within its limits, and demand and count are up to date. |

## Left out

- Transport: HTTP, MQTT connect/subscribe and broker delivery, WebSockets and start-up hooks are not modelled. Their results are parameters, and publishing is an outbox sequence.
- Timers: the 8-second `Promise.race` timeout is the failure outcome (the client getters catch their own errors, so nothing else fails a refresh), and the banner's 3-second timer is a pending flag. `setInterval`/`setTimeout` scheduling and the simulators' sleep loops are not modelled.
- Concurrency: two overlapping refreshes, and a banner re-render while `retryConnection` is awaited, are not modelled. `ConnectionStatusBar.StatusBar.HandleRetry` runs the retry atomically.
- Floating point: reals are exact. `round(…, 1)`, `round(…, 2)`, `toFixed` and the float formatting of published payloads are not modelled.
- Maintenance.DetectTemperatureAnomalies: compares the sample variance with 9 instead of taking `statistics.stdev`'s square root; the two tests agree for σ ≥ 0. For the same reason the anomaly's `measured` field holds the variance, not the σ its description prints.
- Text.ParseFloat: reads decimal text with an optional sign and dot only. Exponents, "inf", "nan", underscores and non-ASCII decimal digits, which Python's `float` also accepts, are treated as not a number.
- ScheduleTimeline.JsNumber: reads decimal text only. JavaScript's exponent ("1e3"), hexadecimal ("0x1A"), binary, octal and "Infinity" forms of `Number` give None (NaN) here, because the parse after trimming is `Text.ParseSignedDecimal`.
- Upper- and lower-casing cover ASCII letters only.
- ScheduleTimeline.IsCurrentSlot: `dayStart` is the local midnight of now's day. Daylight-saving shifts in `setHours` are not modelled.
- The thermal simulator's sinusoidal outdoor temperature is the parameter of `SimThermal.Thermal.Tick`. Both simulators' `publish_telemetry` is not modelled. The OpenTherm simulator's random pressure noise is the parameter of `SimOtgw.Simulator.UpdatePhysics`.
- `U_VALUE_OPEN` in sim_thermal.py is unused by the source and therefore by the model. The OpenTherm simulator's climate curve is computed but does not drive `update_physics`, in the source as in the model.
- The AI service's `/`, `/health`, `/maintenance/anomalies` and `/optimizations` wrappers are not modelled. The report endpoint's 400 branch is unreachable, as `AiMain.EntityListNeverEmpty` proves; its 500 branch never fires, because the modelled analyzer does not raise.
- AiMain.GetSafetyLimits: the reported values are the guardrail's constants. `AiMain.ReportedLimitsAreEnforced` states that they are enforced, not their display text.
- What LLMs answer, and the prompt text, are not modelled. JSON decoding in the chatbot is the parameter `decode`.
- The chatbot's `/chat` endpoint wrapper and its status reply text, including the "N/A" placeholders, are not modelled. `Chatbot.ProcessMessage` returns which reply is given and the values it names.
- PocketBase, the MCP server, the login, chat-forwarding, schedules, history and environment endpoints of the mobile API, and `turnOnBoiler`/`turnOffBoiler`/`getMaintenanceReport` of the app's client are not modelled. They are thin wrappers.
- Rendering: colours, icons, the pulse animation, the dial's `strokeDashoffset` and every screen are presentation only.
- The window simulator's device block in its discovery records is the same for every window and is not modelled.
- SimWindows.WindowSimulator.DiscoveryConfigs: returns the discovery records instead of publishing each one, and the retain flag of those publishes is not modelled.
- Clock readings (`datetime.now()`, `new Date()`) are parameters.

## Findings

| source | as written | input that shows it | evidently intended | confidence | as-written member | corrected member |
|---|---|---|---|---|---|---|
| boiler-mobile-app/src/contexts/DataContext.tsx:154-164 | The interval is re-armed only when `connectionStatus` changes. The `refreshData` it keeps captured the status and retry count of that render. | Every refresh outlives the 8-second timeout (the requests hang), app in connecting with count 0. Every timeout writes connecting again, so the effect never re-runs; the kept closure still sees count 0 and never chooses offline, while the count keeps rising. | The third consecutive failure goes offline. | medium, not executed | DataContext.StaleIntervalStaysConnecting | DataContext.FreshRefreshReachesOffline |
| mobile_api/src/main.py:238-247 | The app's `setTargetTemperature` (MobileApiClient.ts:203-222) posts the dial's room target to `/boiler/set_temperature`. That endpoint clamps it as a water temperature to [30, 80]. | Dial target 21 (range 5–30) is published as water setpoint 30. The app then reads 30 back as its room target. | The room target goes to `/boiler/set_room_temperature`, which maps it along the climate curve and keeps different targets apart. | medium, not executed | MobileApi.DialTargetBecomesWaterMinimum | MobileApi.RoomCurveDistinguishesTargets |
