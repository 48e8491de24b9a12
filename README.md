# Patient monitoring core, modelled in Dafny

This project models the two services at the heart of a small patient-monitoring
dashboard:

- **The patient service** classifies each patient as stable, watch or critical.
  It compares the latest heart rate, temperature and blood pressure with
  age-banded thresholds. It turns out-of-range readings into alerts, each with
  a deterministic id (`heartRate-critical-7`) and a French message. It gathers
  the alerts of the whole roster newest first and keeps the critical ones. It
  also looks patients up by id and by a case-insensitive text query.
- **The realtime service** is a vital-sign simulator. On every tick it moves
  each reading by a bounded random step. Heart rate and blood pressure are
  clamped to age-banded ranges, saturation to 90–100 % at every age, and
  temperature is not clamped. Each tick appends one reading to
  each of the four histories and drops at most the oldest one: a history of
  at most 24 readings stays within 24, and a longer one keeps its length. The service is started
  and stopped idempotently, and keeps two lists of subscribers.

Modules:

| file | module | contents |
|---|---|---|
| `patient.dfy` | `PatientTypes` | patients, vitals, statuses, alerts |
| `seqs.dfy` | `Seqs` | `filter`/`indexOf`/`splice` on sequences, and the facts about `filter` the services rely on |
| `text.dfy` | `Text` | integer printing and parsing, ASCII lower-casing, substring search |
| `classifier.dfy` | `Classifier` | threshold tables, status, status colour |
| `alerts.dfy` | `Alerts` | alert creation, per-patient generation, aggregation and the stable newest-first sort |
| `roster.dfy` | `Roster` | lookup by id and text search |
| `realtime.dfy` | `Realtime` | window, generators, per-tick update, and the `RealtimeService` class |

Modelling choices:

- Temperatures are whole numbers of tenths of a degree, so 37.5 °C is `375`.
  The thresholds 29, 42.6, 36.3 and 37.5 °C become 290, 426, 363 and 375.
- Randomness and the clock are parameters.
  - A `Perturbation` holds the rounded variation drawn for each vital of one
    patient on one tick. `ValidPerturbation` states the ranges
    `Math.round(current + Math.random() * 2k - k)` can produce: ±10 bpm,
    ±3 tenths, ±5 and ±4 mmHg, ±1 %.
  - `now` is the `new Date()` of one patient's evaluation. `clock[i]` is the
    time at which patient `i` of the roster is evaluated.
- The sort in `getAllAlerts` is `Array.prototype.sort` with comparator
  `b.timestamp - a.timestamp`. JavaScript requires that sort to be stable. The
  model is a stable insertion sort, proved sorted, a permutation, and
  order-preserving among equal timestamps.
- The simulator's patient and alert listeners are opaque callbacks, modelled
  by natural-number identities. `unsubscribe` compares them as `indexOf` does.

On each tick, the realtime service hands its alert subscribers `PatientService.getInstance().getCriticalAlerts()`
(src/services/realtimeService.ts:47-52). That is computed from the patient
service's own roster, loaded once from the data file, and not from the
simulated patients. So the alerts handed out never reflect the simulated
readings. `RealtimeService.Tick` takes that roster as a separate parameter
`serviceRoster` to make this visible.

## Model

| member | source | states |
|---|---|---|
| Classifier.GetHeartRateLimits | src/services/patientService.ts:77-94 | in every age band the warning interval lies strictly inside the critical one |
| Classifier.GetBloodPressureLimits | src/services/patientService.ts:114-125 | in both age bands each warning ceiling is strictly below its critical ceiling |
| Classifier.IsCriticalHeartRate | src/services/patientService.ts:67-70 | outside the age band's critical interval: at every age, below 50 or above 150 bpm is critical and 60–100 bpm is not; a critical heart rate is also a warning one |
| Classifier.IsWarningHeartRate | src/services/patientService.ts:72-75 | outside the age band's warning interval: at every age, below 60 or above 120 bpm is in warning, and 80 bpm is normal in every band |
| Classifier.IsCriticalTemperature | src/services/patientService.ts:96-98 | a critical temperature (below 29 °C or above 42.6 °C) is also a warning one |
| Classifier.IsWarningTemperature | src/services/patientService.ts:100-102 | a temperature not in warning reads 36.x or 37.x °C |
| Classifier.IsCriticalBloodPressure | src/services/patientService.ts:104-107 | at every age, above 180/110 mmHg is critical and at or below 160/100 mmHg is not; a critical blood pressure is also a warning one |
| Classifier.IsWarningBloodPressure | src/services/patientService.ts:109-112 | at every age, above 170/90 mmHg is in warning and at or below 140/80 mmHg is not |
| Classifier.GetLatestVitals | src/services/patientService.ts:42-49 | each returned reading is the newest of its history: the history is its older readings followed by it |
| Classifier.HasCriticalVitals | src/services/patientService.ts:51-57 | when some latest vital is critical, some latest vital is also in warning |
| Classifier.HasWarningVitals | src/services/patientService.ts:59-65 | when no latest vital is in warning, none is critical either |
| Classifier.CriticalImpliesWarning | src/services/patientService.ts:67-112 | a critical heart rate, temperature or blood pressure is also a warning one, so critical vitals imply warning vitals |
| Classifier.GetPatientStatus | src/services/patientService.ts:33-65 | critical exactly when some latest vital is critical; stable exactly when none is in warning; watch exactly when one is in warning and none is critical |
| Classifier.GetStatusColor | src/services/patientService.ts:127-138 | the three statuses never fall to the grey default |
| Classifier.StatusColorInjective | src/services/patientService.ts:127-138 | distinct statuses get distinct colours |
| Classifier.HeartRateLevelMonotone | src/services/patientService.ts:67-94 | moving a heart rate further from the age band's normal interval never lowers its severity |
| Classifier.TemperatureLevelMonotone | src/services/patientService.ts:96-102 | moving a temperature further from 36.3–37.5 °C never lowers its severity |
| Classifier.BloodPressureLevelMonotone | src/services/patientService.ts:104-125 | raising either pressure never lowers the severity |
| Classifier.LowBloodPressureIsNormal | src/services/patientService.ts:104-112 | only ceilings are checked, so a reading at or below both warning ceilings is neither warning nor critical |
| Classifier.ElderlyHeartRateScenario | src/services/patientService.ts:84-89 | at age 70 with normal temperature and pressure, 95 bpm is watch and 105 bpm is critical |
| Classifier.ChildFeverScenario | src/services/patientService.ts:96-98 | a 10-year-old at 43.0 °C is critical |
| Alerts.AlertId | src/services/patientService.ts:196 | an alert id parses back to exactly its vital type, severity and patient id, negative ids included |
| Alerts.AlertIdInjective | src/services/patientService.ts:196 | two ids are equal only for the same vital type, severity and patient |
| Alerts.HeartRateAlertIdScenario | src/services/patientService.ts:196 | a critical heart-rate alert of patient 7 has id `heartRate-critical-7` |
| Alerts.CreateAlert | src/services/patientService.ts:182-203 | the alert has the given patient, vital type, severity and timestamp |
| Alerts.CreateAlertWellKeyed | src/services/patientService.ts:196 | the created alert's id reads back as its own type, severity and patient |
| Alerts.CreateAlertMessage | src/services/patientService.ts:188-199 | the message is the French type label, the severity label ("critique" or "élevée"), a colon, then the formatted reading |
| Alerts.CheckAlert | src/services/patientService.ts:167-177 | one check raises at most one alert; it raises one exactly when it is critical or in warning, and critical wins |
| Alerts.RaiseAlerts | src/services/patientService.ts:167-177 | at most one alert per check, all for this patient at this time |
| Alerts.GenerateAlerts | src/services/patientService.ts:140-180 | at most three alerts, all for this patient and stamped with the evaluation time |
| Alerts.RaiseAlertsTrace | src/services/patientService.ts:167-177 | the raised alerts have, in order, exactly the vitals and severities their checks raise |
| Alerts.VitalChecks | src/services/patientService.ts:143-165 | three checks, heart rate, temperature and blood pressure in that order; a check that is critical is also in warning |
| Alerts.VitalChecksCallFor | src/services/patientService.ts:143-165 | the check list is heart rate, temperature, blood pressure, and each entry raises what its reading calls for |
| Alerts.GenerateAlertsKinds | src/services/patientService.ts:140-180 | the alerts are exactly those the latest readings call for, in the order heart rate, temperature, blood pressure |
| Alerts.GenerateAlertsPerVital | src/services/patientService.ts:140-180 | alerts come in check order with no vital twice; each has the severity its reading calls for; every vital calling for an alert has one |
| Alerts.GenerateAlertsNoOxygen | src/services/patientService.ts:143-165 | no alert is ever about oxygen saturation |
| Alerts.GenerateAlertsEmptyIffStable | src/services/patientService.ts:33-40 | a patient has no alert exactly when its status is stable |
| Alerts.GenerateAlertsCriticalIffCritical | src/services/patientService.ts:33-40 | a patient has a critical alert exactly when its status is critical |
| Alerts.GenerateAlertsDistinctIds | src/services/patientService.ts:196 | no two alerts of one evaluation share an id |
| Alerts.GenerateAlertsIdempotent | src/services/patientService.ts:140-203 | evaluating an unchanged patient again gives the same alerts, ids and messages, differing only in timestamp |
| Alerts.ConcatAlerts | src/services/patientService.ts:206-209 | at most 3·n alerts for n patients, each for some roster patient and stamped with that patient's evaluation time |
| Alerts.SortByTime | src/services/patientService.ts:210 | the sorted alerts are newest first and a permutation of the input |
| Alerts.SortByTimeStable | src/services/patientService.ts:210 | alerts with equal timestamps keep their input order |
| Alerts.SortByTimeSortedInput | src/services/patientService.ts:210 | a list already newest first is returned unchanged |
| Alerts.InsertByTimeStable | src/services/patientService.ts:210 | inserting an alert puts it before the alerts of the list that share its timestamp, and keeps their order |
| Seqs.FilterPermutation | src/services/patientService.ts:214 | filtering two permutations of a list gives permutations of one list |
| Alerts.FilterKeepsNewestFirst | src/services/patientService.ts:214 | filtering a newest-first list keeps it newest first |
| Alerts.GetAllAlerts | src/services/patientService.ts:205-211 | every patient's alerts, concatenated in roster order then stably sorted: newest first, and a permutation of the concatenation |
| Alerts.GetCriticalAlerts | src/services/patientService.ts:213-215 | the critical alerts of the sorted list in its order: all critical, newest first, and a permutation of the critical alerts of the roster |
| Roster.GetPatientById | src/services/patientService.ts:19-21 | nothing exactly when no patient has the id; otherwise a roster patient with that id, namely the first one |
| Roster.SearchPatients | src/services/patientService.ts:23-31 | a patient is in the result exactly when it is in the roster and its lower-cased first name, last name or record number contains the lower-cased query, and each matching patient appears as many times as in the roster |
| Roster.SearchPatientsKeepsOrder | src/services/patientService.ts:25 | the results keep the roster's order |
| Roster.SearchEmptyQuery | src/services/patientService.ts:23-31 | the empty query returns the whole roster |
| Roster.SearchIgnoresQueryCase | src/services/patientService.ts:24 | a query and its lower-cased form find the same patients |
| Roster.SearchFindsRecordNumber | src/services/patientService.ts:29 | a patient is found by its own medical record number |
| Text.IntToStringRoundTrip | src/services/patientService.ts:196 | an integer printed as a template literal (below 10^21 in magnitude) parses back to itself |
| Text.Contains | src/services/patientService.ts:27-29 | `includes` holds exactly when the needle occurs at some position |
| Text.LowerAsciiIdempotent | src/services/patientService.ts:24-29 | lower-casing twice is lower-casing once |
| Realtime.Window | src/services/realtimeService.ts:97-113 | pushing then shifting past 24 grows a history by one until it holds 24, then keeps its length |
| Realtime.WindowIsSuffix | src/services/realtimeService.ts:97-113 | the window is the newest readings of the history extended by the new one, and ends with it |
| Realtime.WindowKeepsOlder | src/services/realtimeService.ts:97-113 | the older readings that stay keep their order |
| Realtime.WindowBounded | src/services/realtimeService.ts:102-113 | a history within 24 readings stays within 24 |
| Realtime.WindowAllSuffix | src/services/realtimeService.ts:97-113 | from a history of at most 24 readings, after any run of ticks it holds the newest min(old length + ticks, 24) readings of the old history followed by the new ones |
| Realtime.WindowAllFull | src/services/realtimeService.ts:102-113 | from a history of at most 24 readings, after 24 or more ticks it holds exactly the 24 newest readings |
| Realtime.WindowAllLong | src/services/realtimeService.ts:102-113 | a history longer than 24 readings is shifted once per tick, so it keeps its length and never shrinks to 24 |
| Realtime.Clamp | src/services/realtimeService.ts:124 | `Math.max(lo, Math.min(hi, x))` lies in [lo, hi] and leaves in-range values alone |
| Realtime.ClampStep | src/services/realtimeService.ts:124 | clamping a step that starts in range never moves further than the step |
| Realtime.GenerateNewHeartRate | src/services/realtimeService.ts:116-125 | the new heart rate lies in 60–150 under 18, 50–100 from 65 and 50–120 between, and is the plain sum when that is in range |
| Realtime.GenerateNewTemperature | src/services/realtimeService.ts:127-132 | the temperature moves by exactly the drawn variation, unclamped |
| Realtime.GenerateNewBloodPressure | src/services/realtimeService.ts:134-150 | systolic and diastolic lie in their age band's ranges and are the plain sums when those are in range |
| Realtime.GenerateNewOxygenSaturation | src/services/realtimeService.ts:152-157 | the saturation lies in 90–100 and is the plain sum when that is in range |
| Realtime.UpdatedPatient | src/services/realtimeService.ts:79-114 | a tick leaves a patient's identity and age unchanged and every history non-empty |
| Realtime.UpdatedPatientLengths | src/services/realtimeService.ts:97-113 | histories of one length within the window stay of one length and grow by one up to 24 |
| Realtime.SimulateLengths | src/services/realtimeService.ts:97-113 | over n ticks, histories of common length L within the window all have length min(L + n, 24) |
| Realtime.UpdatedPatientStep | src/services/realtimeService.ts:116-132 | with variations in their ranges, an in-range heart rate moves by at most 10 bpm and a temperature by at most 0.3 °C |
| Realtime.SimulatedBloodPressureNeverCritical | src/services/realtimeService.ts:141-149 | a simulated blood pressure is never critical, since each range's top is the critical ceiling |
| Realtime.SimulatedChildHeartRateNeverCritical | src/services/realtimeService.ts:121-124 | a child's simulated heart rate is never critical, since its range is the critical interval |
| Realtime.SimulatedElderlyHeartRateNotHigh | src/services/realtimeService.ts:121-124 | an elderly patient's simulated heart rate never exceeds the critical maximum of 100 bpm |
| Realtime.SimulatedAdultHeartRateCanBeCritical | src/services/realtimeService.ts:121-124 | an adult's heart rate can be driven into the critical band, from 100 to 110 bpm |
| Realtime.UpdatedRoster | src/services/realtimeService.ts:73-77 | a tick keeps every patient in place with its id and age, simulable and classifiable |
| Realtime.Without | src/services/realtimeService.ts:25-30 | unsubscribing a subscribed callback removes its first occurrence and keeps the other callbacks in order; an unsubscribed callback leaves the list alone |
| Realtime.WithoutAppended | src/services/realtimeService.ts:21-30 | subscribing a new callback then unsubscribing it restores the list |
| Realtime.WithoutOnce | src/services/realtimeService.ts:25-30 | a callback subscribed twice stays subscribed after one unsubscribe |
| Realtime.RealtimeService.constructor | src/services/realtimeService.ts:5-8 | a new service is stopped, with no subscribers and no patients |
| Realtime.RealtimeService.SetPatients | src/services/realtimeService.ts:17-19 | the roster is replaced wholesale; nothing else changes |
| Realtime.RealtimeService.Subscribe | src/services/realtimeService.ts:21-23 | the callback is appended to the patient listeners only |
| Realtime.RealtimeService.Unsubscribe | src/services/realtimeService.ts:25-30 | the patient listeners lose the first occurrence of the callback, if any; nothing else changes |
| Realtime.RealtimeService.SubscribeToAlerts | src/services/realtimeService.ts:32-34 | the callback is appended to the alert listeners only |
| Realtime.RealtimeService.UnsubscribeFromAlerts | src/services/realtimeService.ts:36-41 | the alert listeners lose the first occurrence of the callback, if any; nothing else changes |
| Realtime.RealtimeService.StartRealTimeUpdates | src/services/realtimeService.ts:54-64 | afterwards the service is running; a pending interval is kept, so a second start changes nothing; nothing else changes |
| Realtime.RealtimeService.StopRealTimeUpdates | src/services/realtimeService.ts:66-71 | afterwards no interval is pending, whether or not one was; nothing else changes |
| Realtime.RealtimeService.IsRunning | src/services/realtimeService.ts:163-165 | running exactly when an update interval is pending |
| Realtime.RealtimeService.GetPatients | src/services/realtimeService.ts:159-161 | returns the simulated roster |
| Realtime.RealtimeService.UpdatePatientVital | src/services/realtimeService.ts:79-114 | one patient's histories each get the new reading and are shifted past 24; every other patient is untouched |
| Realtime.RealtimeService.UpdatePatientVitals | src/services/realtimeService.ts:73-77 | every patient advances by one tick, in roster order |
| Realtime.RealtimeService.Tick | src/services/realtimeService.ts:59-63 | a tick advances every patient, hands the listeners the updated roster, and hands the alert listeners the patient service's critical alerts |

## Left out

- The singletons (`getInstance`) and `getAllPatients`: a roster is passed explicitly, and `getAllPatients` returns it unchanged.
- Loading the roster from the JSON data file: the roster is a parameter.
- The JSON deep copy in `setPatients`: values in the model have no aliasing, so the plain assignment already acts as the deep copy; later ticks change the service's roster and leave the caller's as it was. The model does not capture that `getPatients` hands out the live internal array.
- The timer: `setInterval` becomes the `handle` parameter of `StartRealTimeUpdates`, `clearInterval` is not modelled, and a tick is an explicit `Tick` call. Handles are taken to be truthy, as the ones `setInterval` returns are.
- Invoking the listener callbacks (`notifyListeners`, `notifyAlertListeners`): `Tick` returns what each listener would receive.
- `Math.random`: replaced by the `Perturbation` parameter. Rounding of the drawn variation is folded into its integer value.
- Floating-point temperatures: temperatures are whole tenths, and rounding to one decimal is exact. Readings in the data that are not whole tenths, and binary rounding error, are not modelled.
- `new Date()`: replaced by the `now`/`clock` parameters.
- Alerts.GenerateAlerts: stamps every alert of one patient with one time (and so does Alerts.ConcatAlerts, which calls it), although the source calls `new Date()` once per alert.
- Text.IntToString: follows JavaScript's printing of integers only below 10^21 in magnitude; JavaScript prints larger numbers in exponent form (`1e+21`), so ids of such patients are not modelled.
- `toLowerCase` is modelled on ASCII letters only; other Unicode case mappings are not modelled.
- The unused `baseRate` in `generateNewHeartRate` has no effect and is not modelled.
- Classifier.GetLatestVitals: requires non-empty heart-rate, temperature and blood-pressure histories. Realtime.UpdatedPatient also requires a non-empty saturation history. In the source an empty history yields `undefined`: an empty heart rate or temperature silently counts as normal, an empty blood pressure throws, and the simulator pushes `NaN` for an empty heart-rate, temperature or saturation history but throws on an empty blood-pressure history before pushing anything.
- Classifier.GetStatusColor: the `'gray'` default is unreachable with the three statuses, so the model has no branch for it.
- The `any` typing of alert listeners and the `type as any` cast in `createAlert` are not modelled: the vital type is a closed datatype.
