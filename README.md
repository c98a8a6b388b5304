# Landslide monitoring backend — a Dafny model

This project models the decision logic of the Python backend of a landslide
monitoring service. Field stations carry GNSS receivers, rain gauges, water
level gauges and IMUs. Their readings arrive over MQTT. The bridge turns each
reading into processed data, analyses it against per-station thresholds,
pushes it to browsers over a throttled WebSocket and saves it to a database.
An HTTP API serves station lists and details, with risk levels and
online/offline status, and lets administrators edit station configuration.

The model covers these parts:

- **Risk rules** of the HTTP API (`MainApi`, `backend/app/main.py`):
  - the two station-risk helpers over unresolved alerts;
  - the online rules of the station list and detail endpoints;
  - the automatic station location;
  - the admin record update and the self-delete guard;
  - the WebSocket ping reply.
- **Admin router** (`AdminRouter`, `backend/app/routers/admin.py`):
  - the default station configuration;
  - the one-level config merge and the config reset;
  - the location rule of station creation;
  - the system-password check;
  - the live GNSS fetcher's sentence filter.
- **Analyser** (`LandslideAnalyzer`, `backend/app/landslide_analyzer.py`):
  - configuration lookup;
  - Python's stable `sorted`;
  - both velocity class tables;
  - the four sensor analysers and the combined assessment;
  - the long-term velocity analysis, with its trend and risk rules. It reads
    the class table either as written or with the `mm_giay` reading (see
    "## Findings"), chosen by a parameter.
- **MQTT bridge** (`MqttBridge`, `backend/mqtt_bridge.py`):
  - the topic-map reload with its per-device processor cache and the subscribe/unsubscribe diff;
  - the resubscribe on connect;
  - the message pipeline: early exits, the status broadcast and the save throttle.
- **GNSS processor** (`GnssProcessor`, `backend/processors/gnss_processor.py`):
  - the GGA parser;
  - the origin-locking state machine, with its candidates, bounded history and counters.
- **Water and rain engines** (`WaterProcessor`, `backend/processors/water_processor.py`): range checks, fallbacks, the rain intensity rule and bounded histories.
- **WebSocket connection manager** (`WebSocket`, `backend/app/websocket.py`): connect and disconnect, the per-key broadcast throttle, and pruning of failed connections.
- **Roles and tokens** (`Auth`, `backend/app/auth.py`): role permissions, the permission gate, the rejection paths of the current-user dependency and the claims of an access token.

Shared modules hold the pieces several files use:

- `Wrappers`: Option and Result.
- `JsonValues`: JSON values, Python truthiness, `dict.get`, `float()`.
- `Text`: `split`, `join`, `strip`, and `int()`/`float()`/`str()` on decimal text.
- `Nmea`: the degree/minute fields of GGA sentences, as defined by NMEA 0183.
- `BoundedQueue`: a `deque` with `maxlen`.
- `Locations`: location documents, sums and means.
- `Levels`: risk and alert levels.

How the model is built:

- Stateful objects are classes whose methods update their fields:
  - the GNSS processor;
  - the water and rain engines;
  - the connection manager;
  - the bridge;
  - the live fetcher;
  - a station row.
- The stateless rules are functions.
- The clock, database query results, the geodesy and the processors' answers are parameters.

## Model

| member | source | states |
|---|---|---|
| Nmea.CoordinateOfDegreesMinutes | backend/processors/gnss_processor.py:326-329 | a field made of a degree part and a minute part reads as degrees + minutes / 60, for the 2-digit latitude and the 3-digit longitude alike |
| Text.SplitJoin | backend/processors/gnss_processor.py:316 | splitting a comma-joined sentence gives back its fields |
| Text.Strip | backend/mqtt_bridge.py:146 | `strip()` removes exactly a blank prefix and a blank suffix (blanks being what `str.isspace()` accepts, Unicode spaces included): the result is a slice of the topic with no blank at either end, and empty exactly for a blank-only topic |
| Text.StripUnpadded | backend/app/routers/admin.py:450 | a sentence with no surrounding blanks is unchanged by `strip()` |
| Text.ParseNatToString | backend/mqtt_bridge.py:150 | `int(str(n)) == n`, so the digits of a device id determine it |
| JsonValues.Number | backend/app/landslide_analyzer.py:373-376 | a value Python compares as a number exactly when it is a number or a boolean |
| JsonValues.ToFloat | backend/app/landslide_analyzer.py:20 | `float(j)` of a number is that number; None, lists and dicts raise |
| BoundedQueue.Push | backend/processors/gnss_processor.py:50 | appending to a deque with `maxlen == n` keeps at most `n` elements, evicts the oldest and ends with the new one |
| BoundedQueue.PushKeepsLastWindow | backend/processors/water_processor.py:36 | pushing onto the window of a stream gives the window of the longer stream |
| Locations.LocationDoc | backend/app/routers/admin.py:296-315 | a location document holds `lat`, `lon` and `source`, plus `h` only when one is written |
| Locations.SumBounds | backend/app/routers/admin.py:310-311 | a sum of values within [lo, hi] lies within [n·lo, n·hi] |
| Locations.MeanWithinBounds | backend/app/main.py:379-381 | an average of coordinates lies within the range of the coordinates averaged |
| MainApi.UnresolvedAlerts | backend/app/main.py:1298-1306 | the alert query keeps exactly this station's unresolved alerts, in order |
| MainApi.CountLevel | backend/app/main.py:1307-1308 | the count of alerts at a level is at most the number of alerts |
| MainApi.CountLevelAppend | backend/app/main.py:1307-1308 | one more alert adds one to the count of its own level and nothing to the others |
| MainApi.RiskFromCounts | backend/app/main.py:1310-1313 | two or more CRITICAL give EXTREME; one CRITICAL or three WARNINGs give HIGH; one WARNING gives MEDIUM; otherwise LOW |
| MainApi.RiskMonotone | backend/app/main.py:1310-1313 | more alerts of either kind never give a lower level |
| MainApi.SimpleRisk | backend/app/main.py:1296-1315 | the simple helper applies the count rule, and a failed query reads as LOW |
| MainApi.RiskAssessment | backend/app/main.py:875-914 | the detailed helper applies the same rule, lists every unresolved alert, and gives UNKNOWN with no alerts on failure |
| MainApi.SimpleAgreesWithAssessment | backend/app/main.py:888-898 | both helpers give the same level on a successful query; on failure one says UNKNOWN and the other LOW |
| MainApi.AddingAlertNeverLowersRisk | backend/app/main.py:891-898 | one more unresolved alert of any level never lowers a station's risk |
| MainApi.SecondCriticalIsExtreme | backend/app/main.py:1310 | a second CRITICAL alert always makes the station EXTREME |
| MainApi.Newest | backend/app/main.py:730-737 | the newest-sample query gives a matching sample's timestamp that no matching sample exceeds, or None when there is none |
| MainApi.ListStatus | backend/app/main.py:724-745 | a station in the list is online iff some sample of it is under 60 s old |
| MainApi.RecentMax | backend/app/main.py:812-816 | the newest of the per-sensor latest timestamps at or after the 24 h cutoff, or None when there is none |
| MainApi.DetailStatus | backend/app/main.py:787-851 | the device loop gives the detail status: online iff some recent timestamp exists and the newest is under 300 s old |
| MainApi.ListOnlineImpliesDetailOnline | backend/app/main.py:738-740 | when every sample comes from one of the station's devices, a station the list calls online is online in the detail view too |
| MainApi.Reverse | backend/app/main.py:835 | `reversed` keeps the length and mirrors the positions |
| MainApi.SensorHistory | backend/app/main.py:816-839 | a newest-first query comes back oldest first |
| MainApi.ReverseSameElements | backend/app/main.py:835 | reversing keeps exactly the same elements |
| MainApi.SensorCoord | backend/app/main.py:360-368 | an entry gives a coordinate only when it is a dict with non-null lat and lon that convert with `float()`; a missing `h` counts as 0 |
| MainApi.CalculateStationLocation | backend/app/main.py:355-389 | no usable entry returns the manual location; one is taken as it is, as "Single Sensor (Auto)"; several are averaged |
| MainApi.AverageLatWithinSensors | backend/app/main.py:379 | the averaged latitude lies within the latitudes averaged |
| MainApi.EntryWithoutLatIsSkipped | backend/app/main.py:361 | an entry without `lat` contributes nothing |
| MainApi.Supplied | backend/app/main.py:1139 | a payload supplies a key iff it lists that key, and then with a value it lists for it |
| MainApi.AdminUpdateStation | backend/app/main.py:1122-1155 | 404 iff the record is missing; otherwise every attribute the record has takes its updated value, and `updated_at` is stamped with the current time |
| MainApi.ApplyUpdates | backend/app/main.py:1140-1142 | the `setattr` loop keeps the record's attributes and gives each the value of the last unprotected update naming it, or its own |
| MainApi.UpdatedFieldStep | backend/app/main.py:1140-1142 | one more update changes an attribute only when it names it and the attribute is neither `id` nor `_table` |
| MainApi.UpdateKeepsId | backend/app/main.py:1140 | the update never changes `id`, whatever the payload says |
| MainApi.UnmentionedFieldUnchanged | backend/app/main.py:1139-1141 | an attribute the payload does not mention keeps its value |
| MainApi.DeleteUser | backend/app/main.py:238-250 | deleting your own id is refused with 400 and changes nothing; any other id is removed and nothing else |
| MainApi.WebSocketReply | backend/app/main.py:1274-1276 | the text "ping" is answered with `{"type": "pong"}`, and anything else gets no reply |
| MainApi.Replies | backend/app/main.py:1272-1276 | the receive loop sends only pongs, never more replies than texts received |
| MainApi.OnePongPerPing | backend/app/main.py:1272-1276 | a session sends exactly as many pongs as it receives "ping" texts |
| AdminRouter.DefaultClassification | backend/app/routers/admin.py:66-74 | the default Cruden & Varnes table has seven classes, each with a name and a numeric `mm_giay`, and none with `mm_year`, `mm_s` or `min` |
| AdminRouter.DefaultStationConfig | backend/app/routers/admin.py:32-80 | the default configuration has exactly its seven sections, among them `Water`, and no lowercase `water` section |
| AdminRouter.ClassEntry | backend/app/routers/admin.py:67-73 | a class row is a dict with its name and its speed under `mm_giay`, and no `mm_year`, `mm_s` or `min` key |
| AdminRouter.DefaultClassificationFirst | backend/app/routers/admin.py:67 | the fastest class, "Extremely rapid" at 5000 mm/s, comes first |
| AdminRouter.DefaultSections | backend/app/routers/admin.py:44-74 | the IMU shock threshold of 5, the rain thresholds 10/25/50, the `Water` thresholds 0.15/0.30 and the class table of the default configuration |
| AdminRouter.EffectiveConfig | backend/app/routers/admin.py:350 | an empty or missing config reads as the default, and any other config as itself |
| AdminRouter.MergedValue | backend/app/routers/admin.py:386-389 | a dict merged into a dict keeps every nested key of both, the incoming values winning; anything else replaces the value |
| AdminRouter.Merged | backend/app/routers/admin.py:385-389 | the merged config has the sections of both configs |
| AdminRouter.MergeConfig | backend/app/routers/admin.py:385-390 | the in-place merge loop ends with the merged config |
| AdminRouter.MergeKeepsSiblings | backend/app/routers/admin.py:386-387 | a section present in both as dicts keeps the keys the update does not mention |
| AdminRouter.MergeUntouchedAndOverridden | backend/app/routers/admin.py:385-389 | sections the update does not mention are untouched, and the update's values win everywhere else |
| AdminRouter.MergeIdempotent | backend/app/routers/admin.py:385-389 | applying the same update twice equals applying it once |
| AdminRouter.StationRow.constructor | backend/app/routers/admin.py:373-391 | a station row holds the code, name and config it was created with, and no sensors |
| AdminRouter.ConfigAfterUpdate | backend/app/routers/admin.py:381-391 | a new config that is not a dict raises (None); a dict merges into the current config, or into the default when the current one is empty |
| AdminRouter.UpdateStationConfig | backend/app/routers/admin.py:353-402 | 404 for a missing station and 400 for an empty payload; each basic field changes only when its key is present, `config` merges, and a raising merge leaves the row unchanged |
| AdminRouter.ResetStationConfig | backend/app/routers/admin.py:404-433 | 404 iff the station is missing; otherwise a fresh default is stored and returned, and code, name and the four sensor flags are unchanged |
| AdminRouter.Index | backend/app/routers/admin.py:297-298 | `j[key]` gives the dict's value iff `j` is a dict holding the key; otherwise 500 |
| AdminRouter.GnssLocation | backend/app/routers/admin.py:294-303 | an origin dict with `lat` and `lon` is the location, as "GNSS Origin" with `h` defaulting to 0; a falsy origin or one without `lat` is "Pending GNSS" |
| AdminRouter.CreateStationLocation | backend/app/routers/admin.py:283-317 | a duplicate code is refused with 400 before anything else; a GNSS station takes the GNSS branch; every location has a source |
| AdminRouter.LocationSources | backend/app/routers/admin.py:292-315 | a GNSS station's location is "GNSS Origin" or "Pending GNSS", any other station's "Sensor Average" or "Unknown" |
| AdminRouter.CollectNumbers | backend/app/routers/admin.py:306-311 | positions given as dicts of numbers are all collected, in order, and all add up |
| AdminRouter.Numbers | backend/app/routers/admin.py:310-311 | `sum` succeeds exactly on values that are all numbers, and adds those numbers |
| AdminRouter.SensorLocation | backend/app/routers/admin.py:304-313 | no sensor location when either collected list is empty, before anything is summed; a location found is a "Sensor Average" |
| AdminRouter.CollectAbsent | backend/app/routers/admin.py:306-307 | dicts without the key contribute nothing |
| AdminRouter.PositionsWithoutLonAreUnknown | backend/app/routers/admin.py:304-315 | positions that all lack `lon` leave the location "Unknown", even when their `lat` is not a number |
| AdminRouter.SensorAverageWithinRange | backend/app/routers/admin.py:304-313 | positions with numeric lat and lon give a "Sensor Average" location whose latitude lies within theirs |
| AdminRouter.BoundIsBound | backend/app/routers/admin.py:307 | the largest (smallest) longitude bounds every longitude of the positions |
| AdminRouter.VerifySystemPassword | backend/app/routers/admin.py:231-245 | succeeds iff the password equals the stored one, or the built-in default when none is stored; otherwise 403 |
| AdminRouter.OnePasswordOpens | backend/app/routers/admin.py:237-241 | whatever is stored, at most one password is accepted |
| AdminRouter.StoredPasswordReplacesDefault | backend/app/routers/admin.py:237-245 | a stored password replaces the built-in default, which is then refused with 403; with no record the default is accepted |
| AdminRouter.ParseLiveGga | backend/app/routers/admin.py:448-467 | a parsed sentence has at least ten fields and a non-empty lat and lon after stripping |
| AdminRouter.LiveParseAgreesWithProcessor | backend/app/routers/admin.py:448-467 | on an unpadded sentence, whatever the processor's parser accepts the fetcher accepts too, with the same position and quality |
| AdminRouter.GnssLiveFetcher.constructor | backend/app/routers/admin.py:440-446 | starts with no data, not connected, nothing subscribed |
| AdminRouter.GnssLiveFetcher.OnConnect | backend/app/routers/admin.py:469-472 | only `rc == 0` marks the fetcher connected and subscribes the topic |
| AdminRouter.GnssLiveFetcher.OnMessage | backend/app/routers/admin.py:474-482 | a sentence that decodes and parses with fix quality at least 1 is kept and disconnects; anything else changes nothing |
| LandslideAnalyzer.GetCfg | backend/app/landslide_analyzer.py:18-22 | the stored value as a float, or the default when the section or key is missing or the value does not convert |
| LandslideAnalyzer.DefaultConfigThresholds | backend/app/landslide_analyzer.py:363-365 | the thresholds read from the default config: 25/50 mm/h of rain, 0.15/0.30 of `Water`, 5 m/s² of shock, and 999 for the absent lowercase `water` section |
| LandslideAnalyzer.InsertPermutes | backend/app/landslide_analyzer.py:166-170 | insertion adds exactly the new element to the multiset |
| LandslideAnalyzer.InsertSorted | backend/app/landslide_analyzer.py:166-170 | inserting into a sorted list gives a sorted list |
| LandslideAnalyzer.SortSorts | backend/app/landslide_analyzer.py:166-170 | `sorted` returns an ordered permutation of its input |
| LandslideAnalyzer.InsertAfterAll | backend/app/landslide_analyzer.py:166-170 | an element that may stand after every element lands at the end |
| LandslideAnalyzer.SortKeepsOrderedInput | backend/app/landslide_analyzer.py:332-337 | the sort is stable: an already ordered input comes back unchanged |
| LandslideAnalyzer.SortKeepsKeyIsThreshold | backend/app/landslide_analyzer.py:166-170 | sorting rows keyed by their thresholds gives an ordered permutation still keyed by thresholds |
| LandslideAnalyzer.SortedEnds | backend/app/landslide_analyzer.py:64-67 | the first and last elements of an ascending sort come from the input and bound every key of it |
| LandslideAnalyzer.SortedEndKeys | backend/app/landslide_analyzer.py:64-67 | the ends of an ascending sort carry the smallest and the largest key of the input |
| LandslideAnalyzer.ClassList | backend/app/landslide_analyzer.py:151-153 | a list table gives its entries; any other table that does not raise gives none |
| LandslideAnalyzer.FirstReached | backend/app/landslide_analyzer.py:173-177 | the first row whose threshold the velocity reaches; no earlier row is reached, and None when no row is |
| LandslideAnalyzer.FastestReachedRow | backend/app/landslide_analyzer.py:166-177 | on a table sorted fastest first, the row the scan stops at has the largest threshold the velocity reaches |
| LandslideAnalyzer.NoneReachedInSort | backend/app/landslide_analyzer.py:173-179 | when the scan of the sorted rows stops nowhere, the velocity is below every threshold of the table |
| LandslideAnalyzer.FoundIsFastestReached | backend/app/landslide_analyzer.py:166-177 | the row the scan of the sorted rows stops at is a row of the table with the largest threshold the velocity reaches |
| LandslideAnalyzer.YearThresholdAsWritten | backend/app/landslide_analyzer.py:168-174 | the yearly threshold as written: an entry without `mm_year` and `mm_s` reads as 0 |
| LandslideAnalyzer.YearThreshold | backend/app/landslide_analyzer.py:168-174 | the yearly threshold as intended: an entry with only `mm_giay` reads as `mm_giay` times a year |
| LandslideAnalyzer.YearRows | backend/app/landslide_analyzer.py:166-170 | the rows exist iff every entry has a threshold; each row is keyed by its entry's threshold and named by its entry |
| LandslideAnalyzer.ClassifyExtendedBy | backend/app/landslide_analyzer.py:139-179 | an error exactly when the table or one of its thresholds cannot be read |
| LandslideAnalyzer.ExtendedPicksFastestReachedClass | backend/app/landslide_analyzer.py:166-179 | the chosen class is the fastest one whose yearly threshold the velocity reaches |
| LandslideAnalyzer.ClassifyFromRows | backend/app/landslide_analyzer.py:166-179 | the classification unfolds to the scan of the sorted rows |
| LandslideAnalyzer.DefaultConfigClassifiesEverythingExtremelyRapid | backend/app/landslide_analyzer.py:166-179 | as written, the default table has all thresholds 0, so every velocity ≥ 0 is "Extremely rapid" |
| LandslideAnalyzer.DefaultRowsAsWritten | backend/app/landslide_analyzer.py:166-170 | as written, the default table gives seven rows, all with threshold 0, the first named "Extremely rapid" |
| LandslideAnalyzer.DefaultRowsAsIntended | backend/app/routers/admin.py:66-74 | read as intended, the default table's rows run from 5000 mm/s down to 0, in mm/year |
| LandslideAnalyzer.DefaultTableReadsAsIntended | backend/app/routers/admin.py:66-74 | read as intended, each default entry becomes a row keyed by its `mm_giay` times a year |
| LandslideAnalyzer.DefaultIntendedRowValues | backend/app/routers/admin.py:67-73 | the seven intended thresholds run 5000, 4000, 2000, 1000, 0.000051, 0.000001 and 0 mm/s, in mm/year, with their names |
| LandslideAnalyzer.DefaultConfigTable | backend/app/landslide_analyzer.py:156-164 | a station on the default config classifies against the table `get_default_station_config` writes |
| LandslideAnalyzer.DefaultChosenRowAsIntended | backend/app/landslide_analyzer.py:173-177 | on the seven default thresholds, the scan always stops; below the slowest band at the last row, and at the first row iff the velocity reaches 5000 mm/s |
| LandslideAnalyzer.DefaultConfigClassifiesByBand | backend/app/landslide_analyzer.py:166-179 | read as intended, the default config gives "Extremely slow" below the slowest band and "Extremely rapid" iff 5000 mm/s is reached |
| LandslideAnalyzer.DefaultChosenClass | backend/app/landslide_analyzer.py:173-177 | on the default table read as intended: "Extremely slow" below the slowest band, and "Extremely rapid" iff 5000 mm/s is reached |
| LandslideAnalyzer.CrudenDefaultTable | backend/app/landslide_analyzer.py:319-327 | the built-in table has seven classes, each with a numeric `min` in m/s and no `mm_giay` |
| LandslideAnalyzer.CrudenRow | backend/app/landslide_analyzer.py:333-341 | an entry is readable iff it is a dict whose `min` and `mm_giay` are numbers where present; the threshold is `mm_giay` / 1000, else `min`, else 0 |
| LandslideAnalyzer.CrudenRows | backend/app/landslide_analyzer.py:332-341 | the rows exist iff every entry is readable, one row per entry |
| LandslideAnalyzer.ClassifyCrudenVarnes | backend/app/landslide_analyzer.py:317-348 | a class is named only for a numeric speed; with the built-in table a non-numeric speed is an error; a one-entry table is classified without comparing sort keys |
| LandslideAnalyzer.CrudenThreshold | backend/app/landslide_analyzer.py:339-341 | the compared threshold is `mm_giay / 1000` when present, else `min`, else 0 |
| LandslideAnalyzer.ClassifyCrudenSingle | backend/app/landslide_analyzer.py:331-348 | a one-entry table names only that entry |
| LandslideAnalyzer.CrudenSingleEntry | backend/app/landslide_analyzer.py:331-348 | a one-entry table with a numeric `mm_giay` names the entry iff the speed reaches `mm_giay / 1000`, else "Stable", whatever its `min` holds |
| LandslideAnalyzer.CrudenFromRows | backend/app/landslide_analyzer.py:332-348 | the classification unfolds to the scan of the rows |
| LandslideAnalyzer.CrudenDefaultRows | backend/app/landslide_analyzer.py:319-327 | the rows of the built-in table, from 5 m/s down to 0 |
| LandslideAnalyzer.CrudenEntryRow | backend/app/landslide_analyzer.py:333-341 | an entry with only a `min` is read with that `min` as both sort key and threshold |
| LandslideAnalyzer.CrudenTableRows | backend/app/landslide_analyzer.py:319-341 | the built-in table reads entry by entry as its classes' rows |
| LandslideAnalyzer.CrudenDefaultChosenRow | backend/app/landslide_analyzer.py:338-344 | the row the scan stops at for each speed band |
| LandslideAnalyzer.CrudenDefaultTableBands | backend/app/landslide_analyzer.py:317-348 | with the built-in table a negative speed is "Stable", 0 "Extremely Slow", 5 m/s and above "Extremely Rapid" |
| LandslideAnalyzer.LevelAtLeast | backend/app/landslide_analyzer.py:373-378 | CRITICAL iff at or above the critical threshold, WARNING iff at or above the warning threshold and below the critical one, otherwise nothing |
| LandslideAnalyzer.LevelAtLeastMonotone | backend/app/landslide_analyzer.py:373-378 | a larger reading never gives a lower alert |
| LandslideAnalyzer.AlertOf | backend/app/landslide_analyzer.py:384-389 | an alert exists iff a level was reached, and carries that level and category |
| LandslideAnalyzer.AnalyzeGnssDisplacement | backend/app/landslide_analyzer.py:255-315 | no alert without data; an alert is always WARNING or CRITICAL, of category "displacement" |
| LandslideAnalyzer.DisplacementLevels | backend/app/landslide_analyzer.py:271-310 | CRITICAL iff the newest displacement reaches the `Water` critical threshold, WARNING iff it reaches only the warning one; the alert carries `speed_2d` |
| LandslideAnalyzer.AnalyzeRainfall | backend/app/landslide_analyzer.py:353-394 | no alert without data; an alert is always WARNING or CRITICAL, of category "rainfall", for a numeric intensity |
| LandslideAnalyzer.RainfallLevels | backend/app/landslide_analyzer.py:363-390 | CRITICAL iff the intensity reaches the critical threshold, WARNING iff only the warning one, and nothing below it, the watch band included |
| LandslideAnalyzer.AnalyzeTilt | backend/app/landslide_analyzer.py:399-439 | no alert without data; an alert is always WARNING or CRITICAL, of category "imu_tilt_shock" |
| LandslideAnalyzer.TiltLevels | backend/app/landslide_analyzer.py:410-434 | CRITICAL iff the acceleration exceeds the shock threshold; otherwise WARNING iff roll or pitch exceeds 30° in either direction |
| LandslideAnalyzer.AnalyzeWaterLevel | backend/app/landslide_analyzer.py:444-479 | no alert without data; an alert is always WARNING or CRITICAL, of category "water_level", for a numeric level |
| LandslideAnalyzer.DefaultConfigWaterAlertsOnlyAt999 | backend/app/landslide_analyzer.py:455-458 | the default config has `Water` but not `water`, so the water analyser alerts only at 999, and then CRITICAL |
| LandslideAnalyzer.ReadingMonotone | backend/app/landslide_analyzer.py:373-378 | a higher newest reading never lowers the rain or water alert |
| LandslideAnalyzer.PresentMembers | backend/app/landslide_analyzer.py:492 | an alert is listed exactly when it was passed in |
| LandslideAnalyzer.PresentAppend | backend/app/landslide_analyzer.py:492 | filtering a concatenation filters each part in turn |
| LandslideAnalyzer.Count | backend/app/landslide_analyzer.py:494-495 | the count at a level is at most the number of alerts, and 0 iff no alert has that level |
| LandslideAnalyzer.CombinedRisk | backend/app/landslide_analyzer.py:484-514 | the alerts listed are the present inputs in order; EXTREME iff any is CRITICAL, HIGH iff two or more WARNINGs, MEDIUM iff one, otherwise LOW |
| LandslideAnalyzer.CombinedAlertsInOrder | backend/app/landslide_analyzer.py:492-508 | for every combination of present analysers, the active alerts are the present ones in argument order; with none the station is LOW |
| LandslideAnalyzer.PresentSingle | backend/app/landslide_analyzer.py:492 | one input is listed iff present |
| LandslideAnalyzer.PresentOfFour | backend/app/landslide_analyzer.py:492 | the four analyser outcomes are filtered in order |
| LandslideAnalyzer.CombinedAtLeastStoredAlertRule | backend/app/landslide_analyzer.py:497-504 | over the same alerts the combined rule is at least as severe as the stored-alert rule of the station endpoints |
| LandslideAnalyzer.DetectTrend | backend/app/landslide_analyzer.py:181-217 | "stable" for fewer than five points, fewer than five speeds or a raising read; with five speeds, accelerating iff the slope is above 0.0001, decelerating iff below -0.0001, stable otherwise |
| LandslideAnalyzer.SkippedPointLeavesSpeeds | backend/app/landslide_analyzer.py:191-195 | a point whose `data` is a dict, text or list without "speed_2d" leaves the speeds unchanged wherever it stands |
| LandslideAnalyzer.TextWithSpeedKeyRaises | backend/app/landslide_analyzer.py:191-195 | text `data` containing "speed_2d" passes the `in` test and makes `.get` raise, so no speeds are read |
| LandslideAnalyzer.AssessLongTermRisk | backend/app/landslide_analyzer.py:219-250 | EXTREME above 1000, HIGH above 100, MEDIUM above 16 mm/year, otherwise LOW; accelerating lowers the first two to 800 and 80 |
| LandslideAnalyzer.LongTermRiskMonotone | backend/app/landslide_analyzer.py:243-250 | a faster station never gets a lower long-term risk |
| LandslideAnalyzer.AccelerationNeverLowersRisk | backend/app/landslide_analyzer.py:237-240 | acceleration never lowers the long-term risk |
| LandslideAnalyzer.Timestamps | backend/app/landslide_analyzer.py:61 | a successful read keys every point, in order, by its numeric `timestamp` field |
| LandslideAnalyzer.AnalyzeLongTermVelocity | backend/app/landslide_analyzer.py:27-137 | "insufficient_data" iff fewer than two points, or readable timestamps whose sorted span is under 0.1 day; a success spans at least 0.1 day, carries the class of its velocity under the chosen reading of the table (as written or as intended) and start and end timestamps `fromtimestamp` accepts, and its risk is the long-term rule of its velocity and trend |
| LandslideAnalyzer.AnalyzeSpan | backend/app/landslide_analyzer.py:64-130 | the analysis of the sorted samples runs from the first to the last one; it is an error exactly when a position delta is unreadable, the class table raises, or `fromtimestamp` rejects the first or last timestamp; its class is that of its velocity and its risk the long-term rule of velocity and trend |
| LandslideAnalyzer.LongTermSpanCoversAllSamples | backend/app/landslide_analyzer.py:61-70 | the span runs from the earliest to the latest timestamp, whatever the input order |
| LandslideAnalyzer.InsufficientExactly | backend/app/landslide_analyzer.py:54-75 | a series with readable timestamps is "insufficient_data" exactly when it has fewer than two points or spans under 0.1 day |
| LandslideAnalyzer.UndatableEndIsError | backend/app/landslide_analyzer.py:125-137 | a series whose earliest or latest timestamp `fromtimestamp` rejects is never a success |
| LandslideAnalyzer.LongTermDefaultConfigClasses | backend/app/landslide_analyzer.py:97-102 | as written, every long-term analysis of a default-configured station with a non-negative velocity is labelled "Extremely rapid" |
| GnssProcessor.ParseGgaFields | backend/processors/gnss_processor.py:314-339 | a parse needs ten fields and a non-empty lat and lon; lat and lon are degrees + minutes / 60, negated for S and W; empty height, quality, satellites and HDOP read as 0, 0, 0 and 99.9; a failure means some field does not convert |
| GnssProcessor.ParseJoinedSentence | backend/processors/gnss_processor.py:316 | a sentence joined from comma-free fields parses as those fields do |
| GnssProcessor.SouthNegatesLatitude | backend/processors/gnss_processor.py:327 | turning 'N' into 'S' negates the latitude and changes nothing else |
| GnssProcessor.HemisphereOnlyTurnsLatitude | backend/processors/gnss_processor.py:320-327 | the hemisphere letter of field 3 decides the sign of the latitude and nothing else of the parse |
| GnssProcessor.MaxDistance | backend/processors/gnss_processor.py:195-198 | the largest distance from the centroid: every candidate is within it and some candidate reaches it |
| GnssProcessor.SpreadWithinBound | backend/processors/gnss_processor.py:195-200 | the spread test passes iff every candidate is within `max_spread_m` of the centroid |
| GnssProcessor.Truncate | backend/processors/gnss_processor.py:294 | `int(ts)` truncates toward zero |
| GnssProcessor.GnssVelocityProcessor.constructor | backend/processors/gnss_processor.py:26-57 | starts awaiting candidates, with no origin, no candidates, an empty history and zero counters |
| GnssProcessor.GnssVelocityProcessor.LoadOrigin | backend/processors/gnss_processor.py:80-108 | a stored origin with both matrices locks the processor; anything else changes nothing |
| GnssProcessor.GnssVelocityProcessor.ProcessGngga | backend/processors/gnss_processor.py:153-170 | a sentence failing the guard gives None and changes nothing; otherwise an awaiting processor has exactly the effect of origin collection and a locked one that of processing, with the fix quality read from field 6; a locked processor stays locked on the same origin, and only a report counts as processed |
| GnssProcessor.GnssVelocityProcessor.HandleOriginCollection | backend/processors/gnss_processor.py:172-239 | a low fix is counted and reported; a good fix adds one candidate; at `required_points` the spread locks the centroid or clears the candidates and counts a reset |
| GnssProcessor.GnssVelocityProcessor.HandleProcessing | backend/processors/gnss_processor.py:241-312 | a low fix is counted and dropped; a good fix is pushed onto the bounded history; a result needs two points at least 0.01 s apart, and only a result counts as processed |
| GnssProcessor.GnssVelocityProcessor.GetStats | backend/processors/gnss_processor.py:362-363 | the counters, as a value |
| GnssProcessor.ZeroWindowNeverReports | backend/processors/gnss_processor.py:50 | with a zero filter window the history holds one fix, so a locked processor never reports |
| WaterProcessor.AcceptedWater | backend/processors/water_processor.py:18-33 | a value is accepted iff it is present, converts and lies within the valid range, and then it is that value |
| WaterProcessor.WaterValueKeyWins | backend/processors/water_processor.py:18 | a truthy in-range `value` is the accepted level whatever `water_level` says |
| WaterProcessor.WaterZeroLevelFallsThrough | backend/processors/water_processor.py:18 | a `value` of 0 falls through to `water_level` |
| WaterProcessor.WaterEngine.constructor | backend/processors/water_processor.py:9-13 | an empty history and a last valid value of 0 |
| WaterProcessor.WaterEngine.Process | backend/processors/water_processor.py:16-48 | an accepted value becomes the last valid value and is pushed onto the bounded history; anything else returns the last valid value as a fallback and changes nothing |
| WaterProcessor.WaterEngine.Accept | backend/processors/water_processor.py:35-36 | an in-range sample becomes the last valid value and is pushed onto the bounded history, keeping every accepted value in range |
| WaterProcessor.RainIntensity | backend/processors/water_processor.py:70-74 | a device-supplied intensity is used, converted with `float()` |
| WaterProcessor.DerivedIntensity | backend/processors/water_processor.py:76-83 | without a device intensity: the hourly rate of the rise since the last sample when 0 < dt < 3600 and the rainfall did not drop, otherwise 0; never negative |
| WaterProcessor.AcceptedRain | backend/processors/water_processor.py:59-88 | a reading is accepted iff its rainfall and intensity convert, and then with those values |
| WaterProcessor.DeviceIntensityWins | backend/processors/water_processor.py:73-74 | a device-supplied intensity is used as it is |
| WaterProcessor.RainEngine.constructor | backend/processors/water_processor.py:51-54 | an empty history and last valid values of 0 |
| WaterProcessor.RainEngine.Intensity | backend/processors/water_processor.py:69-83 | computes the intensity rule on the engine's history |
| WaterProcessor.RainEngine.Process | backend/processors/water_processor.py:57-102 | an accepted reading updates the last valid values and the bounded history; a missing or failing one returns them as a fallback and changes nothing |
| WaterProcessor.RainEngine.Accept | backend/processors/water_processor.py:86-88 | an accepted reading becomes the last valid rainfall and intensity and is pushed onto the bounded history |
| WebSocket.RemoveFirst | backend/app/websocket.py:37-38 | `list.remove`: a listed connection shortens the list by one, and an unlisted one leaves it unchanged |
| WebSocket.RemoveFirstCounts | backend/app/websocket.py:37-38 | `list.remove` takes away exactly one occurrence of the connection when it is listed |
| WebSocket.RemoveEachCounts | backend/app/websocket.py:114-115 | removing each failed connection in turn takes away one occurrence per failure, as far as there are any |
| WebSocket.Keep | backend/app/websocket.py:107-115 | only connections of the list that do not fail remain, and never more than there were |
| WebSocket.KeepAndFailedSplit | backend/app/websocket.py:104-115 | every connection is either kept or failed, and not both |
| WebSocket.KeepCounts | backend/app/websocket.py:114-115 | a working connection keeps all its occurrences, and a failing one keeps none |
| WebSocket.RemainingAreKept | backend/app/websocket.py:114-115 | removing the failed connections one by one leaves exactly the kept ones |
| WebSocket.RouteOf | backend/app/websocket.py:45-77 | immediate iff the type is "alert" or the level is WARNING or CRITICAL; the 0.5 s throttle only for station status, the 0.1 s throttle only for sensor data |
| WebSocket.AlertsBypassThrottle | backend/app/websocket.py:48-50 | an alert is always admitted and stamps nothing |
| WebSocket.StatusThrottle | backend/app/websocket.py:52-62 | a station status is admitted iff 0.5 s have passed for its station |
| WebSocket.SensorThrottle | backend/app/websocket.py:64-77 | sensor data is admitted iff 0.1 s have passed for its station and sensor |
| WebSocket.OtherTypesDropped | backend/app/websocket.py:41-77 | a message of any other type is never sent and stamps nothing |
| WebSocket.StampTouchesOwnKey | backend/app/websocket.py:57-75 | a stamp changes no other key |
| WebSocket.ThrottleSpacing | backend/app/websocket.py:57-60 | after a send, a message on the same key inside the interval is refused |
| WebSocket.ConnectionManager.constructor | backend/app/websocket.py:13-26 | no connections and no stamps |
| WebSocket.ConnectionManager.Connect | backend/app/websocket.py:28-31 | appends the connection |
| WebSocket.ConnectionManager.Disconnect | backend/app/websocket.py:36-39 | removes the first occurrence when present, one occurrence in all, otherwise changes nothing; the throttle stamps are untouched |
| WebSocket.ConnectionManager.DisconnectAll | backend/app/websocket.py:114-115 | disconnecting each failed connection in turn takes away one occurrence per listing and leaves the stamps |
| WebSocket.ConnectionManager.SendToAll | backend/app/websocket.py:104-115 | delivers to the working connections in order and leaves exactly those, with no failing one left |
| WebSocket.ConnectionManager.SendEach | backend/app/websocket.py:107-113 | the send loop delivers to the working connections in order and collects the failing ones in order |
| WebSocket.ConnectionManager.Broadcast | backend/app/websocket.py:41-77 | an admitted message is sent to all and its key stamped; a refused one changes nothing |
| MqttBridge.KindOf | backend/mqtt_bridge.py:153-160 | "gnss", "rain", "water" and "imu" each get their own processor kind, and any other type none |
| MqttBridge.ProcKeyInjective | backend/mqtt_bridge.py:150 | distinct device ids give distinct cache keys |
| MqttBridge.ScanStep | backend/mqtt_bridge.py:145-170 | after a raise, or for a device without a topic, the scan state is unchanged |
| MqttBridge.HasTopicIsStripTest | backend/mqtt_bridge.py:145 | a device is scanned iff its topic is present and not blank after `strip()` |
| MqttBridge.ScanStepKeepsCache | backend/mqtt_bridge.py:151-160 | one step never replaces a cached processor and only creates new ones |
| MqttBridge.ScanStepMapsCachedProcessors | backend/mqtt_bridge.py:161-169 | one step maps a topic only to its device's cached processor |
| MqttBridge.CacheGrowthKeepsMap | backend/mqtt_bridge.py:129-181 | a map whose processors are cached stays so when a failed reload has only added to the cache |
| MqttBridge.ScanKeepsCache | backend/mqtt_bridge.py:152-160 | the scan never replaces a cached processor |
| MqttBridge.ScanMapsCachedProcessors | backend/mqtt_bridge.py:162-170 | every topic of the new map refers to its device's cached processor |
| MqttBridge.KnownTypesNeverFail | backend/mqtt_bridge.py:152-160 | a scan over devices of known types never raises |
| MqttBridge.ScanKeepsCacheKeys | backend/mqtt_bridge.py:152-160 | the cache only grows |
| MqttBridge.ScanMapsEveryTopic | backend/mqtt_bridge.py:146-170 | every device with a non-blank topic has its topic in the new map |
| MqttBridge.ScanStepKeepsTopics | backend/mqtt_bridge.py:162 | one step never removes a topic from the new map |
| MqttBridge.ProcessedData | backend/mqtt_bridge.py:197-216 | a processed GNSS fix gives its `data`, an engine answer for rain/water/imu is the data itself, and every other outcome (non-JSON payload, raising processor, GNSS origin lock, unknown type) gives none |
| MqttBridge.Analyze | backend/mqtt_bridge.py:236-249 | each sensor type is analysed by its own analyser (displacement, rainfall, water level, tilt) on the one new sample, other types by none; an alert is always WARNING or CRITICAL |
| MqttBridge.StatusLevel | backend/mqtt_bridge.py:255-276 | the alert's level when WARNING or CRITICAL, and "LOW" exactly otherwise |
| MqttBridge.StatusMessage | backend/mqtt_bridge.py:259-274 | a station status carries `risk_level` and no `level` key |
| MqttBridge.SaveInterval | backend/mqtt_bridge.py:288-292 | without a default interval in the settings no interval can be read |
| MqttBridge.DecideSave | backend/mqtt_bridge.py:280-295 | save when dangerous; otherwise abort iff the interval cannot be read, and wait iff less than the interval has passed since the last save |
| MqttBridge.ConfiguredSettingsSaveOnlyDangerous | backend/mqtt_bridge.py:288 | with the settings as configured, only dangerous readings are ever saved |
| MqttBridge.IntendedSettingsSaveRule | backend/mqtt_bridge.py:282-295 | with the intended intervals, a reading is saved iff dangerous or its interval has elapsed |
| MqttBridge.SaveSpacing | backend/mqtt_bridge.py:294-295 | two non-dangerous saves of one device and sensor are at least the interval apart |
| MqttBridge.StatusMessageNeverBypassesThrottle | backend/mqtt_bridge.py:259-263 | a CRITICAL station status is still throttled, because it has no `level` key |
| MqttBridge.Bridge.constructor | backend/mqtt_bridge.py:52-55 | empty topic map, cache and save times |
| MqttBridge.Bridge.OnConnect | backend/mqtt_bridge.py:59-66 | on `rc == 0` every mapped topic is subscribed; otherwise none |
| MqttBridge.Bridge.ReloadTopics | backend/mqtt_bridge.py:129-181 | on success the map is the new one, subscribing to the new topics and unsubscribing from the old ones; a failed query or a raise leaves the map as it was |
| MqttBridge.Bridge.ScanRows | backend/mqtt_bridge.py:144-170 | the reload loop computes the scan of the rows, stopped by the first `KeyError`, and leaves the topic map and save times alone |
| MqttBridge.Bridge.ScanRow | backend/mqtt_bridge.py:145-170 | one iteration creates the device's processor when uncached and of a known type, then maps its topic, or raises |
| MqttBridge.Bridge.SaveReading | backend/mqtt_bridge.py:278-335 | saves exactly when the save rule says so: the station is stamped, a dict reading and its alert are written, and the save time recorded; otherwise nothing changes |
| MqttBridge.Bridge.ProcessPipeline | backend/mqtt_bridge.py:183-335 | an unknown topic or falsy data has no effect; otherwise the sensor message and the station status are broadcast, and a save stamps the station, writes the row and alert, and records the save time |
| MqttBridge.StaysFailed | backend/mqtt_bridge.py:179-180 | once the scan raises, the rest of the scan does not recover |
| Auth.UserPermissions | backend/app/auth.py:75-82 | admin has all three permissions, operator edit and view, viewer view, and any other role none |
| Auth.RoleRank | backend/app/auth.py:76-81 | unknown roles rank at the bottom |
| Auth.PermissionsNested | backend/app/auth.py:76-81 | a higher role has every permission of a lower one |
| Auth.RequirePermission | backend/app/auth.py:84-90 | the user iff the role grants the permission: `manage_users` only for admin, `edit_stations` for admin and operator, `view_stations` for those and viewer; otherwise 403 |
| Auth.AdminPassesEveryCheck | backend/app/auth.py:84-90 | an admin passes every check anyone passes |
| Auth.CurrentUser | backend/app/auth.py:49-72 | 401 for a token that does not decode, lacks `sub` or names no user; otherwise that user |
| Auth.InactiveUsersAccepted | backend/app/auth.py:49-72 | a valid token of an inactive account is still accepted |
| Auth.TokenClaims | backend/app/auth.py:42-46 | a copy of the payload plus `exp`, the delta or 60 minutes later |
| Auth.IssuedTokenAuthenticates | backend/app/auth.py:42-72 | a freshly issued token for a listed user authenticates that user |

## Left out

- Database sessions, queries, commits and rollbacks. Query results are parameters: a value, or None when the query raises. ORM flush behaviour of JSON columns mutated in place is not modelled; the model gives the in-memory result.
- FastAPI routing, dependency injection, static files and start-up. HTTP errors are `Err(status)`.
- The other CRUD endpoints of `main.py` and `admin.py`. They are plain reads and writes with a 404 guard and carry no decision rule.
- MQTT client I/O: connect, loop, `on_disconnect` with its retry timer, and the polling loop of `GNSSLiveFetcher.fetch_origin`. Subscriptions are returned as sets of topics.
- AES decryption of payloads, bcrypt hashing and JWT signing and decoding. A token arrives decoded or as None.
- asyncio tasks and sleeps, and `_flush_buffer_periodically` with `_send_batch`. The message buffer is never written, so the flush never sends.
- The IMU processor is not part of this model. Its answer enters the pipeline as a parameter, like every processor's.
- Geodesy and numerics are parameters:
  - haversine, ECEF and ENU conversion, the rotation matrix;
  - velocity averaging, `sqrt`, `atan2`, `polyfit`, `np.mean`.
- `round(...)` in every returned value, and the message texts of alerts and results.
- `float()`/`int()` accept a sign, digits and an optional fraction. Exponents, `inf`/`nan`, surrounding blanks and underscores are not modelled.
- `json.loads` and `str()` of a JSON value are parameters (`StepOutcome.NotJson`, `show`).
- WebSocket connections are numbers. Sending is a set of connections that fail.
- The clock is the parameter `now`.
- The bridge holds processors by a serial number and calls none of them. `ProcessPipeline` receives the processor's answer as its `outcome` parameter.
- MqttBridge.Bridge.ProcessPipeline: the database rows are returned as values; a failing commit is not modelled.
- LandslideAnalyzer.DetectTrend: the slope is a parameter, a total function; a `polyfit` that raises, which the source reads as "stable", is not modelled.
- LandslideAnalyzer.AnalyzeSpan: which timestamps `datetime.fromtimestamp` accepts depends on the platform and the local time zone, so it is the parameter `dated`.
- LandslideAnalyzer.AnalyzeGnssDisplacement: the length of the ENU vector is a parameter `norm`.
- LandslideAnalyzer.ClassifyCrudenVarnes: a table of two or more entries whose sort keys (`min`) are not all numbers is an error; Python would still sort it when the keys are all text, and would then compare the `mm_giay` thresholds.
- LandslideAnalyzer.ClassifyExtendedBy: table entries whose thresholds are neither numbers nor missing are an error, without following Python's comparison of mixed types.
- GnssProcessor.GnssVelocityProcessor.HandleProcessing: the result's position and velocity figures come from the geodesy parameter. The model keeps the fix, the timestamps and the counters.
- MainApi.SensorCoord: states only what a returned coordinate comes from, not that every usable entry gives one.
- LandslideAnalyzer.Timestamps: states what a successful read gives, not which points make it fail.
- WebSocket.Keep: states which connections may remain, not that every working one does; `SendToAll` states the rest through `KeepAndFailedSplit`.

## Findings

| source | as written | input that shows it | evidently intended | confidence | as-written member | corrected member |
|---|---|---|---|---|---|---|
| backend/mqtt_bridge.py:288-292 | reads `settings.SAVE_INTERVAL_DEFAULT`, `SAVE_INTERVAL_RAIN` and `SAVE_INTERVAL_WATER`, which `backend/app/config.py:22-25` does not define, so the attribute error escapes before the save for every reading that is not dangerous | a rain reading with intensity 0 on a station with default thresholds: broadcast, then abort with nothing saved | rain and water save every `SAVE_INTERVAL_ENV` (3600 s), GNSS every 86400 s, IMU every 2592000 s | not executed | MqttBridge.ConfiguredSettingsSaveOnlyDangerous | MqttBridge.IntendedSettingsSaveRule |
| backend/app/landslide_analyzer.py:166-179 | reads `mm_year` or `mm_s` from each class, but the default configuration of `backend/app/routers/admin.py:66-74` writes only `mm_giay`, so every threshold is 0 | any velocity ≥ 0 mm/year, e.g. 1 mm/year, on a station with the default configuration: "Extremely rapid" | `mm_giay` (mm per second) scaled to mm per year, so each velocity falls into its own band | not executed | LandslideAnalyzer.DefaultConfigClassifiesEverythingExtremelyRapid | LandslideAnalyzer.DefaultConfigClassifiesByBand |
