/**
 * The MQTT-to-database bridge: the topic map rebuilt from the active
 * devices, the per-device processor cache, and the pipeline every incoming
 * message goes through (process, broadcast, analyse, broadcast the station
 * status, save under a per-device throttle).
 *
 * The broker client, the databases and the event loop are outside the
 * model: a reload receives the rows its query returned, the pipeline
 * receives the answer of the device's processor and the clock, and both
 * return what they would send (subscriptions, WebSocket messages, rows to
 * store) instead of sending it.
 */
module MqttBridge {
  import opened Wrappers
  import opened JsonValues
  import opened Levels
  import Text
  import LandslideAnalyzer
  import WebSocket

  // ---- topic map and processor cache -------------------------------------------

  datatype ProcessorKind = GnssKind | RainKind | WaterKind | ImuKind

  /** A processor object; `serial` is its creation order and stands for its identity. */
  datatype Processor = Processor(kind: ProcessorKind, serial: nat)

  /** A row of the join of active devices with their stations. */
  datatype DeviceRow = DeviceRow(
    deviceId: nat, deviceName: string, mqttTopic: Option<string>, deviceType: string,
    stationId: int, stationName: string, stationConfig: Json)

  /** The `info` dictionary a topic maps to. */
  datatype TopicInfo = TopicInfo(
    deviceId: nat, deviceName: string, stationId: int, stationName: string,
    sensorType: string, processor: Processor, config: Json)

  /** The processor class a device type gets; other types get none. */
  function KindOf(deviceType: string): (r: Option<ProcessorKind>)
    ensures r.Some? <==> deviceType in ["gnss", "rain", "water", "imu"]
    ensures r == Some(GnssKind) <==> deviceType == "gnss"
    ensures r == Some(RainKind) <==> deviceType == "rain"
    ensures r == Some(WaterKind) <==> deviceType == "water"
    ensures r == Some(ImuKind) <==> deviceType == "imu"
  {
    if deviceType == "gnss" then Some(GnssKind)
    else if deviceType == "rain" then Some(RainKind)
    else if deviceType == "water" then Some(WaterKind)
    else if deviceType == "imu" then Some(ImuKind)
    else None
  }

  /**
   * `if not topic or not topic.strip(): continue`: a device whose topic is
   * missing, empty or only whitespace is skipped. `strip()` is empty exactly
   * for blank text (`Text.Strip`), so the test reads as "not blank".
   */
  predicate HasTopic(row: DeviceRow) {
    row.mqttTopic.Some? && !Text.IsBlank(row.mqttTopic.value)
  }

  /** The test of `HasTopic` is the `strip()` test of the source. */
  lemma HasTopicIsStripTest(row: DeviceRow)
    ensures HasTopic(row) <==> row.mqttTopic.Some? && Text.Strip(row.mqttTopic.value) != ""
  {
  }

  /** `f"device_{device.id}"`. */
  function ProcKey(deviceId: nat): string {
    "device_" + Text.NatToString(deviceId)
  }

  /**
   * Different devices have different cache keys, so a cache keyed by
   * `f"device_{device.id}"` holds the same entries as one keyed by the id;
   * the processor cache below is keyed by the id.
   */
  lemma ProcKeyInjective(a: nat, b: nat)
    requires ProcKey(a) == ProcKey(b)
    ensures a == b
  {
    var p := "device_";
    assert ProcKey(a)[|p|..] == Text.NatToString(a);
    assert ProcKey(b)[|p|..] == Text.NatToString(b);
    Text.ParseNatToString(a);
    Text.ParseNatToString(b);
  }

  /** `station.config or {}`. */
  function ConfigOr(c: Json): (r: Json)
    ensures Truthy(c) ==> r == c
    ensures !Truthy(c) ==> r == JObj(map[])
  {
    if Truthy(c) then c else JObj(map[])
  }

  /**
   * The state of one pass over the rows of a reload: the processor cache,
   * the number of processors created so far, the map being built, and
   * whether a `KeyError` has ended the pass.
   */
  datatype ScanState = ScanState(cache: map<nat, Processor>, created: nat,
                                 newMap: map<string, TopicInfo>, failed: bool)

  /**
   * One iteration of the reload loop: a device with a topic gets a processor
   * for its type unless its key is cached already, then its topic is mapped.
   * A device of another type with no cached processor raises `KeyError` when
   * its entry is built, which ends the pass.
   */
  function ScanStep(st: ScanState, row: DeviceRow): (r: ScanState)
    ensures st.failed || !HasTopic(row) ==> r == st
  {
    if st.failed || !HasTopic(row) then st
    else
      var key := row.deviceId;
      var kind := KindOf(row.deviceType);
      if key !in st.cache && kind.None? then st.(failed := true)
      else
        var cache := if key in st.cache then st.cache else st.cache[key := Processor(kind.value, st.created)];
        var created := if key in st.cache then st.created else st.created + 1;
        var info := TopicInfo(row.deviceId, row.deviceName, row.stationId, row.stationName,
                              row.deviceType, cache[key], ConfigOr(row.stationConfig));
        ScanState(cache, created, st.newMap[row.mqttTopic.value := info], false)
  }

  /** The loop over all rows, in order. */
  function Scan(st: ScanState, rows: seq<DeviceRow>): ScanState {
    if rows == [] then st else ScanStep(Scan(st, rows[..|rows| - 1]), rows[|rows| - 1])
  }

  /** Every mapped topic is a real topic whose processor is the one cached for its device. */
  ghost predicate MapsCachedProcessors(m: map<string, TopicInfo>, cache: map<nat, Processor>) {
    forall t :: t in m ==> (!Text.IsBlank(t) && m[t].deviceId in cache
                            && cache[m[t].deviceId] == m[t].processor)
  }

  /** Every processor has a serial below the count and no two cache keys share one. */
  ghost predicate CacheWellFormed(cache: map<nat, Processor>, created: nat) {
    && (forall k :: k in cache ==> cache[k].serial < created)
    && (forall k1, k2 :: k1 in cache && k2 in cache && k1 != k2 ==> cache[k1].serial != cache[k2].serial)
  }

  /**
   * A processor is created once per device and then reused: the pass keeps
   * every cached processor, creates only processors with fresh serials, and
   * never gives two devices the same processor.
   */
  lemma {:induction false} ScanKeepsCache(st: ScanState, rows: seq<DeviceRow>)
    requires CacheWellFormed(st.cache, st.created)
    ensures var r := Scan(st, rows);
      && st.created <= r.created
      && (forall k :: k in st.cache ==> k in r.cache && r.cache[k] == st.cache[k])
      && CacheWellFormed(r.cache, r.created)
  {
    if rows != [] {
      ScanKeepsCache(st, rows[..|rows| - 1]);
      ScanStepKeepsCache(Scan(st, rows[..|rows| - 1]), rows[|rows| - 1]);
    }
  }

  lemma ScanStepKeepsCache(st: ScanState, row: DeviceRow)
    requires CacheWellFormed(st.cache, st.created)
    ensures var r := ScanStep(st, row);
      && st.created <= r.created
      && (forall k :: k in st.cache ==> k in r.cache && r.cache[k] == st.cache[k])
      && CacheWellFormed(r.cache, r.created)
  {
  }

  /**
   * Once the pass has failed it stays failed; a pass that ends without
   * failure maps only topics of devices that have one, each to a processor
   * that is in the cache under its device's key.
   */
  lemma {:induction false} ScanMapsCachedProcessors(st: ScanState, rows: seq<DeviceRow>)
    requires !st.failed
    requires MapsCachedProcessors(st.newMap, st.cache)
    ensures var r := Scan(st, rows);
      !r.failed ==> MapsCachedProcessors(r.newMap, r.cache)
  {
    if rows != [] {
      ScanMapsCachedProcessors(st, rows[..|rows| - 1]);
      var mid := Scan(st, rows[..|rows| - 1]);
      if !mid.failed {
        ScanStepMapsCachedProcessors(mid, rows[|rows| - 1]);
      }
    }
  }

  lemma ScanStepMapsCachedProcessors(st: ScanState, row: DeviceRow)
    requires !st.failed
    requires MapsCachedProcessors(st.newMap, st.cache)
    ensures var r := ScanStep(st, row);
      !r.failed ==> MapsCachedProcessors(r.newMap, r.cache)
  {
    if HasTopic(row) && (row.deviceId in st.cache || KindOf(row.deviceType).Some?) {
      var r := ScanStep(st, row);
      assert forall k :: k in st.cache ==> k in r.cache && r.cache[k] == st.cache[k];
      assert r.newMap == st.newMap[row.mqttTopic.value := r.newMap[row.mqttTopic.value]];
    }
  }

  /** A map whose processors are cached stays so when the cache only grows. */
  lemma CacheGrowthKeepsMap(m: map<string, TopicInfo>, cache: map<nat, Processor>, grown: map<nat, Processor>)
    requires MapsCachedProcessors(m, cache)
    requires forall k :: k in cache ==> k in grown && grown[k] == cache[k]
    ensures MapsCachedProcessors(m, grown)
  {
  }

  /** With only known device types, or with every device already cached, a pass never fails. */
  lemma {:induction false} KnownTypesNeverFail(st: ScanState, rows: seq<DeviceRow>)
    requires !st.failed
    requires forall i :: 0 <= i < |rows| && HasTopic(rows[i]) ==>
      KindOf(rows[i].deviceType).Some? || rows[i].deviceId in st.cache
    ensures !Scan(st, rows).failed
  {
    if rows != [] {
      KnownTypesNeverFail(st, rows[..|rows| - 1]);
      ScanKeepsCacheKeys(st, rows[..|rows| - 1]);
    }
  }

  lemma {:induction false} ScanKeepsCacheKeys(st: ScanState, rows: seq<DeviceRow>)
    ensures st.cache.Keys <= Scan(st, rows).cache.Keys
  {
    if rows != [] {
      ScanKeepsCacheKeys(st, rows[..|rows| - 1]);
    }
  }

  /** After a successful pass, every device with a topic has that topic in the map. */
  lemma {:induction false} ScanMapsEveryTopic(st: ScanState, rows: seq<DeviceRow>, i: nat)
    requires i < |rows| && HasTopic(rows[i])
    requires !Scan(st, rows).failed
    ensures rows[i].mqttTopic.value in Scan(st, rows).newMap
  {
    var last := |rows| - 1;
    var mid := Scan(st, rows[..last]);
    assert !mid.failed;
    if i < last {
      assert rows[..last][i] == rows[i];
      ScanMapsEveryTopic(st, rows[..last], i);
      ScanStepKeepsTopics(mid, rows[last]);
    }
  }

  lemma ScanStepKeepsTopics(st: ScanState, row: DeviceRow)
    requires !ScanStep(st, row).failed
    ensures st.newMap.Keys <= ScanStep(st, row).newMap.Keys
  {
  }

  // ---- the pipeline ------------------------------------------------------------

  /** What the device's processor answered, as the pipeline sees it. */
  datatype StepOutcome =
    | GnssAnswer(result: Option<Dict>)  // the dictionary `process_gngga` returned, or None
    | EngineAnswer(answer: Json)        // `json.loads` succeeded and the rain/water/IMU engine returned this
    | NotJson                           // `json.loads` raised `JSONDecodeError`
    | Raised                            // any other exception while processing

  /**
   * `processed_data` after the processing step; `JNull` on every early exit
   * (an `origin_locked` fix, a non-JSON payload, an exception, a device type
   * with no engine).
   */
  function ProcessedData(sensorType: string, outcome: StepOutcome): (r: Json)
    ensures outcome.NotJson? || outcome.Raised? ==> r == JNull
    ensures (outcome.GnssAnswer? && outcome.result.Some?
             && Get(outcome.result.value, "type") == JStr("origin_locked")) ==> r == JNull
    ensures sensorType !in ["gnss", "rain", "water", "imu"] ==> r == JNull
    ensures (sensorType == "gnss" && outcome.GnssAnswer? && outcome.result.Some?
             && Get(outcome.result.value, "type") == JStr("gnss_processed")) ==> r == Get(outcome.result.value, "data")
    ensures outcome.EngineAnswer? && sensorType in ["rain", "water", "imu"] ==> r == outcome.answer
    ensures r != JNull ==>
      (outcome.GnssAnswer? && sensorType == "gnss" && outcome.result.Some?
       && Get(outcome.result.value, "type") == JStr("gnss_processed"))
      || (outcome.EngineAnswer? && sensorType in ["rain", "water", "imu"])
  {
    match outcome
    case GnssAnswer(res) =>
      if sensorType == "gnss" && res.Some? && Get(res.value, "type") == JStr("gnss_processed")
      then Get(res.value, "data") else JNull
    case EngineAnswer(res) =>
      if sensorType == "rain" || sensorType == "water" || sensorType == "imu" then res else JNull
    case NotJson => JNull
    case Raised => JNull
  }

  /** `[{"timestamp": current_timestamp, "data": processed_data}]`. */
  function DataWrapper(now: int, processed: Json): seq<Json> {
    [JObj(map["timestamp" := JNum(now as real), "data" := processed])]
  }

  /** The alert of the analyser for the sensor type, on the one new sample; errors give none. */
  function Analyze(sensorType: string, processed: Json, now: int, config: Json,
                   norm: (real, real, real) -> real): (r: Option<LandslideAnalyzer.SensorAlert>)
    ensures r.Some? ==> IsDangerous(r.value.level)
    ensures !processed.JObj? ==> r == None
    ensures sensorType == "gnss" ==>
      r == (if config.JObj? then LandslideAnalyzer.AnalyzeGnssDisplacement(DataWrapper(now, processed), config.fields, norm)
            else None)
    ensures sensorType == "rain" ==>
      r == LandslideAnalyzer.AnalyzeRainfall(DataWrapper(now, processed), if config.JObj? then config.fields else map[])
    ensures sensorType == "water" ==>
      r == LandslideAnalyzer.AnalyzeWaterLevel(DataWrapper(now, processed), if config.JObj? then config.fields else map[])
    ensures sensorType == "imu" ==>
      r == LandslideAnalyzer.AnalyzeTilt(DataWrapper(now, processed), if config.JObj? then config.fields else map[])
    ensures sensorType !in ["gnss", "rain", "water", "imu"] ==> r == None
  {
    var recent := DataWrapper(now, processed);
    // a non-dictionary config makes `_get_cfg` fall back to its defaults, as `{}` does,
    // but the GNSS analyser's class lookup calls `config.get` and raises
    var cfg := if config.JObj? then config.fields else map[];
    if sensorType == "gnss" then
      if config.JObj? then LandslideAnalyzer.AnalyzeGnssDisplacement(recent, cfg, norm) else None
    else if sensorType == "rain" then LandslideAnalyzer.AnalyzeRainfall(recent, cfg)
    else if sensorType == "water" then LandslideAnalyzer.AnalyzeWaterLevel(recent, cfg)
    else if sensorType == "imu" then LandslideAnalyzer.AnalyzeTilt(recent, cfg)
    else None
  }

  function LevelName(l: AlertLevel): string {
    match l
    case Info => "INFO"
    case Warning => "WARNING"
    case Critical => "CRITICAL"
  }

  /** The `risk_level` of the station status: the alert's level when dangerous, "LOW" otherwise. */
  function StatusLevel(alert: Option<LandslideAnalyzer.SensorAlert>): (r: string)
    ensures r == "LOW" <==> alert.None? || !IsDangerous(alert.value.level)
    ensures r == "CRITICAL" <==> alert.Some? && alert.value.level == Critical
    ensures r == "WARNING" <==> alert.Some? && alert.value.level == Warning
  {
    if alert.Some? && IsDangerous(alert.value.level) then LevelName(alert.value.level) else "LOW"
  }

  /** The realtime `sensor_data` message. */
  function SensorMessage(info: TopicInfo, now: int, processed: Json): Dict {
    map["type" := JStr("sensor_data"), "station_id" := JNum(info.stationId as real),
        "sensor_type" := JStr(info.sensorType), "timestamp" := JNum(now as real), "data" := processed]
  }

  /** The realtime `station_status` message; it carries `risk_level`, not `level`. */
  function StatusMessage(stationId: int, riskLevel: string): (r: Dict)
    ensures "level" !in r && "risk_level" in r && r["risk_level"] == JStr(riskLevel)
  {
    map["type" := JStr("station_status"), "station_id" := JNum(stationId as real),
        "risk_level" := JStr(riskLevel)]
  }

  /**
   * The save intervals the settings provide; None is an attribute the
   * settings class does not define.
   */
  datatype SaveSettings = SaveSettings(
    default: Option<int>, gnss: Option<int>, imu: Option<int>, rain: Option<int>, water: Option<int>)

  /** The settings as defined: GNSS one day and IMU one month; no default, rain or water interval. */
  const ConfiguredSettings := SaveSettings(None, Some(86400), Some(2592000), None, None)

  /** The settings with the rain and water intervals read from the one-hour environment interval. */
  const IntendedSettings := SaveSettings(Some(3600), Some(86400), Some(2592000), Some(3600), Some(3600))

  /**
   * The interval for a sensor type: `SAVE_INTERVAL_DEFAULT` is read first
   * and then overridden by the type's own attribute; reading an attribute
   * the settings lack raises `AttributeError` (None).
   */
  function SaveInterval(sensorType: string, s: SaveSettings): (r: Option<int>)
    ensures s.default.None? ==> r == None
  {
    if s.default.None? then None
    else if sensorType == "gnss" then s.gnss
    else if sensorType == "imu" then s.imu
    else if sensorType == "rain" then s.rain
    else if sensorType == "water" then s.water
    else s.default
  }

  datatype SaveDecision = SaveNow | Wait | Abort

  /** `last_save_time.get(key, 0)`. */
  function LastSaved(lastSaveTime: map<string, int>, key: string): int {
    if key in lastSaveTime then lastSaveTime[key] else 0
  }

  /** The throttle key `f"{device_id}_{sensor_type}"`. */
  function SaveKey(deviceId: nat, sensorType: string): string {
    Text.NatToString(deviceId) + "_" + sensorType
  }

  /**
   * Whether the reading is stored: always when dangerous; otherwise when the
   * type's interval has passed since the last save of the key, and the
   * pipeline aborts with an exception when the interval cannot be read.
   */
  function DecideSave(dangerous: bool, sensorType: string, now: int, lastSaved: int, s: SaveSettings)
    : (r: SaveDecision)
    ensures dangerous ==> r == SaveNow
    ensures r == Abort <==> !dangerous && SaveInterval(sensorType, s).None?
    ensures r == Wait <==> !dangerous && SaveInterval(sensorType, s).Some?
                           && now - lastSaved < SaveInterval(sensorType, s).value
  {
    if dangerous then SaveNow
    else
      match SaveInterval(sensorType, s)
      case None => Abort
      case Some(interval) => if now - lastSaved >= interval then SaveNow else Wait
  }

  /**
   * As configured, a reading that is not dangerous aborts the pipeline
   * before the save for every sensor type, so only dangerous readings are
   * ever stored.
   */
  lemma ConfiguredSettingsSaveOnlyDangerous(dangerous: bool, sensorType: string, now: int, lastSaved: int)
    ensures DecideSave(dangerous, sensorType, now, lastSaved, ConfiguredSettings) == SaveNow <==> dangerous
    ensures !dangerous ==> DecideSave(dangerous, sensorType, now, lastSaved, ConfiguredSettings) == Abort
  {
  }

  /**
   * With the intended intervals the pipeline never aborts, and a reading of
   * a processed type is stored exactly when it is dangerous or its type's
   * interval (one day GNSS, one month IMU, one hour rain and water) has passed.
   */
  lemma IntendedSettingsSaveRule(dangerous: bool, sensorType: string, now: int, lastSaved: int)
    requires sensorType in ["gnss", "rain", "water", "imu"]
    ensures var d := DecideSave(dangerous, sensorType, now, lastSaved, IntendedSettings);
      var interval := if sensorType == "gnss" then 86400 else if sensorType == "imu" then 2592000 else 3600;
      d != Abort && (d == SaveNow <==> dangerous || now - lastSaved >= interval)
  {
  }

  /** Two stored readings of one key that are not dangerous are at least the interval apart. */
  lemma SaveSpacing(sensorType: string, s: SaveSettings, t1: int, t2: int, lastSaveTime: map<string, int>, key: string)
    requires DecideSave(false, sensorType, t2, LastSaved(lastSaveTime[key := t1], key), s) == SaveNow
    ensures t2 - t1 >= SaveInterval(sensorType, s).value
  {
  }

  /**
   * The status message the bridge sends goes through the WebSocket throttle
   * even for a CRITICAL alert: it has no `level` key, so the bypass for
   * WARNING/CRITICAL messages never applies to it, and a second status of
   * the same station within 0.5 s is dropped.
   */
  lemma StatusMessageNeverBypassesThrottle(stationId: int, riskLevel: string, show: Json -> string)
    ensures WebSocket.RouteOf(StatusMessage(stationId, riskLevel), show)
            == WebSocket.Throttled("status_" + show(JNum(stationId as real)), WebSocket.StatusInterval)
  {
    var m := StatusMessage(stationId, riskLevel);
    assert Get(m, "type") == JStr("station_status");
  }

  /** The `sensor_data` table row. */
  datatype SensorRow = SensorRow(stationId: int, timestamp: int, sensorType: string, data: Json,
                                 value1: Json, value2: Json)

  /** What one message leads to. */
  datatype Effects = Effects(
    broadcasts: seq<Dict>,                           // WebSocket messages, in order
    stationTouched: bool,                            // device `last_data_time` and station `online` updated
    sensorRow: Option<SensorRow>,                    // the reading stored
    alertRow: Option<LandslideAnalyzer.SensorAlert>) // the alert stored, unresolved

  const NoEffects := Effects([], false, None, None)

  /** `value_1` and `value_2`: speed and total displacement for GNSS, water level and intensity otherwise. */
  function RowOf(info: TopicInfo, now: int, data: Dict): SensorRow {
    var gnss := info.sensorType == "gnss";
    SensorRow(info.stationId, now, info.sensorType, JObj(data),
              Get(data, if gnss then "speed_2d_mm_s" else "water_level"),
              Get(data, if gnss then "total_displacement_mm" else "intensity_mm_h"))
  }

  class Bridge {
    var topicMap: map<string, TopicInfo>
    /** `processors_cache`, keyed by the device id that its `device_{id}` key encodes (see `ProcKeyInjective`). */
    var processorsCache: map<nat, Processor>
    /** The number of processors created so far; the next one gets this serial. */
    var created: nat
    var lastSaveTime: map<string, int>

    ghost predicate Valid()
      reads this
    {
      && CacheWellFormed(processorsCache, created)
      && MapsCachedProcessors(topicMap, processorsCache)
    }

    constructor()
      ensures Valid()
      ensures topicMap == map[] && processorsCache == map[] && created == 0 && lastSaveTime == map[]
    {
      topicMap := map[];
      processorsCache := map[];
      created := 0;
      lastSaveTime := map[];
    }

    /** `on_connect`: on success every topic of the map is subscribed; on failure nothing is. */
    method OnConnect(rc: int) returns (subscribed: set<string>)
      ensures rc == 0 ==> subscribed == topicMap.Keys
      ensures rc != 0 ==> subscribed == {}
    {
      subscribed := {};
      if rc == 0 {
        var topics := topicMap.Keys;
        while topics != {}
          invariant topics <= topicMap.Keys
          invariant subscribed == topicMap.Keys - topics
          decreases topics
        {
          var topic :| topic in topics;
          subscribed := subscribed + {topic};
          topics := topics - {topic};
        }
      }
    }

    /**
     * One round of `reload_topics_from_db`. `query` is the rows of active
     * devices joined with their stations, or None when the query raised.
     * On success the map is replaced and exactly the new topics are
     * subscribed and the vanished ones unsubscribed; on any exception the
     * map and the subscriptions stay as they were, though processors
     * created before the failing row stay cached.
     */
    method ReloadTopics(query: Option<seq<DeviceRow>>) returns (subscribe: set<string>, unsubscribe: set<string>)
      requires Valid()
      modifies this
      ensures Valid()
      ensures lastSaveTime == old(lastSaveTime)
      ensures query.None? ==> topicMap == old(topicMap) && processorsCache == old(processorsCache)
                              && created == old(created) && subscribe == {} && unsubscribe == {}
      ensures query.Some? ==>
        var r := Scan(ScanState(old(processorsCache), old(created), map[], false), query.value);
        processorsCache == r.cache && created == r.created
        && (!r.failed ==> topicMap == r.newMap
                          && subscribe == r.newMap.Keys - old(topicMap).Keys
                          && unsubscribe == old(topicMap).Keys - r.newMap.Keys)
        && (r.failed ==> topicMap == old(topicMap) && subscribe == {} && unsubscribe == {})
    {
      subscribe, unsubscribe := {}, {};
      if query.None? {
        return;
      }
      var rows := query.value;
      ghost var start := ScanState(processorsCache, created, map[], false);
      var newMap, failed := ScanRows(rows);
      ScanKeepsCache(start, rows);
      if !failed {
        ScanMapsCachedProcessors(start, rows);
        subscribe := newMap.Keys - topicMap.Keys;
        unsubscribe := topicMap.Keys - newMap.Keys;
        topicMap := newMap;
      } else {
        CacheGrowthKeepsMap(topicMap, start.cache, processorsCache);
      }
    }

    /** The reload loop over the rows, stopped by the first `KeyError`. */
    method ScanRows(rows: seq<DeviceRow>) returns (newMap: map<string, TopicInfo>, failed: bool)
      modifies this
      ensures ScanState(processorsCache, created, newMap, failed)
              == Scan(ScanState(old(processorsCache), old(created), map[], false), rows)
      ensures topicMap == old(topicMap) && lastSaveTime == old(lastSaveTime)
    {
      ghost var start := ScanState(processorsCache, created, map[], false);
      newMap, failed := map[], false;
      var i := 0;
      while i < |rows| && !failed
        invariant 0 <= i <= |rows|
        invariant Scan(start, rows[..i]) == ScanState(processorsCache, created, newMap, failed)
        invariant failed ==> Scan(start, rows) == Scan(start, rows[..i])
        invariant topicMap == old(topicMap) && lastSaveTime == old(lastSaveTime)
      {
        assert rows[..i + 1][..i] == rows[..i];
        newMap, failed := ScanRow(rows[i], newMap);
        if failed {
          StaysFailed(start, rows, i + 1);
        }
        i := i + 1;
      }
      if !failed {
        assert rows[..i] == rows;
      }
    }

    /**
     * The body of the reload loop for one row: create the device's processor
     * if it is not cached, then map its topic; `failed` is the `KeyError` of
     * a device of an unknown type with no cached processor.
     */
    method ScanRow(row: DeviceRow, newMap: map<string, TopicInfo>) returns (nextMap: map<string, TopicInfo>, failed: bool)
      modifies this
      ensures ScanState(processorsCache, created, nextMap, failed)
              == ScanStep(ScanState(old(processorsCache), old(created), newMap, false), row)
      ensures topicMap == old(topicMap) && lastSaveTime == old(lastSaveTime)
    {
      nextMap, failed := newMap, false;
      if HasTopic(row) {
        var topic := row.mqttTopic.value;
        var procKey := row.deviceId;
        if procKey !in processorsCache {
          var kind := KindOf(row.deviceType);
          if kind.Some? {
            processorsCache := processorsCache[procKey := Processor(kind.value, created)];
            created := created + 1;
          }
        }
        if procKey !in processorsCache {
          // KeyError on `self.processors_cache[proc_key]`
          failed := true;
        } else {
          nextMap := newMap[topic := TopicInfo(row.deviceId, row.deviceName, row.stationId, row.stationName,
                                               row.deviceType, processorsCache[procKey], ConfigOr(row.stationConfig))];
        }
      }
    }

    /**
     * `process_pipeline` for one message on `topic` at `now`: the device's
     * processor answered `outcome`. Returns the messages broadcast and the
     * rows stored; only `last_save_time` changes.
     */
    method ProcessPipeline(topic: string, outcome: StepOutcome, now: int, settings: SaveSettings,
                           norm: (real, real, real) -> real) returns (effects: Effects)
      modifies this
      ensures topicMap == old(topicMap) && processorsCache == old(processorsCache) && created == old(created)
      ensures topic !in topicMap ==> effects == NoEffects && lastSaveTime == old(lastSaveTime)
      ensures topic in topicMap ==>
        var info := topicMap[topic];
        var processed := ProcessedData(info.sensorType, outcome);
        var alert := Analyze(info.sensorType, processed, now, info.config, norm);
        var key := SaveKey(info.deviceId, info.sensorType);
        var decision := DecideSave(alert.Some?, info.sensorType, now, LastSaved(old(lastSaveTime), key), settings);
        (!Truthy(processed) ==> effects == NoEffects && lastSaveTime == old(lastSaveTime))
        && (Truthy(processed) ==>
              effects.broadcasts == [SensorMessage(info, now, processed),
                                     StatusMessage(info.stationId, StatusLevel(alert))]
              && (decision != SaveNow ==> effects.stationTouched == false && effects.sensorRow == None
                                          && effects.alertRow == None && lastSaveTime == old(lastSaveTime))
              && (decision == SaveNow ==>
                    effects.stationTouched
                    && (processed.JObj? ==> effects.sensorRow == Some(RowOf(info, now, processed.fields))
                                            && effects.alertRow == alert
                                            && lastSaveTime == old(lastSaveTime)[key := now])
                    && (!processed.JObj? ==> effects.sensorRow == None && effects.alertRow == None
                                             && lastSaveTime == old(lastSaveTime))))
    {
      effects := NoEffects;
      if topic !in topicMap {
        return;
      }
      var info := topicMap[topic];
      var processed := ProcessedData(info.sensorType, outcome);
      if !Truthy(processed) {
        return;
      }
      // realtime broadcast 1: the reading, then the analysis of the one new sample
      var alert := Analyze(info.sensorType, processed, now, info.config, norm);
      // realtime broadcast 2: the station colour
      var broadcasts := [SensorMessage(info, now, processed), StatusMessage(info.stationId, StatusLevel(alert))];
      effects := SaveReading(info, processed, alert, now, settings, broadcasts);
    }

    /**
     * The throttled save of `process_pipeline`, after both broadcasts: a
     * dangerous reading is saved at once, any other once its type's interval
     * has passed since the device's last save; reading the interval raises
     * when the settings lack it, which ends the coroutine.
     */
    method SaveReading(info: TopicInfo, processed: Json, alert: Option<LandslideAnalyzer.SensorAlert>, now: int,
                       settings: SaveSettings, broadcasts: seq<Dict>) returns (effects: Effects)
      requires alert.Some? ==> IsDangerous(alert.value.level)
      modifies this
      ensures topicMap == old(topicMap) && processorsCache == old(processorsCache) && created == old(created)
      ensures effects.broadcasts == broadcasts
      ensures var key := SaveKey(info.deviceId, info.sensorType);
        var decision := DecideSave(alert.Some?, info.sensorType, now, LastSaved(old(lastSaveTime), key), settings);
        (decision != SaveNow ==> effects.stationTouched == false && effects.sensorRow == None
                                 && effects.alertRow == None && lastSaveTime == old(lastSaveTime))
        && (decision == SaveNow ==>
              effects.stationTouched
              && (processed.JObj? ==> effects.sensorRow == Some(RowOf(info, now, processed.fields))
                                      && effects.alertRow == alert
                                      && lastSaveTime == old(lastSaveTime)[key := now])
              && (!processed.JObj? ==> effects.sensorRow == None && effects.alertRow == None
                                       && lastSaveTime == old(lastSaveTime)))
    {
      effects := NoEffects.(broadcasts := broadcasts);
      var isDangerous := alert.Some? && IsDangerous(alert.value.level);
      var key := SaveKey(info.deviceId, info.sensorType);
      var saveDataNow := false;
      if isDangerous {
        saveDataNow := true;
      } else {
        var interval := SaveInterval(info.sensorType, settings);
        if interval.None? {
          // AttributeError: the coroutine ends here
          return;
        }
        if now - LastSaved(lastSaveTime, key) >= interval.value {
          saveDataNow := true;
        }
      }
      if saveDataNow {
        effects := effects.(stationTouched := true);
        if processed.JObj? {
          effects := effects.(sensorRow := Some(RowOf(info, now, processed.fields)));
          lastSaveTime := lastSaveTime[key := now];
          if isDangerous {
            effects := effects.(alertRow := alert);
          }
        }
      }
    }
  }

  lemma StaysFailed(start: ScanState, rows: seq<DeviceRow>, i: nat)
    requires i <= |rows| && Scan(start, rows[..i]).failed
    ensures Scan(start, rows) == Scan(start, rows[..i])
    decreases |rows| - i
  {
    if i < |rows| {
      assert rows[..i + 1][..i] == rows[..i];
      StaysFailed(start, rows, i + 1);
    } else {
      assert rows[..i] == rows;
    }
  }
}
