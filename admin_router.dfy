/**
 * The admin router (`backend/app/routers/admin.py`): the default station
 * configuration, the station config read/merge/reset, the location rule of
 * station creation, the system-password check and the live GNSS origin
 * fetcher's sentence filter.
 */
module AdminRouter {
  import opened Wrappers
  import opened JsonValues
  import Text
  import Nmea
  import Locations
  import GnssProcessor

  // ---------------------------------------------------------------------------
  // Default configuration
  // ---------------------------------------------------------------------------

  /** One row of the table: its speed is stored under `mm_giay` only. */
  function ClassEntry(name: string, mmPerSecond: real, mPerSecond: real, description: string): (r: Json)
    ensures r.JObj? && "name" in r.fields && r.fields["name"] == JStr(name)
    ensures "mm_giay" in r.fields && r.fields["mm_giay"] == JNum(mmPerSecond)
    ensures "mm_year" !in r.fields && "mm_s" !in r.fields && "min" !in r.fields
  {
    JObj(map["name" := JStr(name), "mm_giay" := JNum(mmPerSecond), "m_giay" := JNum(mPerSecond),
             "desc" := JStr(description)])
  }

  /** The rows of the default Cruden & Varnes table: name, `mm_giay`, `m_giay` and description, fastest first. */
  function DefaultClassRows(): seq<(string, real, real, string)> {
    [ ("Extremely rapid", 5000.0, 0.05, "> 5 m/s"),
      ("Very rapid", 4000.0, 0.04, "3 m/min to 5 m/s"),
      ("Rapid", 2000.0, 0.005, "1.8 m/h to 3 m/min"),
      ("Moderate", 1000.0, 0.03, "13 mm/mo to 1.8 m/h"),
      ("Slow", 0.000051, 0.01, "1.6 m/y to 13 mm/mo"),
      ("Very slow", 0.000001, 0.000000001, "16 mm/y to 1.6 m/y"),
      ("Extremely slow", 0.0, 0.0, "< 16 mm/y") ]
  }

  /** The Cruden & Varnes table of the default configuration, fastest first, keyed by `mm_giay`. */
  function DefaultClassification(): (r: seq<Json>)
    ensures |r| == 7
    ensures forall i :: 0 <= i < |r| ==>
      r[i].JObj? && "name" in r[i].fields && "mm_giay" in r[i].fields && r[i].fields["mm_giay"].JNum?
      && "mm_year" !in r[i].fields && "mm_s" !in r[i].fields && "min" !in r[i].fields
  {
    var rows := DefaultClassRows();
    seq(|rows|, i requires 0 <= i < |rows| => ClassEntry(rows[i].0, rows[i].1, rows[i].2, rows[i].3))
  }

  /** The fastest class of the default table comes first. */
  lemma DefaultClassificationFirst()
    ensures DefaultClassification()[0] == ClassEntry("Extremely rapid", 5000.0, 0.05, "> 5 m/s")
  {
    assert DefaultClassRows()[0] == ("Extremely rapid", 5000.0, 0.05, "> 5 m/s");
  }

  /** `get_default_station_config()`. */
  function DefaultStationConfig(): (d: Dict)
    ensures d.Keys == {"mqtt_topics", "ImuAlerting", "GnssAlerting", "RainAlerting", "Water",
                       "GNSS_Classification", "long_term_analysis"}
    ensures "water" !in d
  {
    map[
      "mqtt_topics" := JObj(map["gnss" := JStr(""), "rain" := JStr(""), "water" := JStr(""), "imu" := JStr("")]),
      "GnssAlerting" := JObj(map["gnss_max_hdop" := JNum(4.0), "gnss_confirm_steps" := JNum(3.0),
                                 "gnss_safe_streak" := JNum(10.0), "gnss_degraded_timeout" := JNum(300.0)]),
      "long_term_analysis" := JObj(map["enabled" := JBool(true), "window_days" := JNum(30.0),
                                       "trend_detection" := JBool(true)]),
      "ImuAlerting" := JObj(map["shock_threshold_ms2" := JNum(5.0)]),
      "RainAlerting" := JObj(map["rain_intensity_watch_threshold" := JNum(10.0),
                                 "rain_intensity_warning_threshold" := JNum(25.0),
                                 "rain_intensity_critical_threshold" := JNum(50.0)]),
      "Water" := JObj(map["warning_threshold" := JNum(0.15), "critical_threshold" := JNum(0.30)]),
      "GNSS_Classification" := JArr(DefaultClassification())
    ]
  }
  /** The IMU, rain and `Water` thresholds and the class table of the default configuration. */
  lemma DefaultSections()
    ensures var d := DefaultStationConfig();
      && d["ImuAlerting"] == JObj(map["shock_threshold_ms2" := JNum(5.0)])
      && d["RainAlerting"] == JObj(map["rain_intensity_watch_threshold" := JNum(10.0),
                                       "rain_intensity_warning_threshold" := JNum(25.0),
                                       "rain_intensity_critical_threshold" := JNum(50.0)])
      && d["Water"] == JObj(map["warning_threshold" := JNum(0.15), "critical_threshold" := JNum(0.30)])
      && d["GNSS_Classification"] == JArr(DefaultClassification())
  {
  }


  /** `station.config or get_default_station_config()`: an empty or missing config reads as the default. */
  function EffectiveConfig(config: Json): (r: Json)
    ensures Truthy(config) ==> r == config
    ensures !Truthy(config) ==> r == JObj(DefaultStationConfig())
    ensures Truthy(r)
  {
    if Truthy(config) then config else JObj(DefaultStationConfig())
  }

  // ---------------------------------------------------------------------------
  // Config merge
  // ---------------------------------------------------------------------------

  /**
   * One key of the merge: dict into dict is `dict.update`, so the nested keys
   * of both survive and the incoming ones win; anything else replaces.
   */
  function MergedValue(existing: Option<Json>, incoming: Json): (r: Json)
    ensures incoming.JObj? && existing.Some? && existing.value.JObj? ==>
      r.JObj? && r.fields.Keys == existing.value.fields.Keys + incoming.fields.Keys
      && (forall k :: k in incoming.fields ==> r.fields[k] == incoming.fields[k])
      && (forall k :: k in existing.value.fields && k !in incoming.fields ==> r.fields[k] == existing.value.fields[k])
    ensures !(incoming.JObj? && existing.Some? && existing.value.JObj?) ==> r == incoming
  {
    if incoming.JObj? && existing.Some? && existing.value.JObj? then JObj(existing.value.fields + incoming.fields)
    else incoming
  }

  /** The configuration after the merge loop, key by key. */
  function Merged(current: Dict, update: Dict): (r: Dict)
    ensures r.Keys == current.Keys + update.Keys
  {
    map k | k in current.Keys + update.Keys ::
      if k in update then MergedValue(if k in current then Some(current[k]) else None, update[k]) else current[k]
  }

  /** The loop of `update_station_config` over the new config's items, updating `current` in place. */
  method MergeConfig(current: Dict, update: Dict) returns (merged: Dict)
    ensures merged == Merged(current, update)
  {
    merged := current;
    var todo := update.Keys;
    while todo != {}
      invariant todo <= update.Keys
      invariant merged == Merged(current, update - todo)
      decreases |todo|
    {
      var key :| key in todo;
      var value := update[key];
      if value.JObj? && key in merged && merged[key].JObj? {
        merged := merged[key := JObj(merged[key].fields + value.fields)];
      } else {
        merged := merged[key := value];
      }
      MergeOneMore(current, update, todo, key);
      todo := todo - {key};
    }
    assert update - todo == update;
  }

  /** One more key of the update merged into the configuration merged so far. */
  lemma MergeOneMore(current: Dict, update: Dict, todo: set<string>, key: string)
    requires key in todo && todo <= update.Keys
    ensures var before := Merged(current, update - todo);
      Merged(current, update - (todo - {key}))
        == before[key := MergedValue(if key in before then Some(before[key]) else None, update[key])]
  {
    var before := Merged(current, update - todo);
    var after := Merged(current, update - (todo - {key}));
    assert key !in update - todo;
    assert before.Keys + {key} == after.Keys;
    forall k | k in after.Keys
      ensures after[k] == before[key := MergedValue(if key in before then Some(before[key]) else None, update[key])][k]
    {
    }
  }

  /** A section present in both as dicts keeps the keys the update does not mention. */
  lemma MergeKeepsSiblings(current: Dict, update: Dict, section: string, key: string)
    requires section in current && current[section].JObj? && key in current[section].fields
    requires section in update && update[section].JObj? && key !in update[section].fields
    ensures Merged(current, update)[section].JObj?
    ensures Merged(current, update)[section].fields[key] == current[section].fields[key]
  {
  }

  /** Sections the update does not mention are untouched; the update's values win everywhere else. */
  lemma MergeUntouchedAndOverridden(current: Dict, update: Dict, section: string)
    requires section in current + update
    ensures section !in update ==> Merged(current, update)[section] == current[section]
    ensures section in update && !update[section].JObj? ==> Merged(current, update)[section] == update[section]
    ensures section in update && update[section].JObj? ==>
      Merged(current, update)[section].JObj?
      && forall k :: k in update[section].fields ==> Merged(current, update)[section].fields[k] == update[section].fields[k]
  {
  }

  /** Applying the same update twice gives what applying it once gives. */
  lemma {:induction false} MergeIdempotent(current: Dict, update: Dict)
    ensures Merged(Merged(current, update), update) == Merged(current, update)
  {
    var once := Merged(current, update);
    var twice := Merged(once, update);
    assert twice.Keys == once.Keys;
    forall k | k in once
      ensures twice[k] == once[k]
    {
      if k in update {
        MergedValueIdempotent(if k in current then Some(current[k]) else None, update[k]);
      }
    }
  }

  lemma MergedValueIdempotent(existing: Option<Json>, incoming: Json)
    ensures MergedValue(Some(MergedValue(existing, incoming)), incoming) == MergedValue(existing, incoming)
  {
    if incoming.JObj? && existing.Some? && existing.value.JObj? {
      assert existing.value.fields + incoming.fields + incoming.fields == existing.value.fields + incoming.fields;
    }
  }

  // ---------------------------------------------------------------------------
  // Station config endpoints
  // ---------------------------------------------------------------------------

  /** The editable columns of a station row. */
  class StationRow {
    var stationCode: Json
    var name: Json
    var hasGnss: Json
    var hasRain: Json
    var hasWater: Json
    var hasImu: Json
    var config: Json

    constructor(stationCode: Json, name: Json, config: Json)
      ensures this.stationCode == stationCode && this.name == name && this.config == config
      ensures hasGnss == JBool(false) && hasRain == JBool(false) && hasWater == JBool(false) && hasImu == JBool(false)
    {
      this.stationCode := stationCode;
      this.name := name;
      this.config := config;
      hasGnss := JBool(false);
      hasRain := JBool(false);
      hasWater := JBool(false);
      hasImu := JBool(false);
    }
  }

  /** `if key in payload: field = payload[key]`: the payload's value if it has the key, else the field as it was. */
  function FieldAfter(payload: Dict, key: string, previous: Json): Json {
    if key in payload then payload[key] else previous
  }

  /**
   * The stored config after the `config` part of an update, or None where the
   * merge raises (the new config is not a dict, or the current one is neither
   * a dict nor empty while the new config has keys), which rolls back as 500.
   */
  function ConfigAfterUpdate(stored: Json, newConfig: Json): (r: Option<Json>)
    ensures !newConfig.JObj? ==> r.None?
    ensures newConfig.JObj? && EffectiveConfig(stored).JObj? ==>
      r == Some(JObj(Merged(EffectiveConfig(stored).fields, newConfig.fields)))
  {
    if !newConfig.JObj? then None
    else
      var current := EffectiveConfig(stored);
      if current.JObj? then Some(JObj(Merged(current.fields, newConfig.fields)))
      else if newConfig.fields == map[] then Some(current)
      else None
  }

  /**
   * `update_station_config`: 404 for a missing station, 400 for an empty
   * payload; otherwise each basic field changes only when its key is present,
   * and a `config` key merges into the current (or default) config.
   */
  method UpdateStationConfig(station: StationRow?, payload: Dict) returns (r: Result<()>)
    modifies station
    ensures station == null <==> r == Err(404)
    ensures station != null && payload == map[] ==> r == Err(400) && unchanged(station)
    ensures station != null && payload != map[] && "config" in payload
            && ConfigAfterUpdate(old(station.config), payload["config"]).None? ==>
              r == Err(500) && unchanged(station)
    ensures station != null && payload != map[]
            && ("config" !in payload || ConfigAfterUpdate(old(station.config), payload["config"]).Some?) ==>
              r == Ok(())
              && station.stationCode == FieldAfter(payload, "station_code", old(station.stationCode))
              && station.name == FieldAfter(payload, "name", old(station.name))
              && station.hasGnss == FieldAfter(payload, "has_gnss", old(station.hasGnss))
              && station.hasRain == FieldAfter(payload, "has_rain", old(station.hasRain))
              && station.hasWater == FieldAfter(payload, "has_water", old(station.hasWater))
              && station.hasImu == FieldAfter(payload, "has_imu", old(station.hasImu))
              && station.config == (if "config" in payload
                                     then ConfigAfterUpdate(old(station.config), payload["config"]).value
                                     else old(station.config))
  {
    if station == null {
      return Err(404);
    }
    if payload == map[] {
      return Err(400);
    }
    var newConfig: Json := station.config;
    if "config" in payload {
      var incoming := payload["config"];
      var current := EffectiveConfig(station.config);
      if !incoming.JObj? || (!current.JObj? && incoming.fields != map[]) {
        // the exception is caught, the session rolled back and 500 returned
        return Err(500);
      }
      if current.JObj? {
        var merged := MergeConfig(current.fields, incoming.fields);
        newConfig := JObj(merged);
      } else {
        newConfig := current;
      }
    }
    station.stationCode := FieldAfter(payload, "station_code", station.stationCode);
    station.name := FieldAfter(payload, "name", station.name);
    station.hasGnss := FieldAfter(payload, "has_gnss", station.hasGnss);
    station.hasRain := FieldAfter(payload, "has_rain", station.hasRain);
    station.hasWater := FieldAfter(payload, "has_water", station.hasWater);
    station.hasImu := FieldAfter(payload, "has_imu", station.hasImu);
    station.config := newConfig;
    return Ok(());
  }

  /** `reset_station_config`: 404 for a missing station; otherwise the config becomes a fresh default, which is returned. */
  method ResetStationConfig(station: StationRow?) returns (r: Result<Json>)
    modifies station
    ensures station == null <==> r == Err(404)
    ensures station != null ==> r == Ok(JObj(DefaultStationConfig())) && station.config == r.value
    ensures station != null ==> EffectiveConfig(station.config) == r.value
    ensures station != null ==> station.stationCode == old(station.stationCode) && station.name == old(station.name)
    ensures station != null ==> station.hasGnss == old(station.hasGnss) && station.hasRain == old(station.hasRain)
                                && station.hasWater == old(station.hasWater) && station.hasImu == old(station.hasImu)
  {
    if station == null {
      return Err(404);
    }
    station.config := JObj(DefaultStationConfig());
    return Ok(station.config);
  }

  // ---------------------------------------------------------------------------
  // create_station: duplicate guard and location rule
  // ---------------------------------------------------------------------------

  /** `j[key]` on a JSON value; anything but a dict holding the key raises (500). */
  function Index(j: Json, key: string): (r: Result<Json>)
    ensures r.Ok? <==> j.JObj? && key in j.fields
    ensures r.Ok? ==> r.value == j.fields[key]
    ensures r.Err? ==> r.status == 500
  {
    if j.JObj? && key in j.fields then Ok(j.fields[key]) else Err(500)
  }

  /** `[p[key] for p in positions if key in p]`: the raw values; a raising `in` or index gives 500. */
  function Collect(positions: seq<Json>, key: string): (r: Result<seq<Json>>)
    ensures r.Ok? ==> |r.value| <= |positions|
    ensures r.Err? ==> r.status == 500
    decreases |positions|
  {
    if positions == [] then Ok([])
    else
      match Collect(positions[..|positions| - 1], key)
      case Err(e) => Err(e)
      case Ok(init) =>
        var p := positions[|positions| - 1];
        match Contains(p, key)
        case Err(e) => Err(e)
        case Ok(false) => Ok(init)
        case Ok(true) =>
          match Index(p, key)
          case Err(e) => Err(e)
          case Ok(v) => Ok(init + [v])
  }

  /** The values `sum(...)` adds up, or None when one of them is not a number (TypeError). */
  function Numbers(values: seq<Json>): (r: Option<seq<real>>)
    ensures r.Some? <==> forall i :: 0 <= i < |values| ==> Number(values[i]).Some?
    ensures r.Some? ==> |r.value| == |values|
    ensures r.Some? ==> forall i :: 0 <= i < |values| ==> r.value[i] == Number(values[i]).value
    decreases |values|
  {
    if values == [] then Some([])
    else
      var init := Numbers(values[..|values| - 1]);
      var last := Number(values[|values| - 1]);
      if init.Some? && last.Some? then Some(init.value + [last.value]) else None
  }

  function Pending(): Dict { Locations.LocationDoc(JNum(0.0), JNum(0.0), JNull, false, "Pending GNSS") }
  function UnknownLocation(): Dict { Locations.LocationDoc(JNum(0.0), JNum(0.0), JNull, false, "Unknown") }

  /** The GNSS branch: a truthy `gnss_origin` with a `lat` is the location, anything else is pending. */
  function GnssLocation(origin: Json): (r: Result<Dict>)
    ensures origin.JObj? && "lat" in origin.fields && "lon" in origin.fields ==>
      r == Ok(Locations.LocationDoc(origin.fields["lat"], origin.fields["lon"],
                                    if "h" in origin.fields then origin.fields["h"] else JNum(0.0), true, "GNSS Origin"))
    ensures !Truthy(origin) || (origin.JObj? && "lat" !in origin.fields) ==> r == Ok(Pending())
    ensures r.Err? ==> r.status == 500
  {
    if !Truthy(origin) then Ok(Pending())
    else
      match Contains(origin, "lat")
      case Err(e) => Err(e)
      case Ok(false) => Ok(Pending())
      case Ok(true) =>
        match (Index(origin, "lat"), Index(origin, "lon"))
        case (Ok(lat), Ok(lon)) =>
          Ok(Locations.LocationDoc(lat, lon, if "h" in origin.fields then origin.fields["h"] else JNum(0.0), true,
                                   "GNSS Origin"))
        case _ => Err(500)
  }

  /**
   * The sensor branch: averages of the latitudes and longitudes found, when
   * both lists are non-empty; only then are the values added up, so a
   * non-numeric value raises only when it is summed.
   */
  function SensorLocation(positions: seq<Json>): (r: Result<Option<Dict>>)
    ensures r.Err? ==> r.status == 500
    ensures ((Collect(positions, "lat") == Ok([]) && Collect(positions, "lon").Ok?)
             || (Collect(positions, "lat").Ok? && Collect(positions, "lon") == Ok([])))
            ==> r == Ok(None)
    ensures r.Ok? && r.value.Some? ==>
      "source" in r.value.value && r.value.value["source"] == JStr("Sensor Average")
  {
    match (Collect(positions, "lat"), Collect(positions, "lon"))
    case (Ok(lats), Ok(lons)) =>
      if lats != [] && lons != [] then
        match (Numbers(lats), Numbers(lons))
        case (Some(xs), Some(ys)) =>
          Ok(Some(Locations.LocationDoc(JNum(Locations.Mean(xs)), JNum(Locations.Mean(ys)), JNull, false,
                                        "Sensor Average")))
        case _ => Err(500)
      else Ok(None)
    case (Err(e), _) => Err(e)
    case (_, Err(e)) => Err(e)
  }

  /**
   * `create_station`: a duplicate code is refused with 400 before anything
   * else; otherwise the location is chosen in priority order (GNSS origin,
   * pending GNSS, sensor average, unknown).
   */
  function CreateStationLocation(existingCodes: set<string>, stationCode: string, hasGnss: bool, config: Dict,
                                 sensorPositions: seq<(string, Json)>): (r: Result<Dict>)
    ensures stationCode in existingCodes <==> r == Err(400)
    ensures stationCode !in existingCodes && hasGnss ==> r == GnssLocation(Get(config, "gnss_origin"))
    ensures r.Ok? ==> "source" in r.value
  {
    if stationCode in existingCodes then Err(400)
    else if hasGnss then GnssLocation(Get(config, "gnss_origin"))
    else if sensorPositions == [] then Ok(UnknownLocation())
    else
      var positions := seq(|sensorPositions|, i requires 0 <= i < |sensorPositions| => sensorPositions[i].1);
      match SensorLocation(positions)
      case Err(e) => Err(e)
      case Ok(None) => Ok(UnknownLocation())
      case Ok(Some(loc)) => Ok(loc)
  }

  /** Every location `create_station` stores names one of its four sources. */
  lemma LocationSources(existingCodes: set<string>, stationCode: string, hasGnss: bool, config: Dict,
                        sensorPositions: seq<(string, Json)>)
    requires CreateStationLocation(existingCodes, stationCode, hasGnss, config, sensorPositions).Ok?
    ensures var loc := CreateStationLocation(existingCodes, stationCode, hasGnss, config, sensorPositions).value;
      hasGnss ==> loc["source"] in {JStr("GNSS Origin"), JStr("Pending GNSS")}
    ensures var loc := CreateStationLocation(existingCodes, stationCode, hasGnss, config, sensorPositions).value;
      !hasGnss ==> loc["source"] in {JStr("Sensor Average"), JStr("Unknown")}
  {
  }

  /** Positions given as dicts of numbers are all collected, in order, and all add up. */
  lemma {:induction false} CollectNumbers(positions: seq<Json>, key: string, lo: real, hi: real)
    requires forall i :: 0 <= i < |positions| ==>
      positions[i].JObj? && key in positions[i].fields && positions[i].fields[key].JNum?
      && lo <= positions[i].fields[key].n <= hi
    ensures Collect(positions, key).Ok? && |Collect(positions, key).value| == |positions|
    ensures forall i :: 0 <= i < |positions| ==> Collect(positions, key).value[i] == positions[i].fields[key]
    ensures Numbers(Collect(positions, key).value).Some?
    ensures forall i :: 0 <= i < |positions| ==>
      Numbers(Collect(positions, key).value).value[i] == positions[i].fields[key].n
    decreases |positions|
  {
    if positions != [] {
      CollectNumbers(positions[..|positions| - 1], key, lo, hi);
    }
  }

  /** Dicts that never carry the key contribute nothing, whatever else they hold. */
  lemma {:induction false} CollectAbsent(positions: seq<Json>, key: string)
    requires forall i :: 0 <= i < |positions| ==> positions[i].JObj? && key !in positions[i].fields
    ensures Collect(positions, key) == Ok([])
    decreases |positions|
  {
    if positions != [] {
      CollectAbsent(positions[..|positions| - 1], key);
    }
  }

  /** Dicts that all lack `lon` leave the location Unknown, even when their `lat` is not a number. */
  lemma PositionsWithoutLonAreUnknown(existingCodes: set<string>, stationCode: string, config: Dict,
                                      sensorPositions: seq<(string, Json)>)
    requires stationCode !in existingCodes
    requires forall i :: 0 <= i < |sensorPositions| ==>
      sensorPositions[i].1.JObj? && "lon" !in sensorPositions[i].1.fields
    ensures CreateStationLocation(existingCodes, stationCode, false, config, sensorPositions) == Ok(UnknownLocation())
  {
    if sensorPositions != [] {
      var positions := seq(|sensorPositions|, i requires 0 <= i < |sensorPositions| => sensorPositions[i].1);
      CollectAbsent(positions, "lon");
      CollectDicts(positions, "lat");
    }
  }

  /** Collecting from dicts never raises. */
  lemma {:induction false} CollectDicts(positions: seq<Json>, key: string)
    requires forall i :: 0 <= i < |positions| ==> positions[i].JObj?
    ensures Collect(positions, key).Ok?
    decreases |positions|
  {
    if positions != [] {
      CollectDicts(positions[..|positions| - 1], key);
    }
  }

  lemma SensorAverageWithinRange(positions: seq<Json>, lo: real, hi: real)
    requires positions != []
    requires forall i :: 0 <= i < |positions| ==>
      positions[i].JObj? && "lat" in positions[i].fields && "lon" in positions[i].fields
      && positions[i].fields["lat"].JNum? && positions[i].fields["lon"].JNum?
      && lo <= positions[i].fields["lat"].n <= hi
    ensures SensorLocation(positions).Ok? && SensorLocation(positions).value.Some?
    ensures var loc := SensorLocation(positions).value.value;
      loc["source"] == JStr("Sensor Average") && loc["lat"].JNum? && lo <= loc["lat"].n <= hi
  {
    CollectNumbers(positions, "lat", lo, hi);
    forall i | 0 <= i < |positions| ensures positions[i].fields["lon"].n <= Bound(positions, true) {
      BoundIsBound(positions, i, true);
    }
    forall i | 0 <= i < |positions| ensures positions[i].fields["lon"].n >= Bound(positions, false) {
      BoundIsBound(positions, i, false);
    }
    CollectNumbers(positions, "lon", Bound(positions, false), Bound(positions, true));
    Locations.MeanWithinBounds(Numbers(Collect(positions, "lat").value).value, lo, hi);
  }

  /** The largest (or smallest) longitude of positions that all carry a numeric `lon`. */
  function Bound(positions: seq<Json>, upper: bool): real
    requires positions != []
    requires forall i :: 0 <= i < |positions| ==>
      positions[i].JObj? && "lon" in positions[i].fields && positions[i].fields["lon"].JNum?
    decreases |positions|
  {
    var x := positions[|positions| - 1].fields["lon"].n;
    if |positions| == 1 then x
    else
      var b := Bound(positions[..|positions| - 1], upper);
      if upper then (if x > b then x else b) else (if x < b then x else b)
  }

  lemma {:induction false} BoundIsBound(positions: seq<Json>, i: nat, upper: bool)
    requires positions != [] && i < |positions|
    requires forall j :: 0 <= j < |positions| ==>
      positions[j].JObj? && "lon" in positions[j].fields && positions[j].fields["lon"].JNum?
    ensures upper ==> positions[i].fields["lon"].n <= Bound(positions, upper)
    ensures !upper ==> positions[i].fields["lon"].n >= Bound(positions, upper)
    decreases |positions|
  {
    if i < |positions| - 1 {
      BoundIsBound(positions[..|positions| - 1], i, upper);
    }
  }

  // ---------------------------------------------------------------------------
  // System password
  // ---------------------------------------------------------------------------

  const DefaultSystemPassword: string := "aitogy@aitogy"

  /** `verify_system_password`: the stored password, or the default when none is stored; a mismatch is 403. */
  function VerifySystemPassword(stored: Option<string>, password: string): (r: Result<()>)
    ensures r.Ok? <==> password == (if stored.Some? then stored.value else DefaultSystemPassword)
    ensures r.Err? ==> r.status == 403
  {
    var expected := if stored.Some? then stored.value else DefaultSystemPassword;
    if password == expected then Ok(()) else Err(403)
  }

  /** Exactly one password opens the gate, whatever is stored: two accepted passwords are the same. */
  lemma OnePasswordOpens(stored: Option<string>, p: string, q: string)
    requires VerifySystemPassword(stored, p).Ok? && VerifySystemPassword(stored, q).Ok?
    ensures p == q
  {
  }

  /** A stored password replaces the built-in one: the default is refused unless it is what is stored. */
  lemma StoredPasswordReplacesDefault(stored: string)
    requires stored != DefaultSystemPassword
    ensures VerifySystemPassword(Some(stored), DefaultSystemPassword) == Err(403)
    ensures VerifySystemPassword(Some(stored), stored) == Ok(())
    ensures VerifySystemPassword(None, DefaultSystemPassword) == Ok(())
  {
  }

  // ---------------------------------------------------------------------------
  // GNSSLiveFetcher
  // ---------------------------------------------------------------------------

  datatype LiveFix = LiveFix(lat: real, lon: real, h: real, fixQuality: int, numSats: int)

  /**
   * `GNSSLiveFetcher._parse_gngga`: like the processor's parser but on the
   * stripped sentence, and without the HDOP field.
   */
  function ParseLiveGga(sentence: string): (r: Option<LiveFix>)
    ensures r.Some? ==> Nmea.HasPosition(Text.Split(Text.Strip(sentence), ','))
  {
    var parts := Text.Split(Text.Strip(sentence), ',');
    if !Nmea.HasPosition(parts) then None
    else
      var lat := Nmea.Coordinate(parts[2], 2);
      var lon := Nmea.Coordinate(parts[4], 3);
      var h := Nmea.RealOr(parts[9], 0.0);
      var fix := Nmea.IntOrZero(parts[6]);
      var sats := Nmea.IntOrZero(parts[7]);
      if lat.Some? && lon.Some? && h.Some? && fix.Some? && sats.Some? then
        Some(LiveFix(Nmea.Hemisphere(lat.value, parts[3], "S"), Nmea.Hemisphere(lon.value, parts[5], "W"),
                     h.value, fix.value, sats.value))
      else None
  }

  /**
   * On a sentence with no surrounding blanks, whatever the processor's parser
   * accepts the fetcher's parser accepts too, with the same position and
   * quality fields.
   */
  lemma LiveParseAgreesWithProcessor(sentence: string)
    requires sentence == [] || (!Text.IsSpace(sentence[0]) && !Text.IsSpace(sentence[|sentence| - 1]))
    requires GnssProcessor.ParseGga(sentence).Some?
    ensures var p := GnssProcessor.ParseGga(sentence).value;
      ParseLiveGga(sentence) == Some(LiveFix(p.wgs.lat, p.wgs.lon, p.wgs.h, p.fixQuality, p.numSats))
  {
    Text.StripUnpadded(sentence);
  }

  class GnssLiveFetcher {
    var receivedData: Option<LiveFix>
    var isConnected: bool
    /** The topics subscribed to and whether a disconnect was asked for, as calls on the MQTT client. */
    var subscriptions: seq<string>
    var disconnectRequested: bool

    constructor()
      ensures receivedData == None && !isConnected && subscriptions == [] && !disconnectRequested
    {
      receivedData := None;
      isConnected := false;
      subscriptions := [];
      disconnectRequested := false;
    }

    /** `_on_connect`: only a successful connection (`rc == 0`) marks the fetcher connected and subscribes. */
    method OnConnect(rc: int, topic: string)
      modifies this
      ensures rc == 0 ==> isConnected && subscriptions == old(subscriptions) + [topic]
      ensures rc != 0 ==> isConnected == old(isConnected) && subscriptions == old(subscriptions)
      ensures receivedData == old(receivedData) && disconnectRequested == old(disconnectRequested)
    {
      if rc == 0 {
        isConnected := true;
        subscriptions := subscriptions + [topic];
      }
    }

    /**
     * `_on_message`: a payload that decodes and parses with fix quality at
     * least 1 is kept and ends the session; anything else is ignored.
     */
    method OnMessage(decoded: Option<string>)
      modifies this
      ensures decoded.Some? && ParseLiveGga(decoded.value).Some? && ParseLiveGga(decoded.value).value.fixQuality >= 1 ==>
        receivedData == ParseLiveGga(decoded.value) && disconnectRequested
      ensures !(decoded.Some? && ParseLiveGga(decoded.value).Some? && ParseLiveGga(decoded.value).value.fixQuality >= 1) ==>
        receivedData == old(receivedData) && disconnectRequested == old(disconnectRequested)
      ensures isConnected == old(isConnected) && subscriptions == old(subscriptions)
    {
      if decoded.None? {
        return;
      }
      var parsed := ParseLiveGga(decoded.value);
      if parsed.Some? && parsed.value.fixQuality >= 1 {
        receivedData := parsed;
        disconnectRequested := true;
      }
    }
  }
}
