/**
 * The decision rules of the HTTP API (`backend/app/main.py`): the station risk
 * helpers over unresolved alerts, the online/offline rules of the station list
 * and detail endpoints, the automatic station location, the admin record
 * update, the self-delete guard and the WebSocket ping/pong.
 *
 * Database reads are inputs: the rows a query returns, or `None` when the
 * query raised.
 */
module MainApi {
  import opened Wrappers
  import opened JsonValues
  import opened Levels
  import Text
  import Locations

  // ---------------------------------------------------------------------------
  // Risk from unresolved alerts
  // ---------------------------------------------------------------------------

  /** A row of the `alerts` table; `level` is the stored text ("CRITICAL", "WARNING", "INFO", ...). */
  datatype AlertRow = AlertRow(
    stationId: int, level: string, category: string, message: string, timestamp: int, resolved: bool)

  /** An entry of `active_alerts` in the detailed assessment. */
  datatype ActiveAlert = ActiveAlert(level: string, category: string, message: string, timestamp: int)

  datatype Assessment = Assessment(overallRisk: Risk, activeAlerts: seq<ActiveAlert>)

  /** The alert query: rows of this station that are not resolved, in table order. */
  function UnresolvedAlerts(rows: seq<AlertRow>, stationId: int): (r: seq<AlertRow>)
    ensures forall i :: 0 <= i < |r| ==> r[i].stationId == stationId && !r[i].resolved
    ensures forall a :: a in rows && a.stationId == stationId && !a.resolved ==> a in r
    ensures forall a :: a in r ==> a in rows
    decreases |rows|
  {
    if rows == [] then []
    else
      var rest := UnresolvedAlerts(rows[..|rows| - 1], stationId);
      var a := rows[|rows| - 1];
      assert forall b :: b in rows ==> b in rows[..|rows| - 1] || b == a;
      if a.stationId == stationId && !a.resolved then rest + [a] else rest
  }

  /** `sum(1 for a in alerts if a.level == level)`. */
  function CountLevel(alerts: seq<AlertRow>, level: string): (n: nat)
    ensures n <= |alerts|
    decreases |alerts|
  {
    if alerts == [] then 0
    else CountLevel(alerts[..|alerts| - 1], level) + (if alerts[|alerts| - 1].level == level then 1 else 0)
  }

  lemma {:induction false} CountLevelAppend(alerts: seq<AlertRow>, a: AlertRow, level: string)
    ensures CountLevel(alerts + [a], level) == CountLevel(alerts, level) + (if a.level == level then 1 else 0)
  {
    assert (alerts + [a])[..|alerts|] == alerts;
  }

  /** The `if/elif` chain both helpers share. */
  function RiskFromCounts(critical: nat, warning: nat): (r: Risk)
    ensures r != Unknown
    ensures r == Extreme <==> critical >= 2
    ensures r == High <==> critical == 1 || (critical == 0 && warning >= 3)
    ensures r == Medium <==> critical == 0 && 1 <= warning < 3
    ensures r == Low <==> critical == 0 && warning == 0
  {
    if critical >= 2 then Extreme
    else if critical == 1 || warning >= 3 then High
    else if warning >= 1 then Medium
    else Low
  }

  /** More alerts of either kind never give a lower level. */
  lemma RiskMonotone(c1: nat, w1: nat, c2: nat, w2: nat)
    requires c1 <= c2 && w1 <= w2
    ensures Rank(RiskFromCounts(c1, w1)) <= Rank(RiskFromCounts(c2, w2))
  {
  }

  /** `_calculate_station_risk_simple`: a failed query reads as "LOW". */
  function SimpleRisk(query: Option<seq<AlertRow>>): (r: Risk)
    ensures r != Unknown
    ensures query.None? ==> r == Low
    ensures query.Some? ==>
      r == RiskFromCounts(CountLevel(query.value, "CRITICAL"), CountLevel(query.value, "WARNING"))
  {
    match query
    case None => Low
    case Some(alerts) => RiskFromCounts(CountLevel(alerts, "CRITICAL"), CountLevel(alerts, "WARNING"))
  }

  /** `_calculate_station_risk_assessment`: a failed query reads as "UNKNOWN" with no active alerts. */
  function RiskAssessment(query: Option<seq<AlertRow>>): (r: Assessment)
    ensures query.None? ==> r == Assessment(Unknown, [])
    ensures query.Some? ==>
      r.overallRisk == RiskFromCounts(CountLevel(query.value, "CRITICAL"), CountLevel(query.value, "WARNING"))
    ensures query.Some? ==> |r.activeAlerts| == |query.value|
    ensures query.Some? ==> forall i :: 0 <= i < |r.activeAlerts| ==>
      var a := query.value[i];
      r.activeAlerts[i] == ActiveAlert(a.level, a.category, a.message, a.timestamp)
  {
    match query
    case None => Assessment(Unknown, [])
    case Some(alerts) =>
      Assessment(
        RiskFromCounts(CountLevel(alerts, "CRITICAL"), CountLevel(alerts, "WARNING")),
        seq(|alerts|, i requires 0 <= i < |alerts| =>
          ActiveAlert(alerts[i].level, alerts[i].category, alerts[i].message, alerts[i].timestamp)))
  }

  /**
   * The two helpers agree on the level whenever the query succeeds; on failure
   * the detailed one says UNKNOWN and the simple one LOW.
   */
  lemma SimpleAgreesWithAssessment(query: Option<seq<AlertRow>>)
    ensures query.Some? ==> SimpleRisk(query) == RiskAssessment(query).overallRisk
    ensures query.None? ==> SimpleRisk(query) == Low && RiskAssessment(query).overallRisk == Unknown
  {
  }

  /** Adding one more unresolved alert, of any level, never lowers the station's risk. */
  lemma AddingAlertNeverLowersRisk(alerts: seq<AlertRow>, a: AlertRow)
    ensures Rank(SimpleRisk(Some(alerts))) <= Rank(SimpleRisk(Some(alerts + [a])))
  {
    CountLevelAppend(alerts, a, "CRITICAL");
    CountLevelAppend(alerts, a, "WARNING");
    RiskMonotone(CountLevel(alerts, "CRITICAL"), CountLevel(alerts, "WARNING"),
                 CountLevel(alerts + [a], "CRITICAL"), CountLevel(alerts + [a], "WARNING"));
  }

  /** A second CRITICAL alert always makes the station EXTREME. */
  lemma SecondCriticalIsExtreme(alerts: seq<AlertRow>, a: AlertRow)
    requires CountLevel(alerts, "CRITICAL") == 1 && a.level == "CRITICAL"
    ensures SimpleRisk(Some(alerts + [a])) == Extreme
  {
    CountLevelAppend(alerts, a, "CRITICAL");
  }

  // ---------------------------------------------------------------------------
  // Online / offline
  // ---------------------------------------------------------------------------

  /** A row of `sensor_data`. */
  datatype Sample = Sample(stationId: int, sensorType: string, timestamp: int, data: Json)

  datatype Status = Online | Offline

  predicate Matches(s: Sample, stationId: int, sensorType: Option<string>) {
    s.stationId == stationId && (sensorType.None? || s.sensorType == sensorType.value)
  }

  /**
   * The timestamp of `ORDER BY timestamp DESC LIMIT 1` over the samples of a
   * station (and sensor type, when given); `None` when there are none.
   */
  function Newest(samples: seq<Sample>, stationId: int, sensorType: Option<string>): (r: Option<int>)
    ensures r.None? <==> forall i :: 0 <= i < |samples| ==> !Matches(samples[i], stationId, sensorType)
    ensures r.Some? ==> exists i :: 0 <= i < |samples| && Matches(samples[i], stationId, sensorType)
                                   && samples[i].timestamp == r.value
    ensures r.Some? ==> forall i :: 0 <= i < |samples| && Matches(samples[i], stationId, sensorType)
                                   ==> samples[i].timestamp <= r.value
    decreases |samples|
  {
    if samples == [] then None
    else
      var init := samples[..|samples| - 1];
      var rest := Newest(init, stationId, sensorType);
      var s := samples[|samples| - 1];
      assert forall i :: 0 <= i < |init| ==> samples[i] == init[i];
      if !Matches(s, stationId, sensorType) then rest
      else
        match rest
        case None => Some(s.timestamp)
        case Some(t) => Some(if s.timestamp > t then s.timestamp else t)
  }

  /** The station list: online iff the newest sample exists and is less than 60 s old. */
  function ListStatus(samples: seq<Sample>, stationId: int, now: int): (r: Status)
    ensures r == Online <==>
      exists i :: 0 <= i < |samples| && samples[i].stationId == stationId && now - samples[i].timestamp < 60
  {
    var latest := Newest(samples, stationId, None);
    if latest.Some? && now - latest.value < 60 then Online else Offline
  }

  /** The largest of the per-sensor latest timestamps that are at or after `cutoff`. */
  function RecentMax(latests: seq<Option<int>>, cutoff: int): (r: Option<int>)
    ensures r.None? <==> forall i :: 0 <= i < |latests| ==> latests[i].None? || latests[i].value < cutoff
    ensures r.Some? ==> r.value >= cutoff && exists i :: 0 <= i < |latests| && latests[i] == Some(r.value)
    ensures r.Some? ==> forall i :: 0 <= i < |latests| && latests[i].Some? && latests[i].value >= cutoff
                                   ==> latests[i].value <= r.value
    decreases |latests|
  {
    if latests == [] then None
    else
      var init := latests[..|latests| - 1];
      var rest := RecentMax(init, cutoff);
      var l := latests[|latests| - 1];
      assert forall i :: 0 <= i < |init| ==> latests[i] == init[i];
      if l.None? || l.value < cutoff then rest
      else
        match rest
        case None => Some(l.value)
        case Some(t) => Some(if l.value > t then l.value else t)
  }

  /** The detail endpoint's rule, as a function of the per-sensor latest timestamps. */
  predicate DetailOnline(latests: seq<Option<int>>, cutoff: int, now: int) {
    var m := RecentMax(latests, cutoff);
    m.Some? && now - (if m.value > 0 then m.value else 0) < 300
  }

  /**
   * The loop of the detail endpoint over the station's devices: `hasRecent`
   * and the newest recent timestamp (starting from 0), then the status.
   */
  method DetailStatus(latests: seq<Option<int>>, cutoff: int, now: int)
    returns (status: Status, hasRecent: bool, latestTimestamp: int)
    ensures hasRecent <==> RecentMax(latests, cutoff).Some?
    ensures hasRecent ==> latestTimestamp == (var m := RecentMax(latests, cutoff).value; if m > 0 then m else 0)
    ensures !hasRecent ==> latestTimestamp == 0
    ensures status == Online <==> DetailOnline(latests, cutoff, now)
  {
    hasRecent := false;
    latestTimestamp := 0;
    var i := 0;
    while i < |latests|
      invariant 0 <= i <= |latests|
      invariant hasRecent <==> RecentMax(latests[..i], cutoff).Some?
      invariant hasRecent ==> latestTimestamp == (var m := RecentMax(latests[..i], cutoff).value; if m > 0 then m else 0)
      invariant !hasRecent ==> latestTimestamp == 0
    {
      assert latests[..i + 1][..i] == latests[..i];
      var latest := latests[i];
      if latest.Some? && latest.value >= cutoff {
        hasRecent := true;
        if latest.value > latestTimestamp {
          latestTimestamp := latest.value;
        }
      }
      i := i + 1;
    }
    assert latests[..i] == latests;
    if hasRecent && now - latestTimestamp < 300 {
      status := Online;
    } else {
      status := Offline;
    }
  }

  /** The per-device latest timestamps the detail endpoint reads, device by device. */
  function PerDeviceLatest(samples: seq<Sample>, stationId: int, deviceTypes: seq<string>): (r: seq<Option<int>>)
    ensures |r| == |deviceTypes|
  {
    seq(|deviceTypes|, k requires 0 <= k < |deviceTypes| => Newest(samples, stationId, Some(deviceTypes[k])))
  }

  /**
   * When every sample of a station comes from one of its devices, a station the
   * list calls online (newest sample under 60 s old) is online in the detail
   * view too (newest recent sample under 300 s old), with the cutoff 24 h back.
   */
  lemma ListOnlineImpliesDetailOnline(samples: seq<Sample>, stationId: int, deviceTypes: seq<string>, now: int)
    requires forall i :: 0 <= i < |samples| && samples[i].stationId == stationId ==> samples[i].sensorType in deviceTypes
    requires ListStatus(samples, stationId, now) == Online
    ensures DetailOnline(PerDeviceLatest(samples, stationId, deviceTypes), now - 86400, now)
  {
    var t := Newest(samples, stationId, None).value;
    var j :| 0 <= j < |samples| && samples[j].stationId == stationId && samples[j].timestamp == t;
    var k :| 0 <= k < |deviceTypes| && deviceTypes[k] == samples[j].sensorType;
    var latests := PerDeviceLatest(samples, stationId, deviceTypes);
    assert Matches(samples[j], stationId, Some(deviceTypes[k]));
    assert latests[k].Some? && latests[k].value >= t;
    var m := RecentMax(latests, now - 86400);
    assert m.Some? && m.value >= t;
  }

  /** `reversed(history)`: the query is newest first, the response oldest first. */
  function Reverse<T>(s: seq<T>): (r: seq<T>)
    ensures |r| == |s|
    ensures forall i :: 0 <= i < |s| ==> r[i] == s[|s| - 1 - i]
  {
    if s == [] then [] else Reverse(s[1..]) + [s[0]]
  }

  predicate NewestFirst(h: seq<Sample>) {
    forall i, j :: 0 <= i < j < |h| ==> h[i].timestamp >= h[j].timestamp
  }

  predicate OldestFirst(h: seq<Sample>) {
    forall i, j :: 0 <= i < j < |h| ==> h[i].timestamp <= h[j].timestamp
  }

  /** The per-sensor history of the detail view: the newest-first query, reversed. */
  function SensorHistory(newestFirst: seq<Sample>): (r: seq<Sample>)
    ensures multiset(r) == multiset(newestFirst)
    ensures NewestFirst(newestFirst) ==> OldestFirst(r)
  {
    ReverseSameElements(newestFirst);
    Reverse(newestFirst)
  }

  lemma {:induction false} ReverseSameElements<T>(s: seq<T>)
    ensures multiset(Reverse(s)) == multiset(s)
    decreases |s|
  {
    if s != [] {
      ReverseSameElements(s[1..]);
      assert s == [s[0]] + s[1..];
    }
  }

  // ---------------------------------------------------------------------------
  // calculate_station_location
  // ---------------------------------------------------------------------------

  datatype Coord = Coord(lat: real, lon: real, h: real)

  /**
   * The coordinate a sensor entry contributes: it must be a dict with non-null
   * `lat` and `lon`, and `float()` of lat, lon and `h` (default 0) must all
   * succeed; otherwise the entry is skipped.
   */
  function SensorCoord(info: Json): (r: Option<Coord>)
    ensures r.Some? ==> info.JObj? && Get(info.fields, "lat") != JNull && Get(info.fields, "lon") != JNull
    ensures r.Some? ==> ToFloat(info.fields["lat"]) == Some(r.value.lat)
                        && ToFloat(info.fields["lon"]) == Some(r.value.lon)
    ensures r.Some? && "h" !in info.fields ==> r.value.h == 0.0
  {
    if !info.JObj? || Get(info.fields, "lat") == JNull || Get(info.fields, "lon") == JNull then None
    else
      var m := info.fields;
      match (ToFloat(m["lat"]), ToFloat(m["lon"]), if "h" in m then ToFloat(m["h"]) else Some(0.0))
      case (Some(lat), Some(lon), Some(h)) => Some(Coord(lat, lon, h))
      case _ => None
  }

  /** The coordinates of the usable sensor entries, in dictionary order. */
  function SensorCoords(sensors: seq<(string, Json)>): (r: seq<Coord>)
    ensures |r| <= |sensors|
    decreases |sensors|
  {
    if sensors == [] then []
    else
      SensorCoords(sensors[..|sensors| - 1])
      + (match SensorCoord(sensors[|sensors| - 1].1) case Some(c) => [c] case None => [])
  }

  function Lats(cs: seq<Coord>): seq<real> { seq(|cs|, i requires 0 <= i < |cs| => cs[i].lat) }
  function Lons(cs: seq<Coord>): seq<real> { seq(|cs|, i requires 0 <= i < |cs| => cs[i].lon) }
  function Heights(cs: seq<Coord>): seq<real> { seq(|cs|, i requires 0 <= i < |cs| => cs[i].h) }

  /**
   * `calculate_station_location(sensors, manual_location)`: no usable sensor
   * keeps the manual location, one is taken as it is, several are averaged
   * (the rounding to 8 and 3 decimals is not modelled).
   */
  method CalculateStationLocation(sensors: seq<(string, Json)>, manual: Json) returns (r: Json)
    ensures SensorCoords(sensors) == [] ==> r == manual
    ensures |SensorCoords(sensors)| == 1 ==>
      var c := SensorCoords(sensors)[0];
      r == JObj(Locations.LocationDoc(JNum(c.lat), JNum(c.lon), JNum(c.h), true, "Single Sensor (Auto)"))
    ensures |SensorCoords(sensors)| >= 2 ==>
      var cs := SensorCoords(sensors);
      r == JObj(Locations.LocationDoc(
        JNum(Locations.Mean(Lats(cs))), JNum(Locations.Mean(Lons(cs))), JNum(Locations.Mean(Heights(cs))), true,
        "Average of " + Text.NatToString(|cs|) + " sensors"))
  {
    var coords: seq<Coord> := [];
    var i := 0;
    while i < |sensors|
      invariant 0 <= i <= |sensors|
      invariant coords == SensorCoords(sensors[..i])
    {
      assert sensors[..i + 1][..i] == sensors[..i];
      var c := SensorCoord(sensors[i].1);
      if c.Some? {
        coords := coords + [c.value];
      }
      i := i + 1;
    }
    assert sensors[..i] == sensors;
    if coords == [] {
      r := manual;
    } else if |coords| == 1 {
      r := JObj(Locations.LocationDoc(JNum(coords[0].lat), JNum(coords[0].lon), JNum(coords[0].h), true,
                                        "Single Sensor (Auto)"));
    } else {
      r := JObj(Locations.LocationDoc(
        JNum(Locations.Mean(Lats(coords))), JNum(Locations.Mean(Lons(coords))), JNum(Locations.Mean(Heights(coords))),
        true, "Average of " + Text.NatToString(|coords|) + " sensors"));
    }
  }

  /** The averaged latitude lies within the latitudes of the sensors averaged. */
  lemma AverageLatWithinSensors(sensors: seq<(string, Json)>, lo: real, hi: real)
    requires |SensorCoords(sensors)| >= 2
    requires forall i :: 0 <= i < |SensorCoords(sensors)| ==> lo <= SensorCoords(sensors)[i].lat <= hi
    ensures lo <= Locations.Mean(Lats(SensorCoords(sensors))) <= hi
  {
    Locations.MeanWithinBounds(Lats(SensorCoords(sensors)), lo, hi);
  }

  /** An entry with no `lat` contributes nothing: adding it leaves the coordinates as they were. */
  lemma EntryWithoutLatIsSkipped(sensors: seq<(string, Json)>, name: string, info: Json)
    requires info.JObj? && "lat" !in info.fields
    ensures SensorCoords(sensors + [(name, info)]) == SensorCoords(sensors)
  {
    assert (sensors + [(name, info)])[..|sensors|] == sensors;
  }

  // ---------------------------------------------------------------------------
  // Admin record update, self-delete guard, ping
  // ---------------------------------------------------------------------------

  /** The value a dict of updates gives `key`, if any (keys of a dict are distinct; the last wins). */
  function Supplied(updates: seq<(string, Json)>, key: string): (r: Option<Json>)
    ensures r.None? <==> forall i :: 0 <= i < |updates| ==> updates[i].0 != key
    ensures r.Some? ==> exists i :: 0 <= i < |updates| && updates[i] == (key, r.value)
    decreases |updates|
  {
    if updates == [] then None
    else
      var last := updates[|updates| - 1];
      var init := updates[..|updates| - 1];
      assert forall i :: 0 <= i < |init| ==> updates[i] == init[i];
      if last.0 == key then Some(last.1) else Supplied(init, key)
  }

  /** The keys `admin_update_station` refuses to set. */
  predicate Protected(key: string) {
    key == "id" || key == "_table"
  }

  /** What a station attribute holds after the update loop, before `updated_at` is stamped. */
  function UpdatedField(record: Dict, updates: seq<(string, Json)>, key: string): Json
    requires key in record
  {
    var v := Supplied(updates, key);
    if !Protected(key) && v.Some? then v.value else record[key]
  }

  /**
   * `admin_update_station`: 404 for a missing record; otherwise every supplied
   * attribute the record has, except `id` and `_table`, is set, and then
   * `updated_at` is stamped with the current time.
   */
  method AdminUpdateStation(stations: map<int, Dict>, recordId: int, updates: seq<(string, Json)>, now: int)
    returns (r: Result<Dict>)
    ensures recordId !in stations <==> r == Err(404)
    ensures recordId in stations ==> r.Ok?
    ensures r.Ok? ==> r.value.Keys == stations[recordId].Keys + {"updated_at"}
    ensures r.Ok? ==> r.value["updated_at"] == JNum(now as real)
    ensures r.Ok? ==> forall k :: k in stations[recordId] && k != "updated_at" ==>
      r.value[k] == UpdatedField(stations[recordId], updates, k)
  {
    if recordId !in stations {
      return Err(404);
    }
    var record := ApplyUpdates(stations[recordId], updates);
    record := record["updated_at" := JNum(now as real)];
    return Ok(record);
  }

  /** The `setattr` loop of `admin_update_station`, over the attributes the record has. */
  method ApplyUpdates(original: Dict, updates: seq<(string, Json)>) returns (record: Dict)
    ensures record.Keys == original.Keys
    ensures forall k :: k in record ==> record[k] == UpdatedField(original, updates, k)
  {
    record := original;
    var i := 0;
    while i < |updates|
      invariant 0 <= i <= |updates|
      invariant record.Keys == original.Keys
      invariant forall k :: k in record ==> record[k] == UpdatedField(original, updates[..i], k)
    {
      var (key, value) := updates[i];
      forall k | k in original
        ensures UpdatedField(original, updates[..i + 1], k)
                == if !Protected(k) && k == key then value else UpdatedField(original, updates[..i], k)
      {
        UpdatedFieldStep(original, updates, i, k);
      }
      if !Protected(key) && key in record {
        record := record[key := value];
      }
      i := i + 1;
    }
    assert updates[..i] == updates;
  }

  /** One more update changes an attribute only when it names it and the attribute is not protected. */
  lemma UpdatedFieldStep(record: Dict, updates: seq<(string, Json)>, i: nat, key: string)
    requires key in record && i < |updates|
    ensures UpdatedField(record, updates[..i + 1], key)
            == if !Protected(key) && updates[i].0 == key then updates[i].1 else UpdatedField(record, updates[..i], key)
  {
    assert updates[..i + 1][..i] == updates[..i];
  }

  /** The record update never changes the record's `id`. */
  lemma UpdateKeepsId(record: Dict, updates: seq<(string, Json)>)
    requires "id" in record
    ensures UpdatedField(record, updates, "id") == record["id"]
  {
  }

  /** An attribute the payload does not mention keeps its value. */
  lemma UnmentionedFieldUnchanged(record: Dict, updates: seq<(string, Json)>, key: string)
    requires key in record
    requires forall i :: 0 <= i < |updates| ==> updates[i].0 != key
    ensures UpdatedField(record, updates, key) == record[key]
  {
  }

  /** `DELETE /api/admin/users/{id}`: deleting yourself is refused with 400; otherwise the id is gone. */
  function DeleteUser(userIds: set<int>, userId: int, currentUserId: int): (r: Result<set<int>>)
    ensures userId == currentUserId <==> r == Err(400)
    ensures r.Ok? ==> r.value == userIds - {userId}
    ensures r.Ok? ==> currentUserId in userIds ==> currentUserId in r.value
  {
    if userId == currentUserId then Err(400) else Ok(userIds - {userId})
  }

  /** The WebSocket endpoint answers the text "ping" with `{"type": "pong"}` and nothing else. */
  function WebSocketReply(text: string): (r: Option<Json>)
    ensures r.Some? <==> text == "ping"
    ensures r.Some? ==> r.value == JObj(map["type" := JStr("pong")])
  {
    if text == "ping" then Some(JObj(map["type" := JStr("pong")])) else None
  }

  /** The receive loop of the endpoint: the replies sent for the texts received, in order. */
  function Replies(received: seq<string>): (r: seq<Json>)
    ensures |r| <= |received|
    ensures forall i :: 0 <= i < |r| ==> r[i] == JObj(map["type" := JStr("pong")])
    decreases |received|
  {
    if received == [] then []
    else
      var reply := WebSocketReply(received[|received| - 1]);
      Replies(received[..|received| - 1]) + (if reply.Some? then [reply.value] else [])
  }

  /** A session sends exactly one pong per "ping" it receives, whatever else arrives. */
  lemma {:induction false} OnePongPerPing(received: seq<string>)
    ensures |Replies(received)| == multiset(received)["ping"]
    decreases |received|
  {
    if received != [] {
      var init := received[..|received| - 1];
      OnePongPerPing(init);
      assert received == init + [received[|received| - 1]];
    }
  }
}
