/**
 * The WebSocket `ConnectionManager`: the list of open dashboard connections
 * and the per-key throttle of `broadcast`. The clock is the `now` argument,
 * a connection is identified by its identity, and which sends fail is the
 * `failing` argument of a broadcast.
 */
module WebSocket {
  import opened JsonValues

  /** A WebSocket connection, compared by identity as `list.remove` and `in` do. */
  type Conn = nat

  /** Minimum spacing of `station_status` messages of one station, in seconds. */
  const StatusInterval: real := 0.5
  /** Minimum spacing of `sensor_data` messages of one (station, sensor) pair, in seconds. */
  const SensorInterval: real := 0.1

  // ---- the connection list -------------------------------------------------------

  /** `list.remove(x)`: the first occurrence of `x` goes, the rest keep their order. */
  function RemoveFirst(s: seq<Conn>, x: Conn): (r: seq<Conn>)
    ensures x in s ==> |r| == |s| - 1
    ensures x !in s ==> r == s
  {
    if s == [] then []
    else if s[0] == x then s[1..] else [s[0]] + RemoveFirst(s[1..], x)
  }

  /** `list.remove(x)` takes away exactly one occurrence of a listed `x`. */
  lemma {:induction false} RemoveFirstCounts(s: seq<Conn>, x: Conn)
    ensures multiset(RemoveFirst(s, x)) == multiset(s) - multiset{x}
  {
    if s != [] {
      assert s == [s[0]] + s[1..];
      if s[0] != x {
        RemoveFirstCounts(s[1..], x);
      }
    }
  }

  /** The connections, in order, whose send succeeds. */
  function Keep(s: seq<Conn>, failing: set<Conn>): (r: seq<Conn>)
    ensures forall c :: c in r ==> c in s && c !in failing
    ensures |r| <= |s|
  {
    if s == [] then [] else Keep(s[..|s| - 1], failing) + (if s[|s| - 1] in failing then [] else [s[|s| - 1]])
  }

  /** The connections, in order, whose send raises: the `disconnected` list of `_send_to_all`. */
  function Failed(s: seq<Conn>, failing: set<Conn>): (r: seq<Conn>)
    ensures forall c :: c in r ==> c in s && c in failing
  {
    if s == [] then [] else Failed(s[..|s| - 1], failing) + (if s[|s| - 1] in failing then [s[|s| - 1]] else [])
  }

  /** Every connection is either delivered to or dropped, once per occurrence. */
  lemma {:induction false} KeepAndFailedSplit(s: seq<Conn>, failing: set<Conn>)
    ensures multiset(s) == multiset(Keep(s, failing)) + multiset(Failed(s, failing))
  {
    if s != [] {
      KeepAndFailedSplit(s[..|s| - 1], failing);
      assert s == s[..|s| - 1] + [s[|s| - 1]];
    }
  }

  /** A connection no send fails on is delivered to as often as it is listed, and a failing one never. */
  lemma {:induction false} KeepCounts(s: seq<Conn>, failing: set<Conn>, c: Conn)
    ensures c !in failing ==> multiset(Keep(s, failing))[c] == multiset(s)[c]
    ensures c in failing ==> multiset(Keep(s, failing))[c] == 0
  {
    if s != [] {
      var init: seq<Conn>, last: Conn := s[..|s| - 1], s[|s| - 1];
      KeepCounts(init, failing, c);
      assert multiset(s) == multiset(init) + multiset{last} by {
        assert s == init + [last];
      }
      var tail: seq<Conn> := if last in failing then [] else [last];
      assert Keep(s, failing) == Keep(init, failing) + tail;
      assert multiset(Keep(s, failing)) == multiset(Keep(init, failing)) + multiset(tail);
    }
  }

  /** `list.remove` applied for each of `ws` in turn. */
  function RemoveEach(s: seq<Conn>, ws: seq<Conn>): seq<Conn> {
    if ws == [] then s else RemoveFirst(RemoveEach(s, ws[..|ws| - 1]), ws[|ws| - 1])
  }

  /** Removing each of `ws` in turn takes away one occurrence per listing, as far as there are any. */
  lemma {:induction false} RemoveEachCounts(s: seq<Conn>, ws: seq<Conn>)
    ensures multiset(RemoveEach(s, ws)) == multiset(s) - multiset(ws)
  {
    if ws != [] {
      var init := ws[..|ws| - 1];
      var x := ws[|ws| - 1];
      RemoveEachCounts(s, init);
      RemoveFirstCounts(RemoveEach(s, init), x);
      assert ws == init + [x];
      assert multiset(ws) == multiset(init) + multiset{x};
      SubtractOneMore(multiset(s), multiset(init), x);
    }
  }

  /** Taking away `removed` and then one more `x` takes away `removed + multiset{x}`. */
  lemma SubtractOneMore(start: multiset<Conn>, removed: multiset<Conn>, x: Conn)
    ensures start - removed - multiset{x} == start - (removed + multiset{x})
  {
    forall y ensures (start - removed - multiset{x})[y] == (start - (removed + multiset{x}))[y] {
    }
  }

  /** What is left after removing every failed occurrence is what was delivered to. */
  lemma RemainingAreKept(s: seq<Conn>, failing: set<Conn>, remaining: seq<Conn>)
    requires multiset(remaining) == multiset(s) - multiset(Failed(s, failing))
    ensures multiset(remaining) == multiset(Keep(s, failing))
    ensures forall c :: c in remaining ==> c !in failing
  {
    KeepAndFailedSplit(s, failing);
    forall c | c in remaining
      ensures c !in failing
    {
      assert c in multiset(remaining);
      KeepCounts(s, failing, c);
    }
  }

  // ---- the broadcast throttle --------------------------------------------------

  /** What `broadcast` does with a message before looking at the clock. */
  datatype Route =
    | Immediate                                  // alerts and WARNING/CRITICAL levels
    | Throttled(key: string, interval: real)     // station_status and sensor_data
    | Ignored                                    // any other type

  /**
   * The route of `message`; `show` is Python's `str` of a JSON value, used to
   * build the keys `status_{station_id}` and `{station_id}_{sensor_type}`.
   */
  function RouteOf(message: Dict, show: Json -> string): (r: Route)
    ensures r == Immediate <==>
      Get(message, "type") == JStr("alert") || Get(message, "level") in [JStr("WARNING"), JStr("CRITICAL")]
    ensures r.Throttled? && r.interval == StatusInterval ==> Get(message, "type") == JStr("station_status")
    ensures r.Throttled? && r.interval == SensorInterval ==> Get(message, "type") == JStr("sensor_data")
  {
    var msgType := Get(message, "type");
    if msgType == JStr("alert") || Get(message, "level") in [JStr("WARNING"), JStr("CRITICAL")] then Immediate
    else if msgType == JStr("station_status") then
      Throttled("status_" + show(Get(message, "station_id")), StatusInterval)
    else if msgType == JStr("sensor_data") then
      Throttled(show(Get(message, "station_id")) + "_" + show(Get(message, "sensor_type")), SensorInterval)
    else Ignored
  }

  /** `last_broadcast_time[key]` of a `defaultdict(float)`: 0 for a key never sent. */
  function LastTime(last: map<string, real>, key: string): (r: real)
    ensures key !in last ==> r == 0.0
  {
    if key in last then last[key] else 0.0
  }

  /** Whether a message on `route` is sent at `now`. */
  predicate Admits(route: Route, now: real, last: map<string, real>) {
    match route
    case Immediate => true
    case Throttled(key, interval) => !(now - LastTime(last, key) < interval)
    case Ignored => false
  }

  /** The throttle times after a message on `route` at `now`. */
  function Stamp(route: Route, now: real, last: map<string, real>): (r: map<string, real>)
    ensures route.Throttled? && Admits(route, now, last) ==> r == last[route.key := now]
    ensures !(route.Throttled? && Admits(route, now, last)) ==> r == last
  {
    if route.Throttled? && Admits(route, now, last) then last[route.key := now] else last
  }

  /** Alerts and WARNING/CRITICAL messages are sent at any time and leave the throttle times alone. */
  lemma AlertsBypassThrottle(message: Dict, show: Json -> string, now: real, last: map<string, real>)
    requires Get(message, "type") == JStr("alert") || Get(message, "level") in [JStr("WARNING"), JStr("CRITICAL")]
    ensures Admits(RouteOf(message, show), now, last)
    ensures Stamp(RouteOf(message, show), now, last) == last
  {
  }

  /** A `station_status` goes out exactly when 0.5 s have passed since the last one sent for its station. */
  lemma StatusThrottle(message: Dict, show: Json -> string, now: real, last: map<string, real>)
    requires Get(message, "type") == JStr("station_status")
    requires Get(message, "level") != JStr("WARNING") && Get(message, "level") != JStr("CRITICAL")
    ensures var key := "status_" + show(Get(message, "station_id"));
      RouteOf(message, show) == Throttled(key, StatusInterval)
      && (Admits(RouteOf(message, show), now, last) <==> now - LastTime(last, key) >= StatusInterval)
  {
  }

  /** A `sensor_data` goes out exactly when 0.1 s have passed since the last one sent for its station and sensor. */
  lemma SensorThrottle(message: Dict, show: Json -> string, now: real, last: map<string, real>)
    requires Get(message, "type") == JStr("sensor_data")
    requires Get(message, "level") != JStr("WARNING") && Get(message, "level") != JStr("CRITICAL")
    ensures var key := show(Get(message, "station_id")) + "_" + show(Get(message, "sensor_type"));
      RouteOf(message, show) == Throttled(key, SensorInterval)
      && (Admits(RouteOf(message, show), now, last) <==> now - LastTime(last, key) >= SensorInterval)
  {
  }

  /** A message of any other type, not an alert, is dropped and changes nothing. */
  lemma OtherTypesDropped(message: Dict, show: Json -> string, now: real, last: map<string, real>)
    requires Get(message, "type") !in [JStr("alert"), JStr("station_status"), JStr("sensor_data")]
    requires Get(message, "level") != JStr("WARNING") && Get(message, "level") != JStr("CRITICAL")
    ensures !Admits(RouteOf(message, show), now, last)
    ensures Stamp(RouteOf(message, show), now, last) == last
  {
  }

  /** A message only moves the time of its own key, and only when it is sent. */
  lemma StampTouchesOwnKey(route: Route, now: real, last: map<string, real>, other: string)
    requires !(route.Throttled? && route.key == other)
    ensures LastTime(Stamp(route, now, last), other) == LastTime(last, other)
  {
  }

  /**
   * Two messages of one key that both go out are at least the key's interval
   * apart: after one is sent at `t1`, a later one at `t2` is sent only if
   * `t2 - t1` reaches the interval.
   */
  lemma ThrottleSpacing(route: Route, t1: real, t2: real, last: map<string, real>)
    requires route.Throttled? && Admits(route, t1, last)
    requires Admits(route, t2, Stamp(route, t1, last))
    ensures t2 - t1 >= route.interval
  {
    assert LastTime(Stamp(route, t1, last), route.key) == t1;
  }

  class ConnectionManager {
    var activeConnections: seq<Conn>
    /** `last_broadcast_time`, a `defaultdict(float)` keyed by throttle key. */
    var lastBroadcastTime: map<string, real>

    constructor()
      ensures activeConnections == [] && lastBroadcastTime == map[]
    {
      activeConnections := [];
      lastBroadcastTime := map[];
    }

    /** `connect`: the accepted connection joins the end of the list. */
    method Connect(ws: Conn)
      modifies this
      ensures activeConnections == old(activeConnections) + [ws]
      ensures lastBroadcastTime == old(lastBroadcastTime)
    {
      activeConnections := activeConnections + [ws];
    }

    /** `disconnect`: removes the connection when it is listed and does nothing otherwise. */
    method Disconnect(ws: Conn)
      modifies this
      ensures activeConnections == RemoveFirst(old(activeConnections), ws)
      ensures multiset(activeConnections) == multiset(old(activeConnections)) - multiset{ws}
      ensures ws !in old(activeConnections) ==> activeConnections == old(activeConnections)
      ensures lastBroadcastTime == old(lastBroadcastTime)
    {
      RemoveFirstCounts(activeConnections, ws);
      if ws in activeConnections {
        activeConnections := RemoveFirst(activeConnections, ws);
      }
    }

    /**
     * The send loop of `_send_to_all`: every connection in turn, collecting
     * those whose send raises into `disconnected`.
     */
    method SendEach(start: seq<Conn>, failing: set<Conn>) returns (delivered: seq<Conn>, disconnected: seq<Conn>)
      ensures delivered == Keep(start, failing)
      ensures disconnected == Failed(start, failing)
    {
      delivered, disconnected := [], [];
      var i := 0;
      while i < |start|
        invariant 0 <= i <= |start|
        invariant delivered == Keep(start[..i], failing)
        invariant disconnected == Failed(start[..i], failing)
      {
        var connection := start[i];
        assert start[..i + 1][..i] == start[..i];
        if connection in failing {
          disconnected := disconnected + [connection];
        } else {
          delivered := delivered + [connection];
        }
        i := i + 1;
      }
      assert start[..i] == start;
    }

    /** Disconnects each listed connection in turn; one listed twice is removed twice. */
    method DisconnectAll(ws: seq<Conn>)
      modifies this
      ensures activeConnections == RemoveEach(old(activeConnections), ws)
      ensures multiset(activeConnections) == multiset(old(activeConnections)) - multiset(ws)
      ensures lastBroadcastTime == old(lastBroadcastTime)
    {
      ghost var start := activeConnections;
      var j := 0;
      while j < |ws|
        invariant 0 <= j <= |ws|
        invariant activeConnections == RemoveEach(start, ws[..j])
        invariant lastBroadcastTime == old(lastBroadcastTime)
      {
        Disconnect(ws[j]);
        assert ws[..j + 1][..j] == ws[..j];
        j := j + 1;
      }
      assert ws[..j] == ws;
      RemoveEachCounts(start, ws);
    }

    /**
     * `_send_to_all`: sends to every listed connection, collects those whose
     * send raises, then disconnects each of them. The connections left are
     * exactly those that did not fail.
     */
    method SendToAll(failing: set<Conn>) returns (delivered: seq<Conn>)
      modifies this
      ensures delivered == Keep(old(activeConnections), failing)
      ensures multiset(activeConnections) == multiset(Keep(old(activeConnections), failing))
      ensures forall c :: c in activeConnections ==> c !in failing
      ensures lastBroadcastTime == old(lastBroadcastTime)
    {
      var start := activeConnections;
      var disconnected;
      delivered, disconnected := SendEach(start, failing);
      DisconnectAll(disconnected);
      RemainingAreKept(start, failing, activeConnections);
    }

    /**
     * `broadcast`: an alert goes out at once; a throttled message goes out,
     * and its key's time is set to `now`, only when its interval has passed;
     * anything else is dropped. Returns the connections it reached.
     */
    method Broadcast(message: Dict, show: Json -> string, now: real, failing: set<Conn>) returns (delivered: seq<Conn>)
      modifies this
      ensures var route := RouteOf(message, show);
        lastBroadcastTime == Stamp(route, now, old(lastBroadcastTime))
        && (Admits(route, now, old(lastBroadcastTime)) ==>
              delivered == Keep(old(activeConnections), failing)
              && multiset(activeConnections) == multiset(Keep(old(activeConnections), failing)))
        && (!Admits(route, now, old(lastBroadcastTime)) ==>
              delivered == [] && activeConnections == old(activeConnections))
    {
      var msgType := Get(message, "type");
      if msgType == JStr("alert") || Get(message, "level") in [JStr("WARNING"), JStr("CRITICAL")] {
        delivered := SendToAll(failing);
        return;
      }
      if msgType == JStr("station_status") {
        var key := "status_" + show(Get(message, "station_id"));
        if now - LastTime(lastBroadcastTime, key) < StatusInterval {
          return [];
        }
        lastBroadcastTime := lastBroadcastTime[key := now];
        delivered := SendToAll(failing);
        return;
      }
      if msgType == JStr("sensor_data") {
        var key := show(Get(message, "station_id")) + "_" + show(Get(message, "sensor_type"));
        if now - LastTime(lastBroadcastTime, key) < SensorInterval {
          return [];
        }
        lastBroadcastTime := lastBroadcastTime[key := now];
        delivered := SendToAll(failing);
        return;
      }
      delivered := [];
    }
  }
}
