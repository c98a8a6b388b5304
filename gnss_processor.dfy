/**
 * `GNSSVelocityProcessor` (`backend/processors/gnss_processor.py`): a per-device
 * state machine fed with `$GNGGA` sentences. While AWAITING_CANDIDATES it
 * collects good fixes until `required_points` of them lie within
 * `max_spread_m` of their centroid and locks that centroid as the origin; once
 * ORIGIN_LOCKED it keeps a bounded history of fixes and reports position and
 * velocity relative to the origin.
 *
 * The floating-point geodesy (haversine distance, ECEF and ENU conversion,
 * velocity averaging) is a parameter: `Geodesy` gives the distance between two
 * fixes and the motion figures of a history relative to an origin. The clock
 * (`time.time()`) is the parameter `now`.
 */
module GnssProcessor {
  import opened Wrappers
  import Text
  import Nmea
  import BoundedQueue
  import Locations

  datatype Wgs = Wgs(lat: real, lon: real, h: real)

  /** What `_parse_gngga` returns: the WGS-84 fix and the quality fields. */
  datatype GgaPoint = GgaPoint(wgs: Wgs, fixQuality: int, numSats: int, hdop: real)

  /**
   * `_parse_gngga` on the comma fields of a sentence: None for fewer than ten
   * fields, an empty latitude or longitude, or any field that `float`/`int`
   * rejects; an empty altitude reads as 0, an empty fix quality or satellite
   * count as 0 and an empty HDOP as 99.9.
   */
  function ParseGgaFields(parts: seq<string>): (r: Option<GgaPoint>)
    ensures r.Some? ==> Nmea.HasPosition(parts)
    ensures r.Some? ==> Nmea.Coordinate(parts[2], 2).Some? && Nmea.Coordinate(parts[4], 3).Some?
    ensures r.Some? ==> r.value.wgs.lat == Nmea.Hemisphere(Nmea.Coordinate(parts[2], 2).value, parts[3], "S")
    ensures r.Some? ==> r.value.wgs.lon == Nmea.Hemisphere(Nmea.Coordinate(parts[4], 3).value, parts[5], "W")
    ensures r.Some? ==> Some(r.value.wgs.h) == Nmea.RealOr(parts[9], 0.0)
    ensures r.Some? ==> Some(r.value.fixQuality) == Nmea.IntOrZero(parts[6])
    ensures r.Some? ==> Some(r.value.numSats) == Nmea.IntOrZero(parts[7])
    ensures r.Some? ==> Some(r.value.hdop) == Nmea.RealOr(parts[8], 99.9)
    ensures Nmea.HasPosition(parts) && r.None? ==>
      Nmea.RealOr(parts[9], 0.0).None? || Nmea.Coordinate(parts[2], 2).None? || Nmea.Coordinate(parts[4], 3).None?
      || Nmea.IntOrZero(parts[6]).None? || Nmea.IntOrZero(parts[7]).None? || Nmea.RealOr(parts[8], 99.9).None?
  {
    if !Nmea.HasPosition(parts) then None
    else
      var h := Nmea.RealOr(parts[9], 0.0);
      var lat := Nmea.Coordinate(parts[2], 2);
      var lon := Nmea.Coordinate(parts[4], 3);
      var fix := Nmea.IntOrZero(parts[6]);
      var sats := Nmea.IntOrZero(parts[7]);
      var hdop := Nmea.RealOr(parts[8], 99.9);
      if h.Some? && lat.Some? && lon.Some? && fix.Some? && sats.Some? && hdop.Some? then
        Some(GgaPoint(
          Wgs(Nmea.Hemisphere(lat.value, parts[3], "S"), Nmea.Hemisphere(lon.value, parts[5], "W"), h.value),
          fix.value, sats.value, hdop.value))
      else None
  }

  /** `_parse_gngga(s)`: the sentence is split on commas as it is, without stripping. */
  function ParseGga(sentence: string): Option<GgaPoint> {
    ParseGgaFields(Text.Split(sentence, ','))
  }

  /** A sentence assembled from comma-free fields parses exactly as those fields do. */
  lemma ParseJoinedSentence(parts: seq<string>)
    requires |parts| >= 1
    requires forall i :: 0 <= i < |parts| ==> ',' !in parts[i]
    ensures ParseGga(Text.Join(parts, ',')) == ParseGgaFields(parts)
  {
    Text.SplitJoin(parts, ',');
  }

  /** Flipping the latitude hemisphere from 'N' to 'S' negates the latitude and changes nothing else. */
  lemma SouthNegatesLatitude(parts: seq<string>)
    requires |parts| >= 10 && parts[3] == "N"
    requires ParseGgaFields(parts).Some?
    ensures var p := ParseGgaFields(parts).value;
            ParseGgaFields(parts[3 := "S"]) == Some(p.(wgs := p.wgs.(lat := -p.wgs.lat)))
  {
    var p := ParseGgaFields(parts).value;
    var c := Nmea.Coordinate(parts[2], 2).value;
    assert p.wgs.lat == Nmea.Hemisphere(c, parts[3], "S");
    assert "N" != "S" by { assert "N"[0] != "S"[0]; }
    assert Nmea.Hemisphere(c, "N", "S") == c;
    assert Nmea.Hemisphere(c, "S", "S") == -p.wgs.lat;
    HemisphereOnlyTurnsLatitude(parts, "S");
  }

  /** The parse reads the hemisphere letter of field 3 for the sign of the latitude and for nothing else. */
  lemma HemisphereOnlyTurnsLatitude(parts: seq<string>, direction: string)
    requires |parts| >= 10 && ParseGgaFields(parts).Some?
    ensures var p := ParseGgaFields(parts).value;
      ParseGgaFields(parts[3 := direction])
        == Some(p.(wgs := p.wgs.(lat := Nmea.Hemisphere(Nmea.Coordinate(parts[2], 2).value, direction, "S"))))
  {
    var other := parts[3 := direction];
    assert other[2] == parts[2] && other[4] == parts[4] && other[5] == parts[5];
    assert other[6] == parts[6] && other[7] == parts[7] && other[8] == parts[8] && other[9] == parts[9];
  }

  // ---------------------------------------------------------------------------
  // The processor
  // ---------------------------------------------------------------------------

  datatype ProcessorState = AwaitingCandidates | OriginLocked

  /** A history entry: the fix time and the fix (its ECEF position is a function of it). */
  datatype HistoryPoint = HistoryPoint(ts: real, wgs: Wgs)

  /** The figures computed from the history relative to the origin (ENU position, displacement, velocity). */
  datatype Motion = Motion(
    posE: real, posN: real, posU: real, totalDisplacementMm: real,
    velE: real, velN: real, velU: real, speed2d: real, speed2dMmS: real)

  datatype Geodesy = Geodesy(
    distance3d: (Wgs, Wgs) -> real,
    motion: (Wgs, seq<HistoryPoint>) -> Motion)

  datatype Stats = Stats(totalProcessed: nat, lowQualityRejected: nat, originResets: nat)

  /** An origin row as stored: its coordinates and whether its rotation matrix and ECEF origin are filled. */
  datatype StoredOrigin = StoredOrigin(lat: real, lon: real, h: real, hasRotationMatrix: bool, hasEcefOrigin: bool)

  datatype ProcessedData = ProcessedData(wgs: Wgs, motion: Motion, fixQuality: int, numSats: int, hdop: real)

  /** The dictionaries `process_gngga` returns, by their `type`/`status`. */
  datatype GnssResult =
    | WaitingForQuality(fixQuality: int, minFixQuality: int)
    | OriginLockedAt(center: Wgs)
    | OriginReset(spread: real, maxSpread: real)
    | OriginCollecting(count: nat, target: int)
    | Processed(timestamp: int, data: ProcessedData)

  /** The centroid (`np.mean` per coordinate) of the candidates. */
  function Center(cs: seq<Wgs>): Wgs
    requires |cs| > 0
  {
    Wgs(Locations.Mean(seq(|cs|, i requires 0 <= i < |cs| => cs[i].lat)),
        Locations.Mean(seq(|cs|, i requires 0 <= i < |cs| => cs[i].lon)),
        Locations.Mean(seq(|cs|, i requires 0 <= i < |cs| => cs[i].h)))
  }

  /** `max(haversine_3d(center, p) for p in cs)`. */
  function MaxDistance(geo: Geodesy, center: Wgs, cs: seq<Wgs>): (r: real)
    requires |cs| > 0
    ensures forall i :: 0 <= i < |cs| ==> geo.distance3d(center, cs[i]) <= r
    ensures exists i :: 0 <= i < |cs| && geo.distance3d(center, cs[i]) == r
    decreases |cs|
  {
    if |cs| == 1 then geo.distance3d(center, cs[0])
    else
      var rest := MaxDistance(geo, center, cs[..|cs| - 1]);
      var d := geo.distance3d(center, cs[|cs| - 1]);
      assert forall i :: 0 <= i < |cs| - 1 ==> cs[..|cs| - 1][i] == cs[i];
      if d > rest then d else rest
  }

  /** The spread test of origin collection: every candidate is within `maxSpread` of the centroid. */
  lemma SpreadWithinBound(geo: Geodesy, cs: seq<Wgs>, maxSpread: real)
    requires |cs| > 0
    ensures MaxDistance(geo, Center(cs), cs) <= maxSpread <==>
            forall i :: 0 <= i < |cs| ==> geo.distance3d(Center(cs), cs[i]) <= maxSpread
  {
  }

  /** `int(ts)`: truncation toward zero. */
  function Truncate(x: real): (r: int)
    ensures x >= 0.0 ==> r as real <= x < r as real + 1.0
    ensures x < 0.0 ==> r as real - 1.0 < x <= r as real
  {
    if x >= 0.0 then x.Floor else -((-x).Floor)
  }

  class GnssVelocityProcessor {
    const deviceId: int
    const requiredPoints: int
    const maxSpreadM: real
    const filterWindowSize: nat
    const minFixQuality: int

    var state: ProcessorState
    var origin: Option<Wgs>
    var candidates: seq<Wgs>
    var history: seq<HistoryPoint>
    var stats: Stats

    /** `deque(maxlen=filter_window_size + 1)`. */
    function HistoryLimit(): nat { filterWindowSize + 1 }

    predicate Valid()
      reads this
    {
      && |history| <= HistoryLimit()
      && (state == OriginLocked ==> origin.Some?)
      && (state == AwaitingCandidates ==> history == [])
      && (state == AwaitingCandidates ==> |candidates| < requiredPoints || candidates == [])
    }

    constructor(deviceId: int, requiredPoints: int, maxSpreadM: real, filterWindowSize: nat, minFixQuality: int)
      ensures Valid()
      ensures this.deviceId == deviceId && this.requiredPoints == requiredPoints && this.maxSpreadM == maxSpreadM
      ensures this.filterWindowSize == filterWindowSize && this.minFixQuality == minFixQuality
      ensures state == AwaitingCandidates && origin == None && candidates == [] && history == []
      ensures stats == Stats(0, 0, 0)
    {
      this.deviceId := deviceId;
      this.requiredPoints := requiredPoints;
      this.maxSpreadM := maxSpreadM;
      this.filterWindowSize := filterWindowSize;
      this.minFixQuality := minFixQuality;
      state := AwaitingCandidates;
      origin := None;
      candidates := [];
      history := [];
      stats := Stats(0, 0, 0);
    }

    /**
     * `_async_load_origin_task`: a stored origin with both its rotation matrix
     * and ECEF origin locks the processor on it; anything else (no row, a row
     * with missing matrices, a failed query) changes nothing.
     */
    method LoadOrigin(stored: Option<StoredOrigin>)
      requires Valid()
      modifies this
      ensures Valid()
      ensures candidates == old(candidates) && history == old(history) && stats == old(stats)
      ensures stored.Some? && stored.value.hasRotationMatrix && stored.value.hasEcefOrigin ==>
        state == OriginLocked && origin == Some(Wgs(stored.value.lat, stored.value.lon, stored.value.h))
      ensures !(stored.Some? && stored.value.hasRotationMatrix && stored.value.hasEcefOrigin) ==>
        state == old(state) && origin == old(origin)
    {
      if stored.Some? && stored.value.hasRotationMatrix && stored.value.hasEcefOrigin {
        origin := Some(Wgs(stored.value.lat, stored.value.lon, stored.value.h));
        state := OriginLocked;
      }
    }

    /**
     * The effect of `_handle_origin_collection` on the candidates, the state,
     * the origin and the counters, and its result.
     */
    twostate predicate CollectionEffect(raw: string, fixQuality: int, geo: Geodesy, new r: Option<GnssResult>)
      reads this
    {
      && (fixQuality < minFixQuality ==>
            r == Some(WaitingForQuality(fixQuality, minFixQuality))
            && stats == old(stats).(lowQualityRejected := old(stats).lowQualityRejected + 1)
            && state == AwaitingCandidates && origin == old(origin) && candidates == old(candidates))
      && (fixQuality >= minFixQuality && ParseGga(raw).None? ==>
            r.None? && stats == old(stats) && state == AwaitingCandidates && origin == old(origin)
            && candidates == old(candidates))
      && (fixQuality >= minFixQuality && ParseGga(raw).Some? ==>
            var cs := old(candidates) + [ParseGga(raw).value.wgs];
            if |cs| < requiredPoints then
              r == Some(OriginCollecting(|cs|, requiredPoints))
              && candidates == cs && state == AwaitingCandidates && origin == old(origin) && stats == old(stats)
            else if MaxDistance(geo, Center(cs), cs) <= maxSpreadM then
              r == Some(OriginLockedAt(Center(cs)))
              && state == OriginLocked && origin == Some(Center(cs)) && candidates == cs && stats == old(stats)
            else
              r == Some(OriginReset(MaxDistance(geo, Center(cs), cs), maxSpreadM))
              && state == AwaitingCandidates && candidates == [] && origin == old(origin)
              && stats == old(stats).(originResets := old(stats).originResets + 1))
    }

    /**
     * The effect of `_handle_processing` on the history and the counters, and
     * its result.
     */
    twostate predicate ProcessingEffect(raw: string, fixQuality: int, now: real, geo: Geodesy,
                                        new r: Option<GnssResult>)
      requires old(origin).Some?
      reads this
    {
      && (fixQuality < minFixQuality ==>
            r.None? && history == old(history)
            && stats == old(stats).(lowQualityRejected := old(stats).lowQualityRejected + 1))
      && (fixQuality >= minFixQuality && ParseGga(raw).None? ==>
            r.None? && history == old(history) && stats == old(stats))
      && (fixQuality >= minFixQuality && ParseGga(raw).Some? ==>
            var p := ParseGga(raw).value;
            var h := BoundedQueue.Push(old(history), HistoryPoint(now, p.wgs), HistoryLimit());
            history == h
            && if |h| < 2 || h[|h| - 1].ts - h[|h| - 2].ts < 0.01 then
                 r.None? && stats == old(stats)
               else
                 r == Some(Processed(Truncate(now), ProcessedData(p.wgs, geo.motion(old(origin).value, h),
                                                                  p.fixQuality, p.numSats, p.hdop)))
                 && stats == old(stats).(totalProcessed := old(stats).totalProcessed + 1))
    }

    /**
     * `process_gngga`: the sentence guard (at least ten fields, non-empty
     * latitude and longitude, a readable fix quality) and the dispatch on the
     * state. A sentence failing the guard changes nothing.
     */
    method ProcessGngga(raw: string, now: real, geo: Geodesy) returns (r: Option<GnssResult>)
      requires Valid()
      modifies this
      ensures Valid()
      ensures old(state) == OriginLocked ==> state == OriginLocked && origin == old(origin)
      ensures var parts := Text.Split(raw, ',');
        !Nmea.HasPosition(parts) || Nmea.IntOrZero(parts[6]).None? ==>
          r.None? && state == old(state) && origin == old(origin) && candidates == old(candidates)
          && history == old(history) && stats == old(stats)
      ensures var parts := Text.Split(raw, ',');
        Nmea.HasPosition(parts) && Nmea.IntOrZero(parts[6]).Some? && old(state) == AwaitingCandidates ==>
          history == old(history) && CollectionEffect(raw, Nmea.IntOrZero(parts[6]).value, geo, r)
      ensures var parts := Text.Split(raw, ',');
        Nmea.HasPosition(parts) && Nmea.IntOrZero(parts[6]).Some? && old(state) == OriginLocked ==>
          candidates == old(candidates) && ProcessingEffect(raw, Nmea.IntOrZero(parts[6]).value, now, geo, r)
      ensures r.Some? && !r.value.Processed? ==> old(state) == AwaitingCandidates
      ensures r.Some? && r.value.Processed? ==> old(state) == OriginLocked
      ensures stats.totalProcessed == old(stats.totalProcessed) + (if r.Some? && r.value.Processed? then 1 else 0)
    {
      var parts := Text.Split(raw, ',');
      if !Nmea.HasPosition(parts) {
        return None;
      }
      var fix := Nmea.IntOrZero(parts[6]);
      if fix.None? {
        return None;
      }
      if state == AwaitingCandidates {
        r := HandleOriginCollection(raw, fix.value, geo);
      } else {
        r := HandleProcessing(raw, fix.value, now, geo);
      }
    }

    /**
     * `_handle_origin_collection`: a low-quality fix is counted and reported;
     * a good fix becomes one more candidate; at `required_points` candidates
     * the spread decides between locking the centroid and starting over.
     */
    method HandleOriginCollection(raw: string, fixQuality: int, geo: Geodesy) returns (r: Option<GnssResult>)
      requires Valid() && state == AwaitingCandidates
      modifies this
      ensures Valid()
      ensures history == old(history)
      ensures CollectionEffect(raw, fixQuality, geo, r)
    {
      if fixQuality < minFixQuality {
        stats := stats.(lowQualityRejected := stats.lowQualityRejected + 1);
        return Some(WaitingForQuality(fixQuality, minFixQuality));
      }
      var point := ParseGga(raw);
      if point.None? {
        return None;
      }
      candidates := candidates + [point.value.wgs];
      if |candidates| >= requiredPoints {
        var center := Center(candidates);
        var maxDist := MaxDistance(geo, center, candidates);
        if maxDist <= maxSpreadM {
          origin := Some(center);
          state := OriginLocked;
          return Some(OriginLockedAt(center));
        } else {
          candidates := [];
          stats := stats.(originResets := stats.originResets + 1);
          return Some(OriginReset(maxDist, maxSpreadM));
        }
      }
      return Some(OriginCollecting(|candidates|, requiredPoints));
    }

    /**
     * `_handle_processing`: a low-quality fix is counted and dropped; a good fix
     * is appended to the bounded history; a result needs two history points at
     * least 0.01 s apart, and only a result counts as processed.
     */
    method HandleProcessing(raw: string, fixQuality: int, now: real, geo: Geodesy) returns (r: Option<GnssResult>)
      requires Valid() && state == OriginLocked
      modifies this
      ensures Valid()
      ensures state == OriginLocked && origin == old(origin) && candidates == old(candidates)
      ensures ProcessingEffect(raw, fixQuality, now, geo, r)
    {
      if fixQuality < minFixQuality {
        stats := stats.(lowQualityRejected := stats.lowQualityRejected + 1);
        return None;
      }
      var point := ParseGga(raw);
      if point.None? {
        return None;
      }
      var p := point.value;
      history := BoundedQueue.Push(history, HistoryPoint(now, p.wgs), HistoryLimit());
      if |history| < 2 {
        return None;
      }
      var dt := history[|history| - 1].ts - history[|history| - 2].ts;
      if dt < 0.01 {
        return None;
      }
      stats := stats.(totalProcessed := stats.totalProcessed + 1);
      return Some(Processed(Truncate(now),
                            ProcessedData(p.wgs, geo.motion(origin.value, history), p.fixQuality, p.numSats, p.hdop)));
    }

    /** `get_stats()`: the counters as a value, so nothing the caller does to it reaches the processor. */
    method GetStats() returns (s: Stats)
      ensures s == stats
    {
      s := stats;
    }
  }

  /** With `filter_window_size == 0` the history holds one fix, so a locked processor never reports. */
  lemma ZeroWindowNeverReports(history: seq<HistoryPoint>, x: HistoryPoint)
    requires |history| <= 1
    ensures |BoundedQueue.Push(history, x, 1)| < 2
  {
  }
}
