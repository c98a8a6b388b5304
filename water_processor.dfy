/**
 * The water-level and rain-gauge engines of the processing layer. Each keeps
 * the last valid reading and a bounded history of accepted samples; a reading
 * that is missing or unusable is answered with the last valid value and
 * flagged as a fallback, and changes nothing.
 */
module WaterProcessor {
  import opened Wrappers
  import opened JsonValues
  import opened BoundedQueue

  /** One `(timestamp, value)` pair of a history deque. */
  datatype Sample = Sample(time: real, value: real)

  /** The dictionary `WaterEngine.process` returns, before rounding to 3 decimals. */
  datatype WaterReading = WaterReading(waterLevel: real, isFallback: bool)

  /** The dictionary `RainEngine.process` returns, before rounding to 2 decimals. */
  datatype RainReading = RainReading(rainfallMm: real, intensityMmH: real, isFallback: bool)

  // ---- WaterEngine -------------------------------------------------------------

  /** `payload.get("value") or payload.get("water_level")`. */
  function WaterValue(payload: Dict): (r: Json)
    ensures Truthy(Get(payload, "value")) ==> r == payload["value"]
    ensures !Truthy(Get(payload, "value")) ==> r == Get(payload, "water_level")
  {
    var v := Get(payload, "value");
    if Truthy(v) then v else Get(payload, "water_level")
  }

  /**
   * The level a payload is accepted with, or None when `process` falls back:
   * no value under either key, a value `float` rejects, or one outside
   * `[validMin, validMax]`.
   */
  function AcceptedWater(payload: Dict, validMin: real, validMax: real): (r: Option<real>)
    ensures r.Some? ==> validMin <= r.value <= validMax
    ensures r.Some? <==> WaterValue(payload) != JNull && ToFloat(WaterValue(payload)).Some?
                         && validMin <= ToFloat(WaterValue(payload)).value <= validMax
    ensures r.Some? ==> r == ToFloat(WaterValue(payload))
  {
    var val := WaterValue(payload);
    if val.JNull? then None
    else
      match ToFloat(val)
      case None => None
      case Some(v) => if validMin <= v <= validMax then Some(v) else None
  }

  /** A numeric `value` in range is taken as is, whatever `water_level` says. */
  lemma WaterValueKeyWins(payload: Dict, validMin: real, validMax: real, v: real)
    requires "value" in payload && payload["value"] == JNum(v) && v != 0.0
    requires validMin <= v <= validMax
    ensures AcceptedWater(payload, validMin, validMax) == Some(v)
  {
  }

  /**
   * `value or water_level` treats a level of exactly 0 as missing: it falls
   * through to `water_level`, and with no `water_level` the engine reports
   * a fallback although 0 m is inside the default range.
   */
  lemma WaterZeroLevelFallsThrough(payload: Dict, validMin: real, validMax: real)
    requires "value" in payload && payload["value"] == JNum(0.0)
    ensures AcceptedWater(payload, validMin, validMax) == AcceptedWater(payload - {"value"}, validMin, validMax)
    ensures "water_level" !in payload ==> AcceptedWater(payload, validMin, validMax).None?
  {
    assert Get(payload - {"value"}, "water_level") == Get(payload, "water_level");
  }

  class WaterEngine {
    const historySize: nat
    const validMin: real
    const validMax: real

    var history: seq<Sample>
    var lastValidValue: real
    /** Every sample ever accepted, oldest first; the deque keeps the last `historySize` of them. */
    ghost var accepted: seq<Sample>

    ghost predicate Valid()
      reads this
    {
      && history == Last(accepted, historySize)
      && (accepted == [] ==> lastValidValue == 0.0)
      && (accepted != [] ==> lastValidValue == accepted[|accepted| - 1].value)
      && forall i :: 0 <= i < |accepted| ==> validMin <= accepted[i].value <= validMax
    }

    /** `WaterEngine(history_size=36, valid_min=0.0, valid_max=50.0)` by default. */
    constructor(historySize: nat, validMin: real, validMax: real)
      ensures Valid()
      ensures this.historySize == historySize && this.validMin == validMin && this.validMax == validMax
      ensures history == [] && lastValidValue == 0.0 && accepted == []
    {
      this.historySize := historySize;
      this.validMin := validMin;
      this.validMax := validMax;
      history := [];
      lastValidValue := 0.0;
      accepted := [];
      new;
      assert Last(accepted, historySize) == [];
    }

    /**
     * `process`: an accepted level becomes the last valid value and is
     * appended to the history; otherwise the last valid value is returned
     * as a fallback and nothing changes.
     */
    method Process(payload: Dict, timestamp: real) returns (r: WaterReading)
      requires Valid()
      modifies this
      ensures Valid()
      ensures |history| <= historySize
      ensures AcceptedWater(payload, validMin, validMax).Some? ==>
        var v := AcceptedWater(payload, validMin, validMax).value;
        r == WaterReading(v, false) && lastValidValue == v
        && accepted == old(accepted) + [Sample(timestamp, v)]
        && history == Push(old(history), Sample(timestamp, v), historySize)
      ensures AcceptedWater(payload, validMin, validMax).None? ==>
        r == WaterReading(old(lastValidValue), true) && lastValidValue == old(lastValidValue)
        && accepted == old(accepted) && history == old(history)
    {
      var val := WaterValue(payload);
      if val.JNull? {
        return WaterReading(lastValidValue, true);
      }
      var converted := ToFloat(val);
      if converted.None? {
        // ValueError / TypeError from float(val)
        return WaterReading(lastValidValue, true);
      }
      var valueMeters := converted.value;
      if !(validMin <= valueMeters <= validMax) {
        return WaterReading(lastValidValue, true);
      }
      Accept(Sample(timestamp, valueMeters));
      r := WaterReading(valueMeters, false);
    }

    /** The accepting branch of `process`: the level becomes the last valid value and joins the history. */
    method Accept(s: Sample)
      requires Valid() && validMin <= s.value <= validMax
      modifies this
      ensures Valid()
      ensures lastValidValue == s.value && accepted == old(accepted) + [s]
      ensures history == Push(old(history), s, historySize)
    {
      ghost var grown := accepted + [s];
      PushKeepsLastWindow(accepted, s, historySize);
      forall i | 0 <= i < |grown| ensures validMin <= grown[i].value <= validMax {
        if i < |accepted| {
          assert grown[i] == accepted[i];
        }
      }
      lastValidValue := s.value;
      history := Push(history, s, historySize);
      accepted := grown;
    }
  }

  // ---- RainEngine --------------------------------------------------------------

  /** Seconds in the window over which a cumulative-rainfall difference is turned into mm/h. */
  const IntensityWindow: real := 3600.0

  /**
   * The intensity of a reading of `rainfall` mm at `timestamp`: the device's
   * own `intensity_mm_h` when it sends one (None when `float` rejects it);
   * otherwise the rise since the last sample scaled to mm/h, when that sample
   * is less than an hour old and the counter did not go down; otherwise 0.
   */
  function RainIntensity(payload: Dict, rainfall: real, timestamp: real, history: seq<Sample>): (r: Option<real>)
    ensures Get(payload, "intensity_mm_h") != JNull ==> r == ToFloat(Get(payload, "intensity_mm_h"))
  {
    var input := Get(payload, "intensity_mm_h");
    if input != JNull then ToFloat(input)
    else if |history| > 0 then
      var prev := history[|history| - 1];
      var timeDiff := timestamp - prev.time;
      var rainfallDiff := rainfall - prev.value;
      if 0.0 < timeDiff < IntensityWindow && rainfallDiff >= 0.0 then Some(rainfallDiff / timeDiff * IntensityWindow)
      else Some(0.0)
    else Some(0.0)
  }

  /**
   * Without a device intensity, the derived intensity is never negative, and
   * it is the rise since the last sample per hour exactly when that sample is
   * under an hour old and the counter did not go down; in every other case it is 0.
   */
  lemma DerivedIntensity(payload: Dict, rainfall: real, timestamp: real, history: seq<Sample>)
    requires Get(payload, "intensity_mm_h") == JNull
    ensures var r := RainIntensity(payload, rainfall, timestamp, history);
      r.Some? && r.value >= 0.0
      && (|history| > 0 && 0.0 < timestamp - history[|history| - 1].time < IntensityWindow
          && rainfall >= history[|history| - 1].value ==>
            r.value * (timestamp - history[|history| - 1].time)
              == (rainfall - history[|history| - 1].value) * IntensityWindow)
      && ((|history| == 0 || !(0.0 < timestamp - history[|history| - 1].time < IntensityWindow)
           || rainfall < history[|history| - 1].value) ==> r.value == 0.0)
  {
    if |history| > 0 {
      var prev := history[|history| - 1];
      var timeDiff := timestamp - prev.time;
      var rainfallDiff := rainfall - prev.value;
      if 0.0 < timeDiff < IntensityWindow && rainfallDiff >= 0.0 {
        var q := rainfallDiff / timeDiff;
        assert q * timeDiff == rainfallDiff;
        assert q >= 0.0;
      }
    }
  }

  /**
   * The rainfall and intensity a payload is accepted with, or None when
   * `process` falls back: no `rainfall_mm`, or a value `float` rejects.
   */
  function AcceptedRain(payload: Dict, timestamp: real, history: seq<Sample>): (r: Option<(real, real)>)
    ensures r.Some? <==> Get(payload, "rainfall_mm") != JNull && ToFloat(Get(payload, "rainfall_mm")).Some?
                         && RainIntensity(payload, ToFloat(Get(payload, "rainfall_mm")).value, timestamp, history).Some?
    ensures r.Some? ==> r.value.0 == ToFloat(Get(payload, "rainfall_mm")).value
                        && r.value.1 == RainIntensity(payload, r.value.0, timestamp, history).value
  {
    var val := Get(payload, "rainfall_mm");
    if val == JNull then None
    else
      match ToFloat(val)
      case None => None
      case Some(rainfall) =>
        match RainIntensity(payload, rainfall, timestamp, history)
        case None => None
        case Some(intensity) => Some((rainfall, intensity))
  }

  /** A device that sends both numbers is taken at its word, whatever the history says. */
  lemma DeviceIntensityWins(payload: Dict, timestamp: real, history: seq<Sample>, rainfall: real, intensity: real)
    requires "rainfall_mm" in payload && payload["rainfall_mm"] == JNum(rainfall)
    requires "intensity_mm_h" in payload && payload["intensity_mm_h"] == JNum(intensity)
    ensures AcceptedRain(payload, timestamp, history) == Some((rainfall, intensity))
  {
  }

  class RainEngine {
    const historySize: nat

    var history: seq<Sample>
    var lastValidRainfall: real
    var lastValidIntensity: real
    /** Every accepted `(timestamp, rainfall)` sample, oldest first. */
    ghost var accepted: seq<Sample>

    ghost predicate Valid()
      reads this
    {
      && history == Last(accepted, historySize)
      && (accepted == [] ==> lastValidRainfall == 0.0 && lastValidIntensity == 0.0)
      && (accepted != [] ==> lastValidRainfall == accepted[|accepted| - 1].value)
    }

    /** `RainEngine(history_size=60)` by default. */
    constructor(historySize: nat)
      ensures Valid()
      ensures this.historySize == historySize
      ensures history == [] && lastValidRainfall == 0.0 && lastValidIntensity == 0.0 && accepted == []
    {
      this.historySize := historySize;
      history := [];
      lastValidRainfall := 0.0;
      lastValidIntensity := 0.0;
      accepted := [];
      new;
      assert Last(accepted, historySize) == [];
    }

    /**
     * The intensity step of `process`: the device's `intensity_mm_h` first,
     * else the rise since the newest history sample, else 0.
     */
    method Intensity(payload: Dict, rainfallMm: real, timestamp: real) returns (r: Option<real>)
      ensures r == RainIntensity(payload, rainfallMm, timestamp, history)
    {
      var intensityInput := Get(payload, "intensity_mm_h");
      var intensityMmH := 0.0;
      if intensityInput != JNull {
        // float(intensity_input) may raise
        return ToFloat(intensityInput);
      } else if |history| > 0 {
        var prev := history[|history| - 1];
        var timeDiffSec := timestamp - prev.time;
        var rainfallDiffMm := rainfallMm - prev.value;
        if 0.0 < timeDiffSec < IntensityWindow && rainfallDiffMm >= 0.0 {
          intensityMmH := rainfallDiffMm / timeDiffSec * IntensityWindow;
        }
      }
      r := Some(intensityMmH);
    }

    /**
     * `process`: an accepted reading becomes the last valid rainfall and
     * intensity and its rainfall is appended to the history; otherwise the
     * last valid pair is returned as a fallback and nothing changes.
     */
    method Process(payload: Dict, timestamp: real) returns (r: RainReading)
      requires Valid()
      modifies this
      ensures Valid()
      ensures |history| <= historySize
      ensures AcceptedRain(payload, timestamp, old(history)).Some? ==>
        var rainfall := AcceptedRain(payload, timestamp, old(history)).value.0;
        var intensity := AcceptedRain(payload, timestamp, old(history)).value.1;
        r == RainReading(rainfall, intensity, false)
        && lastValidRainfall == rainfall && lastValidIntensity == intensity
        && accepted == old(accepted) + [Sample(timestamp, rainfall)]
        && history == Push(old(history), Sample(timestamp, rainfall), historySize)
      ensures AcceptedRain(payload, timestamp, old(history)).None? ==>
        r == RainReading(old(lastValidRainfall), old(lastValidIntensity), true)
        && lastValidRainfall == old(lastValidRainfall) && lastValidIntensity == old(lastValidIntensity)
        && accepted == old(accepted) && history == old(history)
    {
      var val := Get(payload, "rainfall_mm");
      if val == JNull {
        return RainReading(lastValidRainfall, lastValidIntensity, true);
      }
      var converted := ToFloat(val);
      if converted.None? {
        return RainReading(lastValidRainfall, lastValidIntensity, true);
      }
      var rainfallMm := converted.value;
      var intensity := Intensity(payload, rainfallMm, timestamp);
      if intensity.None? {
        return RainReading(lastValidRainfall, lastValidIntensity, true);
      }
      var intensityMmH := intensity.value;
      assert AcceptedRain(payload, timestamp, history) == Some((rainfallMm, intensityMmH));
      Accept(Sample(timestamp, rainfallMm), intensityMmH);
      r := RainReading(rainfallMm, intensityMmH, false);
    }

    /** The accepting branch of `process`: the reading becomes the last valid one and joins the history. */
    method Accept(s: Sample, intensity: real)
      requires Valid()
      modifies this
      ensures Valid()
      ensures lastValidRainfall == s.value && lastValidIntensity == intensity && accepted == old(accepted) + [s]
      ensures history == Push(old(history), s, historySize)
    {
      ghost var grown := accepted + [s];
      PushKeepsLastWindow(accepted, s, historySize);
      lastValidRainfall := s.value;
      lastValidIntensity := intensity;
      history := Push(history, s, historySize);
      accepted := grown;
    }
  }
}
