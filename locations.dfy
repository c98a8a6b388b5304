/** The `location` JSON the station endpoints store: `{lat, lon[, h], source}`. */
module Locations {
  import opened JsonValues

  /** A location dictionary; `h` is left out when the code writes none. */
  function LocationDoc(lat: Json, lon: Json, h: Json, hasHeight: bool, source: string): (d: Dict)
    ensures d.Keys == (if hasHeight then {"lat", "lon", "h", "source"} else {"lat", "lon", "source"})
    ensures d["lat"] == lat && d["lon"] == lon && d["source"] == JStr(source)
    ensures hasHeight ==> d["h"] == h
  {
    var base := map["lat" := lat, "lon" := lon, "source" := JStr(source)];
    if hasHeight then base["h" := h] else base
  }

  /** Python's `sum(xs)`. */
  function Sum(xs: seq<real>): real
    decreases |xs|
  {
    if xs == [] then 0.0 else Sum(xs[..|xs| - 1]) + xs[|xs| - 1]
  }

  function Mean(xs: seq<real>): real
    requires |xs| > 0
  {
    Sum(xs) / |xs| as real
  }

  lemma {:induction false} SumBounds(xs: seq<real>, lo: real, hi: real)
    requires forall i :: 0 <= i < |xs| ==> lo <= xs[i] <= hi
    ensures lo * |xs| as real <= Sum(xs) <= hi * |xs| as real
    decreases |xs|
  {
    if xs != [] {
      SumBounds(xs[..|xs| - 1], lo, hi);
    }
  }

  /** An average of coordinates lies within the box of the coordinates averaged. */
  lemma MeanWithinBounds(xs: seq<real>, lo: real, hi: real)
    requires |xs| > 0
    requires forall i :: 0 <= i < |xs| ==> lo <= xs[i] <= hi
    ensures lo <= Mean(xs) <= hi
  {
    SumBounds(xs, lo, hi);
    var n := |xs| as real;
    assert Sum(xs) / n >= lo by {
      assert Sum(xs) >= lo * n;
      assert (Sum(xs) - lo * n) / n >= 0.0;
    }
    assert Sum(xs) / n <= hi by {
      assert Sum(xs) <= hi * n;
      assert (hi * n - Sum(xs)) / n >= 0.0;
    }
  }
}
