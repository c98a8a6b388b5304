/**
 * The field conversions both GGA parsers (the GNSS processor and the live
 * origin fetcher of the admin router) apply to a `$GNGGA` sentence of
 * NMEA 0183: latitude `ddmm.mmmm` in field 2 with its hemisphere in field 3,
 * longitude `dddmm.mmmm` in field 4 with its hemisphere in field 5, fix
 * quality in field 6, satellites in field 7, HDOP in field 8 and altitude
 * in field 9.
 */
module Nmea {
  import opened Wrappers
  import Text

  function Min(a: int, b: int): int { if a < b then a else b }

  /** `s[:n]`, clamped like Python's slice. */
  function Prefix(s: string, n: nat): string { s[..Min(n, |s|)] }

  /** `s[n:]`, clamped like Python's slice. */
  function Suffix(s: string, n: nat): string { s[Min(n, |s|)..] }

  /** `float(s[:d]) + float(s[d:]) / 60.0`: whole degrees, then decimal minutes. */
  function Coordinate(s: string, degreeDigits: nat): (r: Option<real>)
    ensures r.Some? ==> Text.ParseReal(Prefix(s, degreeDigits)).Some?
                        && Text.ParseReal(Suffix(s, degreeDigits)).Some?
  {
    var degrees := Text.ParseReal(Prefix(s, degreeDigits));
    var minutes := Text.ParseReal(Suffix(s, degreeDigits));
    if degrees.Some? && minutes.Some? then Some(degrees.value + minutes.value / 60.0) else None
  }

  /** A field made of a degrees part and a minutes part reads as degrees plus minutes / 60. */
  lemma CoordinateOfDegreesMinutes(degrees: string, minutes: string, d: real, m: real)
    requires Text.ParseReal(degrees) == Some(d)
    requires Text.ParseReal(minutes) == Some(m)
    ensures Coordinate(degrees + minutes, |degrees|) == Some(d + m / 60.0)
  {
    SliceAtDegrees(degrees, minutes);
    CoordinateOfFields(degrees + minutes, |degrees|, d, m);
  }

  lemma SliceAtDegrees(degrees: string, minutes: string)
    ensures Prefix(degrees + minutes, |degrees|) == degrees
    ensures Suffix(degrees + minutes, |degrees|) == minutes
  {
    assert (degrees + minutes)[..|degrees|] == degrees;
  }

  lemma CoordinateOfFields(s: string, degreeDigits: nat, degrees: real, minutes: real)
    requires Text.ParseReal(Prefix(s, degreeDigits)) == Some(degrees)
    requires Text.ParseReal(Suffix(s, degreeDigits)) == Some(minutes)
    ensures Coordinate(s, degreeDigits) == Some(degrees + minutes / 60.0)
  {
    var d := Text.ParseReal(Prefix(s, degreeDigits));
    var m := Text.ParseReal(Suffix(s, degreeDigits));
    assert d.Some? && m.Some? && d.value == degrees && m.value == minutes;
  }

  /** `-v if direction == negative else v`: only the exact letter 'S' (or 'W') negates. */
  function Hemisphere(v: real, direction: string, negative: string): (r: real)
    ensures direction == negative ==> r == -v
    ensures direction != negative ==> r == v
  {
    if direction == negative then -v else v
  }

  /** `int(f) if f else 0`. */
  function IntOrZero(f: string): (r: Option<int>)
    ensures f == "" ==> r == Some(0)
  {
    if f == "" then Some(0) else Text.ParseInt(f)
  }

  /** `float(f) if f else default`. */
  function RealOr(f: string, default: real): (r: Option<real>)
    ensures f == "" ==> r == Some(default)
  {
    if f == "" then Some(default) else Text.ParseReal(f)
  }

  /** The first guard of every GGA parse: at least ten fields and non-empty latitude and longitude. */
  predicate HasPosition(parts: seq<string>) {
    |parts| >= 10 && parts[2] != "" && parts[4] != ""
  }
}
