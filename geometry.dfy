/** Points, headings and the coordinate arithmetic of the converter (the trigonometry itself is a parameter). */
module Geometry {

  /** A position in decimal degrees. */
  datatype Point = Point(lat: real, lon: real)

  /**
   * The spherical direct-geodesic step: the point reached from an origin along a
   * bearing (degrees) after a distance (metres). The converter computes it with
   * asin/sin/cos/fmod; here it is supplied by the caller.
   */
  type Projection = (Point, real, real) -> Point

  /** Feet to metres, used for the runway length of an 810 record. */
  const FeetToMeter: real := 0.3048

  function Abs(x: real): real {
    if x < 0.0 then -x else x
  }

  function Min(x: real, y: real): real {
    if x <= y then x else y
  }

  function Max(x: real, y: real): real {
    if x <= y then y else x
  }

  /** `heading + delta`, with 360 subtracted once when the sum reaches 360. */
  function Turn(heading: real, delta: real): (r: real)
    ensures r == heading + delta || r == heading + delta - 360.0
    ensures 0.0 <= heading < 360.0 && 0.0 <= delta < 360.0 ==> 0.0 <= r < 360.0
  {
    if heading + delta >= 360.0 then heading + delta - 360.0 else heading + delta
  }

  /** The heading of a parking stand: a quarter turn then a half turn is three quarters. */
  lemma QuarterThenHalfTurn(heading: real)
    requires 0.0 <= heading < 360.0
    ensures Turn(Turn(heading, 90.0), 180.0) == Turn(heading, 270.0)
  {
  }

  /**
   * find_midpoint: per axis, the lesser value plus half the difference. This is the
   * plain average of the two coordinates (not a geodesic midpoint).
   */
  function Midpoint(a: Point, b: Point): (m: Point)
    ensures m.lat == (a.lat + b.lat) / 2.0 && m.lon == (a.lon + b.lon) / 2.0
    ensures Min(a.lat, b.lat) <= m.lat <= Max(a.lat, b.lat)
    ensures Min(a.lon, b.lon) <= m.lon <= Max(a.lon, b.lon)
  {
    var lon := if a.lon > b.lon then (a.lon - b.lon) / 2.0 + b.lon else (b.lon - a.lon) / 2.0 + a.lon;
    var lat := if a.lat > b.lat then (a.lat - b.lat) / 2.0 + b.lat else (b.lat - a.lat) / 2.0 + a.lat;
    Point(lat, lon)
  }

  /** A coordinate as the output writes it: hemisphere letter, whole degrees, minutes. */
  datatype Angle = Angle(hemisphere: char, degrees: nat, minutes: real)

  /**
   * The numeric part of convert_coord for one axis: the `positive` letter only for
   * strictly positive values, |trunc(x)| degrees and |frac(x)| * 60 minutes.
   */
  function ToAngle(x: real, positive: char, negative: char): (a: Angle)
    ensures a.hemisphere == (if x > 0.0 then positive else negative)
    ensures 0.0 <= a.minutes < 60.0
    ensures a.degrees as real + a.minutes / 60.0 == Abs(x)
  {
    var m := Abs(x);
    var d := m.Floor;
    Angle(if x > 0.0 then positive else negative, d, (m - d as real) * 60.0)
  }

  /** Reads an angle back: degrees plus minutes / 60, negated unless the letter is `positive`. */
  function AngleValue(a: Angle, positive: char): real {
    var v := a.degrees as real + a.minutes / 60.0;
    if a.hemisphere == positive then v else -v
  }

  /** Writing a coordinate and reading it back gives the coordinate. */
  lemma AngleRoundTrip(x: real, positive: char, negative: char)
    requires positive != negative
    ensures AngleValue(ToAngle(x, positive, negative), positive) == x
  {
  }

  /** convert_coord: latitude with N/S, longitude with E/W. */
  function ConvertCoord(p: Point): (c: (Angle, Angle))
    ensures AngleValue(c.0, 'N') == p.lat && AngleValue(c.1, 'E') == p.lon
    ensures (c.0.hemisphere == 'N') == (p.lat > 0.0) && (c.1.hemisphere == 'E') == (p.lon > 0.0)
  {
    AngleRoundTrip(p.lat, 'N', 'S');
    AngleRoundTrip(p.lon, 'E', 'W');
    (ToAngle(p.lat, 'N', 'S'), ToAngle(p.lon, 'E', 'W'))
  }
}
