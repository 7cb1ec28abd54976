/**
 * The two coordinate conversions of the map, over the reals.
 *
 * `CornerGameToMap` is `_gameToMap`: a point's unsigned distance from a fixed
 * top-left calibration corner, as a fraction of the corner-to-corner distance,
 * scaled by the size of the source image. `GameToMap` is the arithmetic of
 * `gameToMap`: a fixed affine fit from game coordinates to map coordinates.
 * The two are calibrated independently and are not inverses of each other.
 */
module Calibration {

  /** A pair of coordinates, the model of a two-element array `[x, y]`. */
  datatype Point = Point(x: real, y: real)

  /** Size of the source image, in pixels. */
  const Image: Point := Point(48841.0, 38666.0)
  /** Game coordinates of the image's top-left corner. */
  const TopLeft: Point := Point(-7168.0, 4096.0)
  /** Game coordinates of the image's bottom-right corner. */
  const BottomRight: Point := Point(5120.0, -5632.0)

  /** `_num_distance`: the unsigned difference of two numbers. */
  function NumDistance(t: real, i: real): (d: real)
    ensures d >= 0.0
    ensures d == 0.0 <==> t == i
    ensures d == t - i || d == i - t
  {
    if t > i then t - i else i - t
  }

  /** `_normal_xy`: the unsigned difference of two points, axis by axis. */
  function NormalXY(t: Point, i: Point): (r: Point)
    ensures r.x >= 0.0 && r.y >= 0.0
    ensures r == Point(0.0, 0.0) <==> t == i
  {
    Point(NumDistance(t.x, i.x), NumDistance(t.y, i.y))
  }

  /** `_gameToMap`: where a game point lies on the image, in pixels. */
  function CornerGameToMap(coords: Point): (r: Point)
    ensures r.x >= 0.0 && r.y >= 0.0
    ensures r == Point(0.0, 0.0) <==> coords == TopLeft
  {
    var e := NormalXY(TopLeft, BottomRight);
    var s := NormalXY(TopLeft, coords);
    Point(Image.x * (s.x / e.x), Image.y * (s.y / e.y))
  }

  /** The distance is the same whichever argument comes first. */
  lemma NumDistanceSymmetric(t: real, i: real)
    ensures NumDistance(t, i) == NumDistance(i, t)
  {
  }

  /** Each axis of `NormalXY` depends on that axis of its arguments only. */
  lemma NormalXYPerAxis(t: Point, i: Point, t': Point, i': Point)
    ensures t.x == t'.x && i.x == i'.x ==> NormalXY(t, i).x == NormalXY(t', i').x
    ensures t.y == t'.y && i.y == i'.y ==> NormalXY(t, i).y == NormalXY(t', i').y
  {
  }

  /** The top-left corner lands on pixel (0, 0). */
  lemma CornerGameToMapTopLeft()
    ensures CornerGameToMap(TopLeft) == Point(0.0, 0.0)
  {
  }

  /** The bottom-right corner lands on the image's far corner. */
  lemma CornerGameToMapBottomRight()
    ensures CornerGameToMap(BottomRight) == Point(48841.0, 38666.0)
  {
  }

  /**
   * Inside the calibration rectangle the conversion is the linear
   * interpolation between the corners, and stays within the image.
   */
  lemma CornerGameToMapInside(coords: Point)
    requires TopLeft.x <= coords.x <= BottomRight.x
    requires BottomRight.y <= coords.y <= TopLeft.y
    ensures CornerGameToMap(coords) == Point(48841.0 * (coords.x + 7168.0) / 12288.0, 38666.0 * (4096.0 - coords.y) / 9728.0)
    ensures 0.0 <= CornerGameToMap(coords).x <= Image.x
    ensures 0.0 <= CornerGameToMap(coords).y <= Image.y
  {
  }

  /**
   * Because distances are unsigned, a point and its mirror image through the
   * top-left corner land on the same pixel: points outside the rectangle fold
   * back instead of leaving the image on the negative side.
   */
  lemma CornerGameToMapMirror(coords: Point)
    ensures CornerGameToMap(Point(2.0 * TopLeft.x - coords.x, 2.0 * TopLeft.y - coords.y)) == CornerGameToMap(coords)
  {
  }

  /** The value `gameToMap` returns (besides placing a marker). */
  datatype DebugMarker = DebugMarker(name: string, lati: real, long: real)

  /**
   * The arithmetic of `gameToMap(lat, lng, name)`, without the rounding of
   * `toFixed(4)`: the map latitude comes from the game longitude and the map
   * longitude from the game latitude.
   */
  function GameToMap(lat: real, lng: real, name: string := "Debug Marker"): (m: DebugMarker)
    ensures m.name == name
    ensures MapToGame(m.lati, m.long) == (lat, lng)
  {
    DebugMarker(name, 0.0121 * lng + -23.95, 0.012 * lat + 24.0)
  }

  /** The inverse of the affine fit: the game `(lat, lng)` for a map point. */
  function MapToGame(lati: real, long: real): (real, real)
  {
    ((long - 24.0) / 0.012, (lati + 23.95) / 0.0121)
  }

  /** Every map point is reached from the game point that `MapToGame` gives. */
  lemma GameToMapOfMapToGame(lati: real, long: real, name: string)
    ensures var g := MapToGame(lati, long); GameToMap(g.0, g.1, name) == DebugMarker(name, lati, long)
  {
  }

  /** The game origin lands on map point (-23.95, 24). */
  lemma GameToMapOrigin()
    ensures GameToMap(0.0, 0.0) == DebugMarker("Debug Marker", -23.95, 24.0)
  {
  }

  /** Both map coordinates grow with the game coordinate they come from. */
  lemma GameToMapMonotone(lat: real, lng: real, lat': real, lng': real)
    requires lat <= lat' && lng <= lng'
    ensures GameToMap(lat, lng).lati <= GameToMap(lat', lng').lati
    ensures GameToMap(lat, lng).long <= GameToMap(lat', lng').long
  {
  }
}
