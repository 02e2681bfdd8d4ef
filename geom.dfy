/**
 * The geometry vocabulary the providers exchange: geometry kinds, extents,
 * tile requests and (abstract) geometries.  Coordinates are exact reals; the
 * floating-point tile math that produces them is outside this model.
 */
module Geom {

  /** The zero-valued shapes the Go code stores as a layer's geometry type. */
  datatype GeomKind =
    | Point
    | Line
    | LineString
    | Polygon
    | MultiPoint
    | MultiLineString
    | MultiPolygon
    | Collection

  /** geom.Extent: {minx, miny, maxx, maxy}. */
  datatype Extent = Extent(minX: real, minY: real, maxX: real, maxY: real)

  /** The whole-world extent every provider falls back to. */
  const WorldExtent: Extent := Extent(-180.0, -85.05112877980659, 180.0, 85.0511287798066)

  /** A point (x, y). */
  datatype Point2 = Point2(x: real, y: real)

  function Min(a: real, b: real): real { if a <= b then a else b }
  function Max(a: real, b: real): real { if a <= b then b else a }

  /** geom.NewExtent of two points: the smallest extent holding both. */
  function NewExtent(a: Point2, b: Point2): (e: Extent)
    ensures e.minX <= a.x <= e.maxX && e.minX <= b.x <= e.maxX
    ensures e.minY <= a.y <= e.maxY && e.minY <= b.y <= e.maxY
    ensures (e.minX == a.x || e.minX == b.x) && (e.maxX == a.x || e.maxX == b.x)
    ensures (e.minY == a.y || e.minY == b.y) && (e.maxY == a.y || e.maxY == b.y)
  {
    Extent(Min(a.x, b.x), Min(a.y, b.y), Max(a.x, b.x), Max(a.y, b.y))
  }

  /** tegola.WebMercator. */
  const WebMercator: nat := 3857

  /** A tile request made by provider.NewTile: zoom, x, y and a buffer in pixels. */
  datatype Tile = Tile(z: nat, x: nat, y: nat, buffer: nat)

  /**
   * A feature geometry.  The debug providers build theirs from the tile's
   * extent; decoded geometries keep the bytes they were decoded from.
   */
  datatype Geometry =
    | TileOutline(outlined: Tile)
    | TileCenter(centered: Tile)
    | EmptyCollection
    | Decoded(kind: GeomKind, wkb: seq<bv8>)

  function KindOf(g: Geometry): GeomKind {
    match g
    case TileOutline(_) => Polygon
    case TileCenter(_) => Point
    case EmptyCollection => Collection
    case Decoded(k, _) => k
  }

  /** Go's conversion of a signed integer to uint64: two's-complement wrap-around. */
  function Uint64(i: int): (r: nat)
    ensures r < 0x1_0000_0000_0000_0000
    ensures 0 <= i < 0x1_0000_0000_0000_0000 ==> r == i
    ensures -0x1_0000_0000_0000_0000 <= i < 0 ==> r == i + 0x1_0000_0000_0000_0000
  {
    i % 0x1_0000_0000_0000_0000
  }

  /** Go's conversion of a signed integer to uint16: only the low 16 bits survive. */
  function Uint16(i: int): (r: nat)
    ensures r < 0x1_0000
    ensures 0 <= i < 0x1_0000 ==> r == i
    ensures (r - i) % 0x1_0000 == 0
  {
    i % 0x1_0000
  }

  /** Go's conversion of a uint64 to a (64-bit) int: values from 2^63 up wrap to negatives. */
  function ToInt64(u: nat): (r: int)
    requires u < 0x1_0000_0000_0000_0000
    ensures -0x8000_0000_0000_0000 <= r < 0x8000_0000_0000_0000
    ensures Uint64(r) == u
  {
    if u < 0x8000_0000_0000_0000 then u else u - 0x1_0000_0000_0000_0000
  }
}
