/**
 * The parsed GeoJSON values the map scripts read (RFC 7946): positions as
 * (longitude, latitude) pairs, linear rings, Polygon and MultiPolygon
 * geometries (sections 3.1.6 and 3.1.7), and Features with the boundary
 * properties used for classification (name, 名称, adcode, level, type, 级别,
 * isCityBoundary, parent.adcode). A property that is missing in the data is
 * represented by its falsy default: "" for text, 0 for numbers, false for flags.
 */
module GeoJson {
  import opened Wrappers
  import Seqs

  /** `[lng, lat]` */
  type Position = (real, real)

  /** A linear ring: the ordered positions of one boundary. */
  type Ring = seq<Position>

  /** Geometry types other than Polygon and MultiPolygon carry no coordinates in this model. */
  datatype Geometry =
    | Polygon(rings: seq<Ring>)
    | MultiPolygon(polygons: seq<seq<Ring>>)
    | OtherGeometry

  /** Feature properties: name, 名称 (altName), adcode, level, type (kind), 级别 (levelZh),
      isCityBoundary, parent.adcode (parentAdcode). */
  datatype Props = Props(
    name: string,
    altName: string,
    adcode: int,
    level: string,
    kind: string,
    levelZh: string,
    isCityBoundary: bool,
    parentAdcode: int)

  datatype Feature = Feature(properties: Props, geometry: Option<Geometry>)

  /**
   * Every Polygon has an exterior ring and every MultiPolygon member has one:
   * the scripts index `coordinates[0]` / `polygon[0]` without checking, which
   * throws on a geometry without rings.
   */
  predicate RingsPresent(g: Geometry) {
    match g
    case Polygon(rings) => |rings| >= 1
    case MultiPolygon(polygons) => forall k :: 0 <= k < |polygons| ==> |polygons[k]| >= 1
    case OtherGeometry => true
  }

  /** A feature whose geometry can be read without a TypeError. */
  predicate Drawable(f: Feature) {
    f.geometry.Some? && RingsPresent(f.geometry.value)
  }

  /** The exterior rings: ring 0 of a Polygon, ring 0 of each MultiPolygon member. */
  function OuterRings(g: Geometry): (rs: seq<Ring>)
    requires RingsPresent(g)
    ensures g.Polygon? ==> rs == [g.rings[0]]
    ensures g.MultiPolygon? ==> |rs| == |g.polygons| && forall k :: 0 <= k < |rs| ==> rs[k] == g.polygons[k][0]
    ensures g.OtherGeometry? ==> rs == []
  {
    match g
    case Polygon(rings) => [rings[0]]
    case MultiPolygon(polygons) => seq(|polygons|, k requires 0 <= k < |polygons| => polygons[k][0])
    case OtherGeometry => []
  }

  /** The positions of the exterior rings, in order. */
  function OuterPositions(g: Geometry): seq<Position>
    requires RingsPresent(g)
  {
    Seqs.Flatten(OuterRings(g))
  }

  /** Every position of every ring, holes included, in document order. */
  function AllPositions(g: Geometry): seq<Position> {
    match g
    case Polygon(rings) => Seqs.Flatten(rings)
    case MultiPolygon(polygons) =>
      Seqs.Flatten(seq(|polygons|, k requires 0 <= k < |polygons| => Seqs.Flatten(polygons[k])))
    case OtherGeometry => []
  }

  /** JavaScript `a % m` for a positive m: the remainder truncated toward zero,
      negative for a negative a. */
  function JsRem(a: int, m: int): (r: int)
    requires m > 0
    ensures -m < r < m
    ensures a >= 0 ==> r == a % m
    ensures a < 0 ==> r <= 0
  {
    if a >= 0 then a % m else -((-a) % m)
  }

  /** `adcode % 100 === 0 && adcode % 10000 !== 0`: a prefecture-level (city) code such as 341200. */
  predicate IsCityCode(adcode: int) {
    JsRem(adcode, 100) == 0 && JsRem(adcode, 10000) != 0
  }

  /** The properties after setting level, type and 级别. */
  function WithLevel(p: Props, level: string, kind: string, levelZh: string): (q: Props)
    ensures q.level == level && q.kind == kind && q.levelZh == levelZh
    ensures q.name == p.name && q.adcode == p.adcode && q.isCityBoundary == p.isCityBoundary
  {
    p.(level := level, kind := kind, levelZh := levelZh)
  }

  function WithProps(f: Feature, p: Props): Feature {
    f.(properties := p)
  }
}
