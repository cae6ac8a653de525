/**
 * The ray-casting (even-odd) point-in-polygon test of the canvas map.
 * `pointInPolygon` walks the edges (coords[j], coords[i]) with j the index
 * before i (wrapping to the last position for i = 0) and toggles `inside` for
 * every edge that straddles the point's latitude and lies east of it;
 * `isPointInPolygon` applies it to the exterior ring of a Polygon, to the
 * exterior ring of each MultiPolygon member (true if any holds), and answers
 * false for every other geometry type. Holes are never consulted.
 */
module RayCasting {
  import opened GeoJson

  /** The index before i on a closed ring of n positions. */
  function Prev(n: nat, i: nat): (j: nat)
    requires i < n
    ensures j < n
  {
    if i == 0 then n - 1 else i - 1
  }

  /**
   * The edge from pj to pi crosses the eastward ray from (lng, lat). The
   * division is reached only when the two latitudes differ, as with `&&` in
   * the source.
   */
  predicate Crosses(pi: Position, pj: Position, lng: real, lat: real) {
    ((pi.1 > lat) != (pj.1 > lat)) &&
    lng < (pj.0 - pi.0) * (lat - pi.1) / (pj.1 - pi.1) + pi.0
  }

  /** Number of qualifying edges among those ending at positions 0..k-1. */
  function CrossingCount(ring: Ring, lng: real, lat: real, k: nat): nat
    requires k <= |ring|
    decreases k
  {
    if k == 0 then 0
    else
      var c := if Crosses(ring[k - 1], ring[Prev(|ring|, k - 1)], lng, lat) then 1 else 0;
      CrossingCount(ring, lng, lat, k - 1) + c
  }

  /** The even-odd rule: inside exactly when an odd number of edges qualify. */
  predicate RingContains(ring: Ring, lng: real, lat: real) {
    CrossingCount(ring, lng, lat, |ring|) % 2 == 1
  }

  /** `pointInPolygon(lng, lat, coords)` */
  method PointInPolygon(lng: real, lat: real, coords: Ring) returns (inside: bool)
    ensures inside == RingContains(coords, lng, lat)
    ensures |coords| == 0 ==> !inside
  {
    inside := false;
    var i, j := 0, |coords| - 1;
    while i < |coords|
      invariant 0 <= i <= |coords|
      invariant j == if i == 0 then |coords| - 1 else i - 1
      invariant inside == (CrossingCount(coords, lng, lat, i) % 2 == 1)
    {
      // the edge test of the source, spelled out in Crosses
      var intersect := Crosses(coords[i], coords[j], lng, lat);
      assert CrossingCount(coords, lng, lat, i + 1) ==
        CrossingCount(coords, lng, lat, i) + (if intersect then 1 else 0);
      Toggle(CrossingCount(coords, lng, lat, i));
      if intersect {
        inside := !inside;
      }
      j, i := i, i + 1;
    }
  }

  /** One more crossing flips the parity. */
  lemma Toggle(c: nat)
    ensures ((c + 1) % 2 == 1) == !(c % 2 == 1)
  {
  }

  /** `geometry.coordinates.some(polygon => pointInPolygon(lng, lat, polygon[0]))` from member k on. */
  predicate SomeMemberContains(polygons: seq<seq<Ring>>, lng: real, lat: real, k: nat)
    requires forall m :: 0 <= m < |polygons| ==> |polygons[m]| >= 1
    requires k <= |polygons|
    decreases |polygons| - k
  {
    k < |polygons| && (RingContains(polygons[k][0], lng, lat) || SomeMemberContains(polygons, lng, lat, k + 1))
  }

  /** `isPointInPolygon(lng, lat, geometry)` */
  function IsPointInPolygon(lng: real, lat: real, g: Geometry): (inside: bool)
    requires RingsPresent(g)
    ensures inside <==> exists k :: 0 <= k < |OuterRings(g)| && RingContains(OuterRings(g)[k], lng, lat)
    ensures g.OtherGeometry? ==> !inside
  {
    match g
    case Polygon(rings) =>
      assert OuterRings(g)[0] == rings[0];
      RingContains(rings[0], lng, lat)
    case MultiPolygon(polygons) =>
      SomeMemberOuter(polygons, lng, lat);
      SomeMemberContains(polygons, lng, lat, 0)
    case OtherGeometry => false
  }

  lemma {:induction false} SomeMemberAny(polygons: seq<seq<Ring>>, lng: real, lat: real, k: nat)
    requires forall m :: 0 <= m < |polygons| ==> |polygons[m]| >= 1
    requires k <= |polygons|
    ensures SomeMemberContains(polygons, lng, lat, k) <==>
      exists m :: k <= m < |polygons| && RingContains(polygons[m][0], lng, lat)
    decreases |polygons| - k
  {
    if k < |polygons| {
      SomeMemberAny(polygons, lng, lat, k + 1);
    }
  }

  lemma SomeMemberOuter(polygons: seq<seq<Ring>>, lng: real, lat: real)
    requires forall m :: 0 <= m < |polygons| ==> |polygons[m]| >= 1
    ensures SomeMemberContains(polygons, lng, lat, 0) <==>
      exists k :: 0 <= k < |OuterRings(MultiPolygon(polygons))| &&
        RingContains(OuterRings(MultiPolygon(polygons))[k], lng, lat)
  {
    var rs := OuterRings(MultiPolygon(polygons));
    SomeMemberAny(polygons, lng, lat, 0);
    if SomeMemberContains(polygons, lng, lat, 0) {
      var m :| 0 <= m < |polygons| && RingContains(polygons[m][0], lng, lat);
      assert rs[m] == polygons[m][0];
    }
    if exists k :: 0 <= k < |rs| && RingContains(rs[k], lng, lat) {
      var k :| 0 <= k < |rs| && RingContains(rs[k], lng, lat);
      assert rs[k] == polygons[k][0];
    }
  }

  /** Holes are ignored: only ring 0 of a Polygon decides. */
  lemma HolesIgnored(lng: real, lat: real, outer: Ring, holes: seq<Ring>)
    ensures IsPointInPolygon(lng, lat, Polygon([outer] + holes)) == IsPointInPolygon(lng, lat, Polygon([outer]))
    ensures IsPointInPolygon(lng, lat, Polygon([outer] + holes)) == RingContains(outer, lng, lat)
  {
  }

  /** A MultiPolygon contains a point exactly when one of its members, read as a Polygon, does. */
  lemma {:induction false} MultiPolygonIsUnion(lng: real, lat: real, polygons: seq<seq<Ring>>)
    requires forall m :: 0 <= m < |polygons| ==> |polygons[m]| >= 1
    ensures IsPointInPolygon(lng, lat, MultiPolygon(polygons)) <==>
      exists m :: 0 <= m < |polygons| && IsPointInPolygon(lng, lat, Polygon(polygons[m]))
  {
    var g := MultiPolygon(polygons);
    if IsPointInPolygon(lng, lat, g) {
      var k :| 0 <= k < |OuterRings(g)| && RingContains(OuterRings(g)[k], lng, lat);
      assert IsPointInPolygon(lng, lat, Polygon(polygons[k]));
    }
    if exists m :: 0 <= m < |polygons| && IsPointInPolygon(lng, lat, Polygon(polygons[m])) {
      var m :| 0 <= m < |polygons| && IsPointInPolygon(lng, lat, Polygon(polygons[m]));
      assert OuterRings(g)[m] == polygons[m][0];
    }
  }
}
