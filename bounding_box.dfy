/**
 * Axis-aligned bounding boxes of the canvas map. `calculateCityOutline`
 * gathers the exterior-ring positions of a city's features and replaces the
 * union of their polygons by the box around them, drawn as a closed
 * five-position ring; that box is what the overview uses to place events in a
 * city.
 */
module BoundingBox {
  import opened Wrappers
  import opened GeoJson
  import Seqs
  import RayCasting

  /** `{ minLng, maxLng, minLat, maxLat }` */
  datatype Bounds = Bounds(minLng: real, maxLng: real, minLat: real, maxLat: real)

  /** Every position lies within the bounds, edges included. */
  predicate Encloses(b: Bounds, ps: seq<Position>) {
    forall k :: 0 <= k < |ps| ==>
      b.minLng <= ps[k].0 <= b.maxLng && b.minLat <= ps[k].1 <= b.maxLat
  }

  /** Each of the four bounds is the coordinate of some position. */
  predicate Attained(b: Bounds, ps: seq<Position>) {
    (exists k :: 0 <= k < |ps| && ps[k].0 == b.minLng) &&
    (exists k :: 0 <= k < |ps| && ps[k].0 == b.maxLng) &&
    (exists k :: 0 <= k < |ps| && ps[k].1 == b.minLat) &&
    (exists k :: 0 <= k < |ps| && ps[k].1 == b.maxLat)
  }

  /** The tightest box around ps. */
  predicate IsBoundingBox(b: Bounds, ps: seq<Position>) {
    b.minLng <= b.maxLng && b.minLat <= b.maxLat && Encloses(b, ps) && Attained(b, ps)
  }

  /** The bounding box of a list of positions is unique. */
  lemma BoundingBoxUnique(b: Bounds, c: Bounds, ps: seq<Position>)
    requires IsBoundingBox(b, ps) && IsBoundingBox(c, ps)
    ensures b == c
  {
    var k1 :| 0 <= k1 < |ps| && ps[k1].0 == b.minLng;
    var k2 :| 0 <= k2 < |ps| && ps[k2].0 == c.minLng;
    var k3 :| 0 <= k3 < |ps| && ps[k3].0 == b.maxLng;
    var k4 :| 0 <= k4 < |ps| && ps[k4].0 == c.maxLng;
    var k5 :| 0 <= k5 < |ps| && ps[k5].1 == b.minLat;
    var k6 :| 0 <= k6 < |ps| && ps[k6].1 == c.minLat;
    var k7 :| 0 <= k7 < |ps| && ps[k7].1 == b.maxLat;
    var k8 :| 0 <= k8 < |ps| && ps[k8].1 == c.maxLat;
  }

  function Min(a: real, b: real): real { if a <= b then a else b }
  function Max(a: real, b: real): real { if a >= b then a else b }

  /** The box after one more position: four `Math.min`/`Math.max` steps. */
  function Widen(b: Bounds, p: Position): Bounds {
    Bounds(Min(b.minLng, p.0), Max(b.maxLng, p.0), Min(b.minLat, p.1), Max(b.maxLat, p.1))
  }

  /** The degenerate box of one position. */
  function PointBox(p: Position): Bounds {
    Bounds(p.0, p.0, p.1, p.1)
  }

  /** The box of one position is its bounding box. */
  lemma PointBoxIsBoundingBox(p: Position)
    ensures IsBoundingBox(PointBox(p), [p])
  {
    assert [p][0] == p;
  }

  /** One `Math.min`/`Math.max` step turns the bounding box of ps into that of ps + [p]. */
  lemma WidenIsBoundingBox(b: Bounds, ps: seq<Position>, p: Position)
    requires IsBoundingBox(b, ps)
    ensures IsBoundingBox(Widen(b, p), ps + [p])
  {
    var qs := ps + [p];
    assert qs[|ps|] == p;
    assert forall k :: 0 <= k < |ps| ==> qs[k] == ps[k];
    var w := Widen(b, p);
    if w.minLng == b.minLng {
      var k :| 0 <= k < |ps| && ps[k].0 == b.minLng;
      assert qs[k].0 == w.minLng;
    }
    if w.maxLng == b.maxLng {
      var k :| 0 <= k < |ps| && ps[k].0 == b.maxLng;
      assert qs[k].0 == w.maxLng;
    }
    if w.minLat == b.minLat {
      var k :| 0 <= k < |ps| && ps[k].1 == b.minLat;
      assert qs[k].1 == w.minLat;
    }
    if w.maxLat == b.maxLat {
      var k :| 0 <= k < |ps| && ps[k].1 == b.maxLat;
      assert qs[k].1 == w.maxLat;
    }
  }

  /**
   * The min/max loop over a non-empty list of positions. The source starts
   * from ±Infinity; after the first position that start gives exactly the
   * first position's coordinates, which is where this loop starts.
   */
  method ComputeBounds(ps: seq<Position>) returns (b: Bounds)
    requires |ps| > 0
    ensures IsBoundingBox(b, ps)
  {
    b := PointBox(ps[0]);
    PointBoxIsBoundingBox(ps[0]);
    assert ps[..1] == [ps[0]];
    var i := 1;
    while i < |ps|
      invariant 1 <= i <= |ps|
      invariant IsBoundingBox(b, ps[..i])
    {
      WidenIsBoundingBox(b, ps[..i], ps[i]);
      b := Widen(b, ps[i]);
      assert ps[..i + 1] == ps[..i] + [ps[i]];
      i := i + 1;
    }
    assert ps[..i] == ps;
  }

  /** The exterior-ring positions of one feature; other geometry types contribute none. */
  function FeatureOuter(f: Feature): seq<Position>
    requires Drawable(f)
  {
    OuterPositions(f.geometry.value)
  }

  /** `allOuterCoords` after the `forEach` over the features. */
  function OuterCoords(features: seq<Feature>): (ps: seq<Position>)
    requires forall k :: 0 <= k < |features| ==> Drawable(features[k])
    decreases |features|
  {
    if |features| == 0 then []
    else OuterCoords(features[..|features| - 1]) + FeatureOuter(features[|features| - 1])
  }

  /** The five positions of the outline ring: the four corners, closed. */
  function BoxRing(b: Bounds): (ring: Ring)
    ensures |ring| == 5 && ring[0] == ring[4]
  {
    [(b.minLng, b.minLat), (b.maxLng, b.minLat), (b.maxLng, b.maxLat), (b.minLng, b.maxLat), (b.minLng, b.minLat)]
  }

  /** The `outline` Feature: properties 外边界 / city / 市 and a one-ring Polygon. */
  function OutlineFeature(b: Bounds): (f: Feature)
    ensures Drawable(f) && f.geometry == Some(Polygon([BoxRing(b)]))
  {
    Feature(Props("外边界", "", 0, "", "city", "市", false, 0), Some(Polygon([BoxRing(b)])))
  }

  /** `{ bounds, outline, features }` */
  datatype Outline = Outline(bounds: Bounds, outline: Feature, features: seq<Feature>)

  /** `calculateCityOutline(features)` */
  method CalculateCityOutline(features: seq<Feature>) returns (r: Option<Outline>)
    requires forall k :: 0 <= k < |features| ==> Drawable(features[k])
    ensures r.None? <==> |OuterCoords(features)| == 0
    ensures r.Some? ==>
      IsBoundingBox(r.value.bounds, OuterCoords(features)) &&
      r.value.outline == OutlineFeature(r.value.bounds) &&
      r.value.features == features
  {
    if |features| == 0 {
      return None;
    }
    var all: seq<Position> := [];
    var i := 0;
    while i < |features|
      invariant 0 <= i <= |features|
      invariant all == OuterCoords(features[..i])
    {
      assert features[..i + 1][..i] == features[..i];
      all := all + FeatureOuter(features[i]);
      i := i + 1;
    }
    assert features[..i] == features;
    if |all| == 0 {
      return None;
    }
    var b := ComputeBounds(all);
    return Some(Outline(b, OutlineFeature(b), features));
  }

  /** Every exterior-ring position of every feature is a position of the collected list. */
  lemma {:induction false} OuterCoordsCover(features: seq<Feature>, k: nat, p: Position)
    requires forall m :: 0 <= m < |features| ==> Drawable(features[m])
    requires k < |features| && p in FeatureOuter(features[k])
    ensures p in OuterCoords(features)
    decreases |features|
  {
    if k < |features| - 1 {
      assert features[..|features| - 1][k] == features[k];
      OuterCoordsCover(features[..|features| - 1], k, p);
    }
  }

  /**
   * The box ring used as a polygon contains a point exactly when it lies in
   * the half-open box [minLng, maxLng) × [minLat, maxLat): only the two
   * vertical edges can cross the eastward ray, at maxLng and at minLng.
   */
  lemma BoxContainment(b: Bounds, lng: real, lat: real)
    requires b.minLng <= b.maxLng && b.minLat <= b.maxLat
    ensures RayCasting.IsPointInPolygon(lng, lat, Polygon([BoxRing(b)])) <==>
      (b.minLng <= lng < b.maxLng && b.minLat <= lat < b.maxLat)
  {
    var ring := BoxRing(b);
    var band := b.minLat <= lat < b.maxLat;
    assert !RayCasting.Crosses(ring[0], ring[4], lng, lat);
    assert !RayCasting.Crosses(ring[1], ring[0], lng, lat);
    assert RayCasting.Crosses(ring[2], ring[1], lng, lat) <==> band && lng < b.maxLng by {
      if band {
        assert (b.maxLng - b.maxLng) * (lat - b.maxLat) / (b.minLat - b.maxLat) == 0.0;
      }
    }
    assert !RayCasting.Crosses(ring[3], ring[2], lng, lat);
    assert RayCasting.Crosses(ring[4], ring[3], lng, lat) <==> band && lng < b.minLng;
    var c := RayCasting.CrossingCount(ring, lng, lat, 5);
    assert RayCasting.CrossingCount(ring, lng, lat, 1) == 0;
    assert RayCasting.CrossingCount(ring, lng, lat, 2) == 0;
    assert RayCasting.CrossingCount(ring, lng, lat, 3) == (if band && lng < b.maxLng then 1 else 0);
    assert RayCasting.CrossingCount(ring, lng, lat, 4) == (if band && lng < b.maxLng then 1 else 0);
    assert c == (if band && lng < b.maxLng then 1 else 0) + (if band && lng < b.minLng then 1 else 0);
  }
}
