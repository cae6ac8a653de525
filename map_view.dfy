/**
 * The view state of the canvas map, `currentView = {centerX, centerY, zoom}`,
 * and the canvas it is drawn on. The projection is affine: a geographic
 * point moves `scale = zoom * min(width, height) / 2` pixels per degree away
 * from the canvas centre, with latitude growing upwards. Dragging pans,
 * the wheel zooms by 0.9 or 1.1 within [0.1, 5.0], and `adjustViewToData`
 * centres and zooms the view on the bounding box of the drawn boundaries.
 */
module MapView {
  import opened Wrappers
  import opened GeoJson
  import BoundingBox

  /** `{centerX, centerY, zoom}` */
  datatype View = View(centerX: real, centerY: real, zoom: real)

  /** The canvas size in pixels. */
  datatype Canvas = Canvas(width: real, height: real)

  predicate ValidCanvas(c: Canvas) {
    c.width > 0.0 && c.height > 0.0
  }

  function MinSize(c: Canvas): real {
    if c.width <= c.height then c.width else c.height
  }

  /** `currentView.zoom * Math.min(canvas.width, canvas.height) / 2` */
  function Scale(v: View, c: Canvas): real {
    v.zoom * MinSize(c) / 2.0
  }

  /** `geoToCanvas(lng, lat)` */
  function GeoToCanvas(v: View, c: Canvas, lng: real, lat: real): (real, real) {
    var s := Scale(v, c);
    ((lng - v.centerX) * s + c.width / 2.0, (v.centerY - lat) * s + c.height / 2.0)
  }

  /** `canvasToGeo(x, y)`, defined whenever the scale is not zero. */
  function CanvasToGeo(v: View, c: Canvas, x: real, y: real): (real, real)
    requires Scale(v, c) != 0.0
  {
    var s := Scale(v, c);
    ((x - c.width / 2.0) / s + v.centerX, v.centerY - (y - c.height / 2.0) / s)
  }

  /** A positive zoom on a canvas of positive size gives a positive scale. */
  lemma ScalePositive(v: View, c: Canvas)
    requires ValidCanvas(c) && v.zoom > 0.0
    ensures Scale(v, c) > 0.0
  {
  }

  /** `canvasToGeo` undoes `geoToCanvas`, exactly over the reals. */
  lemma ProjectionRoundTrip(v: View, c: Canvas, lng: real, lat: real)
    requires ValidCanvas(c) && v.zoom > 0.0
    ensures Scale(v, c) != 0.0
    ensures CanvasToGeo(v, c, GeoToCanvas(v, c, lng, lat).0, GeoToCanvas(v, c, lng, lat).1) == (lng, lat)
  {
    ScalePositive(v, c);
    var s := Scale(v, c);
    var p := GeoToCanvas(v, c, lng, lat);
    assert p.0 - c.width / 2.0 == (lng - v.centerX) * s;
    assert (lng - v.centerX) * s / s == lng - v.centerX;
    assert p.1 - c.height / 2.0 == (v.centerY - lat) * s;
    assert (v.centerY - lat) * s / s == v.centerY - lat;
  }

  /** `geoToCanvas` undoes `canvasToGeo`. */
  lemma InverseRoundTrip(v: View, c: Canvas, x: real, y: real)
    requires ValidCanvas(c) && v.zoom > 0.0
    ensures Scale(v, c) != 0.0
    ensures GeoToCanvas(v, c, CanvasToGeo(v, c, x, y).0, CanvasToGeo(v, c, x, y).1) == (x, y)
  {
    ScalePositive(v, c);
    var s := Scale(v, c);
    var g := CanvasToGeo(v, c, x, y);
    var a := (x - c.width / 2.0) / s;
    var b := (y - c.height / 2.0) / s;
    assert g.0 - v.centerX == a;
    assert a * s == x - c.width / 2.0;
    assert v.centerY - g.1 == b;
    assert b * s == y - c.height / 2.0;
    var p := GeoToCanvas(v, c, g.0, g.1);
    assert p.0 == a * s + c.width / 2.0;
    assert p.1 == b * s + c.height / 2.0;
  }

  /** The view centre is drawn at the canvas centre. */
  lemma CenterAtCanvasCenter(v: View, c: Canvas)
    ensures GeoToCanvas(v, c, v.centerX, v.centerY) == (c.width / 2.0, c.height / 2.0)
  {
    var p := GeoToCanvas(v, c, v.centerX, v.centerY);
    assert p.0 == c.width / 2.0;
    assert p.1 == c.height / 2.0;
  }

  /** The drag branch of `onMouseMove`: the centre moves by (-dx, +dy) / (zoom * 1000). */
  function Dragged(v: View, dx: real, dy: real): View
    requires v.zoom != 0.0
  {
    var s := v.zoom * 1000.0;
    View(v.centerX - dx / s, v.centerY + dy / s, v.zoom)
  }

  /** A drag leaves the zoom alone, and the opposite drag restores the centre. */
  lemma DragUndo(v: View, dx: real, dy: real)
    requires v.zoom != 0.0
    ensures Dragged(v, dx, dy).zoom == v.zoom
    ensures Dragged(Dragged(v, dx, dy), -dx, -dy) == v
  {
  }

  /** Two drags in a row are one drag by the summed offsets. */
  lemma DragsCompose(v: View, dx1: real, dy1: real, dx2: real, dy2: real)
    requires v.zoom != 0.0
    ensures Dragged(Dragged(v, dx1, dy1), dx2, dy2) == Dragged(v, dx1 + dx2, dy1 + dy2)
  {
    var s := v.zoom * 1000.0;
    assert dx1 / s + dx2 / s == (dx1 + dx2) / s;
    assert dy1 / s + dy2 / s == (dy1 + dy2) / s;
  }

  /** `Math.max(lo, Math.min(hi, z))` */
  function Clamp(z: real, lo: real, hi: real): (r: real)
    requires lo <= hi
    ensures lo <= r <= hi
    ensures lo <= z <= hi ==> r == z
    ensures z < lo ==> r == lo
    ensures z > hi ==> r == hi
  {
    if z < lo then lo else if z > hi then hi else z
  }

  /** `e.deltaY > 0 ? 0.9 : 1.1` */
  function WheelFactor(deltaY: real): real {
    if deltaY > 0.0 then 0.9 else 1.1
  }

  /** The zoom after one wheel step. */
  function WheelZoom(v: View, deltaY: real): real {
    Clamp(v.zoom * WheelFactor(deltaY), 0.1, 5.0)
  }

  /**
   * `onWheel` as written: the cursor's geographic point is taken with the old
   * view, then the centre is put back with `zoom * 1000` as pixels per degree.
   */
  function Wheeled(v: View, c: Canvas, x: real, y: real, deltaY: real): View
    requires ValidCanvas(c) && v.zoom > 0.0
  {
    ScalePositive(v, c);
    var (lng, lat) := CanvasToGeo(v, c, x, y);
    var z := WheelZoom(v, deltaY);
    View(lng - (x - c.width / 2.0) / (z * 1000.0), lat + (y - c.height / 2.0) / (z * 1000.0), z)
  }

  /**
   * `onWheel` as intended ("zoom around the mouse position"): the centre is put
   * back with the draw scale of the new zoom.
   */
  function AnchoredWheel(v: View, c: Canvas, x: real, y: real, deltaY: real): View
    requires ValidCanvas(c) && v.zoom > 0.0
  {
    ScalePositive(v, c);
    var (lng, lat) := CanvasToGeo(v, c, x, y);
    var z := WheelZoom(v, deltaY);
    var s := z * MinSize(c) / 2.0;
    View(lng - (x - c.width / 2.0) / s, lat + (y - c.height / 2.0) / s, z)
  }

  /** Both versions set the zoom to the clamped product. */
  lemma WheelZooms(v: View, c: Canvas, x: real, y: real, deltaY: real)
    requires ValidCanvas(c) && v.zoom > 0.0
    ensures Wheeled(v, c, x, y, deltaY).zoom == WheelZoom(v, deltaY)
    ensures AnchoredWheel(v, c, x, y, deltaY).zoom == WheelZoom(v, deltaY)
  {
  }

  /**
   * A wheel step multiplies the zoom by 0.9 (scrolling down) or 1.1 and keeps
   * it in [0.1, 5.0]; from within that range, scrolling down never zooms in
   * and scrolling up never zooms out.
   */
  lemma WheelClamps(v: View, deltaY: real)
    requires v.zoom > 0.0
    ensures 0.1 <= WheelZoom(v, deltaY) <= 5.0
    ensures 0.1 <= v.zoom * WheelFactor(deltaY) <= 5.0 ==> WheelZoom(v, deltaY) == v.zoom * WheelFactor(deltaY)
    ensures deltaY > 0.0 && 0.1 <= v.zoom <= 5.0 ==> WheelZoom(v, deltaY) <= v.zoom
    ensures deltaY <= 0.0 && 0.1 <= v.zoom <= 5.0 ==> WheelZoom(v, deltaY) >= v.zoom
  {
    if deltaY > 0.0 {
      assert v.zoom * 0.9 <= v.zoom;
    } else {
      assert v.zoom * 1.1 >= v.zoom;
    }
  }

  /** The corrected step keeps the geographic point under the cursor where it was. */
  lemma AnchoredWheelFixesPoint(v: View, c: Canvas, x: real, y: real, deltaY: real)
    requires ValidCanvas(c) && v.zoom > 0.0
    ensures Scale(AnchoredWheel(v, c, x, y, deltaY), c) > 0.0
    ensures CanvasToGeo(AnchoredWheel(v, c, x, y, deltaY), c, x, y) == CanvasToGeo(v, c, x, y)
  {
    ScalePositive(v, c);
    var w := AnchoredWheel(v, c, x, y, deltaY);
    ScalePositive(w, c);
  }

  /**
   * As written, the point under the cursor stays put when the canvas's half
   * size is 1000 pixels, so that `zoom * 1000` is the draw scale.
   */
  lemma WheelAnchoredAtThousand(v: View, c: Canvas, x: real, y: real, deltaY: real)
    requires ValidCanvas(c) && v.zoom > 0.0 && MinSize(c) == 2000.0
    ensures Scale(Wheeled(v, c, x, y, deltaY), c) > 0.0
    ensures CanvasToGeo(Wheeled(v, c, x, y, deltaY), c, x, y) == CanvasToGeo(v, c, x, y)
  {
    ScalePositive(v, c);
    assert Wheeled(v, c, x, y, deltaY) == AnchoredWheel(v, c, x, y, deltaY);
    AnchoredWheelFixesPoint(v, c, x, y, deltaY);
  }

  /**
   * As written, on an 800 × 800 canvas at the default view, one wheel step
   * down with the cursor on the left edge moves the point under the cursor by
   * 2/3 of a degree of longitude.
   */
  lemma WheelDrifts()
    ensures var v := View(116.5, 33.0, 1.0);
      var c := Canvas(800.0, 800.0);
      Scale(Wheeled(v, c, 0.0, 400.0, 1.0), c) > 0.0 &&
      CanvasToGeo(v, c, 0.0, 400.0) == (115.5, 33.0) &&
      CanvasToGeo(Wheeled(v, c, 0.0, 400.0, 1.0), c, 0.0, 400.0).0 == 115.5 - 2.0 / 3.0
  {
    var v := View(116.5, 33.0, 1.0);
    var c := Canvas(800.0, 800.0);
    var w := Wheeled(v, c, 0.0, 400.0, 1.0);
    assert w.zoom == 0.9;
    assert w.centerX == 115.5 + 400.0 / 900.0;
    assert Scale(w, c) == 360.0;
  }

  /** `(canvasSize * (1 - padding) * 2) / (adjustedRange * canvasMinSize)`; None is +Infinity (range 0). */
  function ZoomFrom(size: real, adjustedRange: real, minSize: real): Option<real> {
    if adjustedRange * minSize == 0.0 then None
    else Some(size * (1.0 - 0.2) * 2.0 / (adjustedRange * minSize))
  }

  /** `Math.min` with None as +Infinity. */
  function MinZoom(a: Option<real>, b: Option<real>): Option<real> {
    match (a, b)
    case (None, _) => b
    case (_, None) => a
    case (Some(x), Some(y)) => Some(if x <= y then x else y)
  }

  /** `Math.min(2.0, Math.max(0.1, z))`, with +Infinity giving 2.0. */
  function FitClamp(z: Option<real>): real {
    match z
    case None => 2.0
    case Some(x) => Clamp(x, 0.1, 2.0)
  }

  /** `range * (1 + padding * 2)` with padding 0.2. */
  function Adjusted(lo: real, hi: real): real {
    (hi - lo) * (1.0 + 0.2 * 2.0)
  }

  /** The zoom before clamping: the smaller of the width and height fits with 20% padding. */
  function FitZoom(c: Canvas, b: BoundingBox.Bounds): Option<real> {
    var m := MinSize(c);
    MinZoom(ZoomFrom(c.width, Adjusted(b.minLng, b.maxLng), m), ZoomFrom(c.height, Adjusted(b.minLat, b.maxLat), m))
  }

  /** The view `adjustViewToData` sets for the bounding box b. */
  function Fitted(c: Canvas, b: BoundingBox.Bounds): View {
    View((b.minLng + b.maxLng) / 2.0, (b.minLat + b.maxLat) / 2.0, FitClamp(FitZoom(c, b)))
  }

  /** Products of non-negative reals are monotone. */
  lemma MulMono(a: real, b: real, c: real, d: real)
    requires 0.0 <= a <= b && 0.0 <= c <= d
    ensures a * c <= b * d
  {
    assert a * c <= b * c;
    assert b * c <= b * d;
  }

  /** An offset from the centre of a canvas side of at most 2/7 of that side. */
  predicate NearCentre(d: real, size: real) {
    -(2.0 * size / 7.0) <= d <= 2.0 * size / 7.0
  }

  /**
   * One axis of the fit: a coordinate t within [lo, hi], drawn at scale
   * s = z * m / 2 around the middle cx of the range, lands within 2/7 of the
   * canvas side from its centre.
   */
  lemma FitAxis(lo: real, hi: real, t: real, cx: real, z: real, s: real, size: real, m: real)
    requires lo <= t <= hi && size > 0.0 && m > 0.0 && z > 0.0
    requires cx == (lo + hi) / 2.0 && s == z * m / 2.0
    requires ZoomFrom(size, Adjusted(lo, hi), m).Some? ==> z <= ZoomFrom(size, Adjusted(lo, hi), m).value
    ensures NearCentre((t - cx) * s, size) && NearCentre((cx - t) * s, size)
  {
    var r := hi - lo;
    var a := t - cx;
    if r == 0.0 {
      assert a == 0.0;
    } else {
      var den := Adjusted(lo, hi) * m;
      assert den == r * 1.4 * m;
      assert den > 0.0;
      var bound := size * (1.0 - 0.2) * 2.0 / den;
      assert z <= bound;
      assert s <= bound * m / 2.0;
      var abs := if a >= 0.0 then a else -a;
      assert abs <= r / 2.0;
      MulMono(abs, r / 2.0, s, bound * m / 2.0);
      assert bound * m == size * 1.6 / (r * 1.4);
      assert r / 2.0 * (bound * m / 2.0) == 2.0 * size / 7.0;
      assert 0.0 <= abs * s <= 2.0 * size / 7.0;
      if a >= 0.0 {
        assert a * s == abs * s;
      } else {
        assert a * s == -(abs * s);
      }
      assert (cx - t) * s == -(a * s);
    }
  }

  /** Unless the unclamped zoom is below 0.1, the clamped zoom is at most each finite per-axis zoom. */
  lemma FitZoomBelow(c: Canvas, b: BoundingBox.Bounds)
    requires FitZoom(c, b).None? || FitZoom(c, b).value >= 0.1
    ensures 0.1 <= FitClamp(FitZoom(c, b)) <= 2.0
    ensures ZoomFrom(c.width, Adjusted(b.minLng, b.maxLng), MinSize(c)).Some? ==>
      FitClamp(FitZoom(c, b)) <= ZoomFrom(c.width, Adjusted(b.minLng, b.maxLng), MinSize(c)).value
    ensures ZoomFrom(c.height, Adjusted(b.minLat, b.maxLat), MinSize(c)).Some? ==>
      FitClamp(FitZoom(c, b)) <= ZoomFrom(c.height, Adjusted(b.minLat, b.maxLat), MinSize(c)).value
  {
  }

  /**
   * Whenever the unclamped fit zoom is at least 0.1, every point of the box
   * is drawn inside the canvas, within the middle 4/7 of each side.
   */
  lemma FitKeepsBoxVisible(c: Canvas, b: BoundingBox.Bounds, lng: real, lat: real)
    requires ValidCanvas(c) && b.minLng <= lng <= b.maxLng && b.minLat <= lat <= b.maxLat
    requires FitZoom(c, b).None? || FitZoom(c, b).value >= 0.1
    ensures 3.0 * c.width / 14.0 <= GeoToCanvas(Fitted(c, b), c, lng, lat).0 <= 11.0 * c.width / 14.0
    ensures 3.0 * c.height / 14.0 <= GeoToCanvas(Fitted(c, b), c, lng, lat).1 <= 11.0 * c.height / 14.0
  {
    FitZoomBelow(c, b);
    FitAtZoom(c, b, lng, lat, Fitted(c, b));
  }

  /** The box drawn from its centre at any zoom no larger than either axis' fit zoom. */
  lemma FitAtZoom(c: Canvas, b: BoundingBox.Bounds, lng: real, lat: real, v: View)
    requires ValidCanvas(c) && b.minLng <= lng <= b.maxLng && b.minLat <= lat <= b.maxLat
    requires v.centerX == (b.minLng + b.maxLng) / 2.0 && v.centerY == (b.minLat + b.maxLat) / 2.0 && v.zoom > 0.0
    requires ZoomFrom(c.width, Adjusted(b.minLng, b.maxLng), MinSize(c)).Some? ==>
      v.zoom <= ZoomFrom(c.width, Adjusted(b.minLng, b.maxLng), MinSize(c)).value
    requires ZoomFrom(c.height, Adjusted(b.minLat, b.maxLat), MinSize(c)).Some? ==>
      v.zoom <= ZoomFrom(c.height, Adjusted(b.minLat, b.maxLat), MinSize(c)).value
    ensures 3.0 * c.width / 14.0 <= GeoToCanvas(v, c, lng, lat).0 <= 11.0 * c.width / 14.0
    ensures 3.0 * c.height / 14.0 <= GeoToCanvas(v, c, lng, lat).1 <= 11.0 * c.height / 14.0
  {
    FitAxis(b.minLng, b.maxLng, lng, v.centerX, v.zoom, Scale(v, c), c.width, MinSize(c));
    FitAxis(b.minLat, b.maxLat, lat, v.centerY, v.zoom, Scale(v, c), c.height, MinSize(c));
    Placed(v, c, lng, lat);
  }

  /** A point whose offsets from the centre are within 2/7 of each side projects into the middle 4/7. */
  lemma Placed(v: View, c: Canvas, lng: real, lat: real)
    requires NearCentre((lng - v.centerX) * Scale(v, c), c.width)
    requires NearCentre((v.centerY - lat) * Scale(v, c), c.height)
    ensures 3.0 * c.width / 14.0 <= GeoToCanvas(v, c, lng, lat).0 <= 11.0 * c.width / 14.0
    ensures 3.0 * c.height / 14.0 <= GeoToCanvas(v, c, lng, lat).1 <= 11.0 * c.height / 14.0
  {
  }

  /** The canvas map's view: the three fields of `currentView` and the canvas size. */
  class MapView {
    var centerX: real
    var centerY: real
    var zoom: real
    const canvas: Canvas

    predicate Valid()
      reads this
    {
      ValidCanvas(canvas) && 0.1 <= zoom <= 5.0
    }

    function Current(): View
      reads this
    {
      View(centerX, centerY, zoom)
    }

    /** The initial view `{centerX: 116.5, centerY: 33.0, zoom: 1.0}`. */
    constructor (c: Canvas)
      requires ValidCanvas(c)
      ensures Valid() && Current() == View(116.5, 33.0, 1.0) && canvas == c
    {
      centerX, centerY, zoom := 116.5, 33.0, 1.0;
      canvas := c;
    }

    /** The drag branch of `onMouseMove` for a pointer move by (dx, dy). */
    method Drag(dx: real, dy: real)
      requires Valid()
      modifies this
      ensures Valid() && Current() == Dragged(old(Current()), dx, dy)
    {
      var scale := zoom * 1000.0;
      centerX := centerX - dx / scale;
      centerY := centerY + dy / scale;
    }

    /**
     * `onWheel` at canvas position (x, y) as written: the cursor's point is
     * taken with the old view and the centre is put back with `zoom * 1000`.
     */
    method Wheel(x: real, y: real, deltaY: real)
      requires Valid()
      modifies this
      ensures Valid() && Current() == Wheeled(old(Current()), canvas, x, y, deltaY)
    {
      var v := Current();
      ScalePositive(v, canvas);
      var geo := CanvasToGeo(v, canvas, x, y);
      var z := zoom * WheelFactor(deltaY);
      z := if z < 0.1 then 0.1 else if z > 5.0 then 5.0 else z;
      assert z == WheelZoom(v, deltaY);
      var scale := z * 1000.0;
      centerX, centerY, zoom := geo.0 - (x - canvas.width / 2.0) / scale, geo.1 + (y - canvas.height / 2.0) / scale, z;
    }

    /**
     * `adjustViewToData` over the features of the drawn boundaries: no change
     * without boundaries or without a coordinate; otherwise the view of
     * `Fitted` for the bounding box of every position of every ring.
     */
    method AdjustViewToData(features: seq<Feature>)
      requires Valid()
      requires forall k :: 0 <= k < |features| ==> features[k].geometry.Some?
      modifies this
      ensures Valid()
      ensures |AllCoords(features)| == 0 ==> Current() == old(Current())
      ensures |AllCoords(features)| > 0 ==> exists b ::
        BoundingBox.IsBoundingBox(b, AllCoords(features)) && Current() == Fitted(canvas, b)
    {
      if |features| == 0 {
        return;
      }
      var acc := CoordsBox(features);
      if acc.None? {
        return;
      }
      var b := acc.value;
      var m := MinSize(canvas);
      var zw := ZoomFrom(canvas.width, Adjusted(b.minLng, b.maxLng), m);
      var zh := ZoomFrom(canvas.height, Adjusted(b.minLat, b.maxLat), m);
      var z := FitClamp(MinZoom(zw, zh));
      assert View((b.minLng + b.maxLng) / 2.0, (b.minLat + b.maxLat) / 2.0, z) == Fitted(canvas, b);
      centerX, centerY, zoom := (b.minLng + b.maxLng) / 2.0, (b.minLat + b.maxLat) / 2.0, z;
    }
  }

  /**
   * The `forEach` over the features in `adjustViewToData`: the running box of
   * every position of every ring, None when there is none.
   */
  method CoordsBox(features: seq<Feature>) returns (acc: Option<BoundingBox.Bounds>)
    requires forall k :: 0 <= k < |features| ==> features[k].geometry.Some?
    ensures acc.None? <==> |AllCoords(features)| == 0
    ensures acc.Some? ==> BoundingBox.IsBoundingBox(acc.value, AllCoords(features))
  {
    acc := None;
    ghost var seen: seq<Position> := [];
    var i := 0;
    while i < |features|
      invariant 0 <= i <= |features|
      invariant seen == AllCoords(features[..i])
      invariant acc.None? <==> |seen| == 0
      invariant acc.Some? ==> BoundingBox.IsBoundingBox(acc.value, seen)
    {
      var ps := AllPositions(features[i].geometry.value);
      acc := WidenBy(acc, seen, ps);
      assert features[..i + 1][..i] == features[..i];
      seen := seen + ps;
      i := i + 1;
    }
    assert features[..i] == features;
  }

  /**
   * The `Math.min`/`Math.max` steps of `processCoords` over the positions ps,
   * from the running box of the positions seen so far (None while there are
   * none: the ±Infinity start).
   */
  method WidenBy(acc: Option<BoundingBox.Bounds>, ghost seen: seq<Position>, ps: seq<Position>)
    returns (r: Option<BoundingBox.Bounds>)
    requires acc.None? <==> |seen| == 0
    requires acc.Some? ==> BoundingBox.IsBoundingBox(acc.value, seen)
    ensures r.None? <==> |seen + ps| == 0
    ensures r.Some? ==> BoundingBox.IsBoundingBox(r.value, seen + ps)
  {
    r := acc;
    var j := 0;
    assert seen + ps[..0] == seen;
    while j < |ps|
      invariant 0 <= j <= |ps|
      invariant r.None? <==> |seen + ps[..j]| == 0
      invariant r.Some? ==> BoundingBox.IsBoundingBox(r.value, seen + ps[..j])
    {
      if r.None? {
        BoundingBox.PointBoxIsBoundingBox(ps[j]);
        assert seen + ps[..j + 1] == [ps[j]];
        r := Some(BoundingBox.PointBox(ps[j]));
      } else {
        BoundingBox.WidenIsBoundingBox(r.value, seen + ps[..j], ps[j]);
        assert seen + ps[..j + 1] == (seen + ps[..j]) + [ps[j]];
        r := Some(BoundingBox.Widen(r.value, ps[j]));
      }
      j := j + 1;
    }
    assert ps[..j] == ps;
  }

  /** Every position of every ring of every feature, in order (`processCoords`). */
  function AllCoords(features: seq<Feature>): seq<Position>
    requires forall k :: 0 <= k < |features| ==> features[k].geometry.Some?
    decreases |features|
  {
    if |features| == 0 then []
    else AllCoords(features[..|features| - 1]) + AllPositions(features[|features| - 1].geometry.value)
  }
}
