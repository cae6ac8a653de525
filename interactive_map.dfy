/**
 * The Leaflet variant of the map page. After the six city files are fetched
 * it keeps their features combined as the 皖北 boundary and, per city, the
 * features and the bounding box of every coordinate pair in them; the node
 * list of the knowledge graph is narrowed by three filters: the dataset (a
 * substring of data_source), the type (a label containing 事件, 人物 or 地点)
 * and the city (truthy coordinates inside the city's box, edges included).
 */
module InteractiveMap {
  import opened Wrappers
  import Text
  import Seqs
  import opened GeoJson
  import opened BoundingBox
  import Graph

  type Node = Graph.Node

  // ----- Bounds of a parsed file -----

  /**
   * The argument of `getFeatureBounds` and the content of a city file: a
   * FeatureCollection (its `features` None when absent, a member None when it
   * is null) or a single Feature.
   */
  datatype Geo =
    | Collection(features: Option<seq<Option<Feature>>>)
    | Single(feature: Feature)

  /** `geo.type === 'FeatureCollection' ? geo.features : [geo]`, then `|| []`. */
  function FeaturesOf(geo: Geo): (fs: seq<Option<Feature>>)
    ensures geo.Single? ==> fs == [Some(geo.feature)]
    ensures geo.Collection? && geo.features.None? ==> fs == []
  {
    match geo
    case Collection(features) => if features.Some? then features.value else []
    case Single(f) => [Some(f)]
  }

  /** What `collect` pushes for one feature: nothing when it or its geometry is missing. */
  function FeatureCoords(f: Option<Feature>): seq<Position> {
    if f.Some? && f.value.geometry.Some? then AllPositions(f.value.geometry.value) else []
  }

  /** The `coords` array after the `forEach` over the features, in document order. */
  function Coords(fs: seq<Option<Feature>>): seq<Position>
    decreases |fs|
  {
    if |fs| == 0 then [] else Coords(fs[..|fs| - 1]) + FeatureCoords(fs[|fs| - 1])
  }

  function GeoCoords(geo: Geo): seq<Position> {
    Coords(FeaturesOf(geo))
  }

  /** `getFeatureBounds`' result: null exactly when there is no coordinate pair, else the tightest box. */
  predicate BoundsOf(b: Option<Bounds>, ps: seq<Position>) {
    (b.None? <==> |ps| == 0) && (b.Some? ==> IsBoundingBox(b.value, ps))
  }

  /** The coordinates of consecutive parts of the feature list are concatenated. */
  lemma {:induction false} CoordsAppend(a: seq<Option<Feature>>, b: seq<Option<Feature>>)
    ensures Coords(a + b) == Coords(a) + Coords(b)
    decreases |b|
  {
    if |b| == 0 {
      assert a + b == a;
    } else {
      var b', f := b[..|b| - 1], b[|b| - 1];
      assert (a + b)[..|a + b| - 1] == a + b';
      CoordsAppend(a, b');
      calc {
        Coords(a + b);
        Coords(a + b') + FeatureCoords(f);
        (Coords(a) + Coords(b')) + FeatureCoords(f);
        Coords(a) + (Coords(b') + FeatureCoords(f));
      }
    }
  }

  /** Every collected pair comes from one feature's geometry, and every pair of every geometry is collected. */
  lemma {:induction false} CoordsMembership(fs: seq<Option<Feature>>, p: Position)
    ensures p in Coords(fs) <==> exists k :: 0 <= k < |fs| && p in FeatureCoords(fs[k])
    decreases |fs|
  {
    if |fs| > 0 {
      var fs' := fs[..|fs| - 1];
      CoordsMembership(fs', p);
      if p in FeatureCoords(fs[|fs| - 1]) {
        assert exists k :: 0 <= k < |fs| && p in FeatureCoords(fs[k]) by {
          assert p in FeatureCoords(fs[|fs| - 1]);
        }
      }
      if exists k :: 0 <= k < |fs| && p in FeatureCoords(fs[k]) {
        var k :| 0 <= k < |fs| && p in FeatureCoords(fs[k]);
        if k < |fs| - 1 {
          assert fs'[k] == fs[k];
        }
      }
    }
  }

  /** A null feature or one without geometry can be dropped without changing the coordinates. */
  lemma SkipsMissingGeometry(pre: seq<Option<Feature>>, f: Option<Feature>, rest: seq<Option<Feature>>)
    requires f.None? || f.value.geometry.None?
    ensures Coords(pre + [f] + rest) == Coords(pre + rest)
  {
    assert (pre + [f])[..|pre|] == pre;
    CoordsAppend(pre + [f], rest);
    CoordsAppend(pre, rest);
  }

  /**
   * A plain Feature is treated as the collection holding just that feature:
   * its bounds are those of its own geometry's pairs, and null when it has
   * no geometry.
   */
  lemma SingleAsCollection(f: Feature)
    ensures GeoCoords(Single(f)) == GeoCoords(Collection(Some([Some(f)])))
    ensures f.geometry.Some? ==> GeoCoords(Single(f)) == AllPositions(f.geometry.value)
    ensures f.geometry.None? ==> GeoCoords(Single(f)) == []
  {
    assert [Some(f)][..0] == [];
    assert Coords([Some(f)]) == Coords([]) + FeatureCoords(Some(f));
  }

  /**
   * `getFeatureBounds(geo)`: `collect` pushes every pair of the features'
   * geometries into `coords`, then the minima and maxima are taken.
   */
  method GetFeatureBounds(geo: Geo) returns (b: Option<Bounds>)
    ensures BoundsOf(b, GeoCoords(geo))
  {
    var fs := FeaturesOf(geo);
    var coords: seq<Position> := [];
    var i := 0;
    while i < |fs|
      invariant 0 <= i <= |fs|
      invariant coords == Coords(fs[..i])
    {
      if fs[i].Some? && fs[i].value.geometry.Some? {
        coords := coords + AllPositions(fs[i].value.geometry.value);
      }
      assert fs[..i + 1][..i] == fs[..i];
      i := i + 1;
    }
    assert fs[..i] == fs;
    if |coords| == 0 {
      return None;
    }
    var box := ComputeBounds(coords);
    b := Some(box);
  }

  // ----- Loading the six city files -----

  /** `{ key, file }` */
  datatype CityFile = CityFile(key: string, file: string)

  /** `cityFiles`, in fetch order. */
  const CITY_FILES: seq<CityFile> := [
    CityFile("亳州", "boundaries/亳州市.json"),
    CityFile("淮北", "boundaries/淮北市.json"),
    CityFile("阜阳", "boundaries/阜阳市.json"),
    CityFile("淮南", "boundaries/淮南市.json"),
    CityFile("宿州", "boundaries/宿州市.json"),
    CityFile("蚌埠", "boundaries/蚌埠市.json")
  ]

  lemma CityFileKeysDistinct()
    ensures forall i, j :: 0 <= i < j < |CITY_FILES| ==> CITY_FILES[i].key != CITY_FILES[j].key
  {
  }

  /** `citiesBoundaries[key]`: the file's features and their bounds. */
  datatype CityBoundary = CityBoundary(features: seq<Option<Feature>>, bounds: Option<Bounds>)

  /** `gj.features || []`: a single Feature contributes no member. */
  function MemberFeatures(gj: Geo): (fs: seq<Option<Feature>>)
    ensures gj.Collection? ==> fs == FeaturesOf(gj)
    ensures gj.Single? ==> fs == []
  {
    if gj.Collection? && gj.features.Some? then gj.features.value else []
  }

  /** The member lists of the files, in file order. */
  function MemberLists(gs: seq<Geo>): (ls: seq<seq<Option<Feature>>>)
    ensures |ls| == |gs|
    ensures forall k :: 0 <= k < |gs| ==> ls[k] == MemberFeatures(gs[k])
  {
    seq(|gs|, k requires 0 <= k < |gs| => MemberFeatures(gs[k]))
  }

  /** `results.flatMap(r => r.gj.features || [])` */
  function CombinedFeatures(gs: seq<Geo>): seq<Option<Feature>> {
    Seqs.Flatten(MemberLists(gs))
  }

  /** The fallback boundary: one polygon around the region, named 皖北地区. */
  const DEFAULT_RING: Ring := [
    (115.0, 32.0), (117.5, 32.0), (118.0, 33.5), (116.5, 34.5),
    (115.0, 34.0), (114.5, 33.0), (115.0, 32.0)
  ]

  const DEFAULT_BOUNDARY: Geo :=
    Single(Feature(Props("皖北地区", "", 0, "", "", "", false, 0), Some(Polygon([DEFAULT_RING]))))

  /** The fallback's bounds are the extremes of its ring. */
  lemma DefaultBounds()
    ensures BoundsOf(Some(Bounds(114.5, 118.0, 32.0, 34.5)), GeoCoords(DEFAULT_BOUNDARY))
  {
    SingleAsCollection(DEFAULT_BOUNDARY.feature);
    assert Seqs.Flatten([DEFAULT_RING]) == DEFAULT_RING by {
      assert [DEFAULT_RING][..0] == [];
    }
    assert GeoCoords(DEFAULT_BOUNDARY) == DEFAULT_RING;
    DefaultRingBounds();
  }

  /** The extremes of the fallback ring. */
  lemma DefaultRingBounds()
    ensures BoundsOf(Some(Bounds(114.5, 118.0, 32.0, 34.5)), DEFAULT_RING)
  {
    var ps := DEFAULT_RING;
    assert ps[5].0 == 114.5 && ps[2].0 == 118.0 && ps[0].1 == 32.0 && ps[3].1 == 34.5;
  }

  /** Every file was fetched and parsed. */
  predicate AllFetched(fetched: seq<Option<Geo>>) {
    forall k :: 0 <= k < |fetched| ==> fetched[k].Some?
  }

  function Parsed(fetched: seq<Option<Geo>>): (gs: seq<Geo>)
    requires AllFetched(fetched)
    ensures |gs| == |fetched|
    ensures forall k :: 0 <= k < |gs| ==> gs[k] == fetched[k].value
  {
    seq(|fetched|, k requires 0 <= k < |fetched| => fetched[k].value)
  }

  /** The entry of city i holds the file's members and the bounds of its coordinates. */
  predicate CityLoaded(cities: map<string, CityBoundary>, i: nat, gj: Geo)
    requires i < |CITY_FILES|
  {
    CITY_FILES[i].key in cities &&
    cities[CITY_FILES[i].key].features == MemberFeatures(gj) &&
    BoundsOf(cities[CITY_FILES[i].key].bounds, GeoCoords(gj))
  }

  /** A feature of one city file is a feature of the combined boundary. */
  lemma CityFeatureCombined(gs: seq<Geo>, i: nat, f: Option<Feature>)
    requires i < |gs| && f in MemberFeatures(gs[i])
    ensures f in CombinedFeatures(gs)
  {
    Seqs.FlattenMembership(MemberLists(gs), f);
  }

  /** Every feature of the combined boundary comes from one of the city files. */
  lemma CombinedFeatureFromCity(gs: seq<Geo>, f: Option<Feature>)
    requires f in CombinedFeatures(gs)
    ensures exists i :: 0 <= i < |gs| && f in MemberFeatures(gs[i])
  {
    Seqs.FlattenMembership(MemberLists(gs), f);
  }

  // ----- Filters of `applyFilters` -----

  /** `node.properties.data_source && node.properties.data_source.includes(dataset)` */
  predicate DatasetMatch(dataset: string, n: Node) {
    n.properties.dataSource != "" && Text.Contains(n.properties.dataSource, dataset)
  }

  /** The type filter: 'event', 'person' and 'location' test a label; any other value keeps the node. */
  predicate TypeMatch(eventType: string, n: Node) {
    if eventType == "event" then Graph.LabelContains(n, Graph.EVENT_LABEL)
    else if eventType == "person" then Graph.LabelContains(n, Graph.PERSON_LABEL)
    else if eventType == "location" then Graph.LabelContains(n, Graph.LOCATION_LABEL)
    else true
  }

  /** `a || b` on coordinates: 0 is falsy. */
  function Either(a: real, b: real): real {
    if a != 0.0 then a else b
  }

  function NodeLat(n: Node): real { Either(n.properties.lat, n.properties.latZh) }
  function NodeLng(n: Node): real { Either(n.properties.lng, n.properties.lngZh) }

  /** Truthy coordinates inside the box, edges included. */
  predicate InBounds(b: Bounds, n: Node) {
    NodeLat(n) != 0.0 && NodeLng(n) != 0.0 &&
    b.minLat <= NodeLat(n) <= b.maxLat && b.minLng <= NodeLng(n) <= b.maxLng
  }

  function DatasetPred(dataset: string): Node -> bool { n => DatasetMatch(dataset, n) }
  function TypePred(eventType: string): Node -> bool { n => TypeMatch(eventType, n) }
  function CityPred(b: Bounds): Node -> bool { n => InBounds(b, n) }

  /** The box the city filter uses: none for 'all', an unknown city or a city without bounds. */
  function CityBox(city: string, cities: map<string, CityBoundary>): Option<Bounds> {
    if city != "all" && city in cities then cities[city].bounds else None
  }

  /** The three `filter` calls in order, each skipped by 'all' (the city one also without a box). */
  function FilterNodes(nodes: seq<Node>, eventType: string, dataset: string, city: string,
                       cities: map<string, CityBoundary>): seq<Node>
  {
    var byDataset := if dataset != "all" then Seqs.Filter(nodes, DatasetPred(dataset)) else nodes;
    var byType := if eventType != "all" then Seqs.Filter(byDataset, TypePred(eventType)) else byDataset;
    var box := CityBox(city, cities);
    if box.Some? then Seqs.Filter(byType, CityPred(box.value)) else byType
  }

  /** A node is shown iff it passes each filter that is not switched off. */
  predicate Keep(eventType: string, dataset: string, box: Option<Bounds>, n: Node) {
    (dataset == "all" || DatasetMatch(dataset, n)) &&
    (eventType == "all" || TypeMatch(eventType, n)) &&
    (box.None? || InBounds(box.value, n))
  }

  function KeepPred(eventType: string, dataset: string, box: Option<Bounds>): Node -> bool {
    n => Keep(eventType, dataset, box, n)
  }

  /**
   * The chain of filters is one order-preserving filter by the conjunction
   * of the active tests: the shown nodes are a subsequence of the input, and
   * a node is shown iff it passes every active test.
   */
  lemma FilterNodesSpec(nodes: seq<Node>, eventType: string, dataset: string, city: string,
                        cities: map<string, CityBoundary>)
    ensures FilterNodes(nodes, eventType, dataset, city, cities) ==
      Seqs.Filter(nodes, KeepPred(eventType, dataset, CityBox(city, cities)))
  {
    var box := CityBox(city, cities);
    var p1: Node -> bool := n => dataset == "all" || DatasetMatch(dataset, n);
    var p2: Node -> bool := n => (dataset == "all" || DatasetMatch(dataset, n)) &&
      (eventType == "all" || TypeMatch(eventType, n));
    var byDataset := if dataset != "all" then Seqs.Filter(nodes, DatasetPred(dataset)) else nodes;
    if dataset != "all" {
      Seqs.FilterSame(nodes, DatasetPred(dataset), p1);
    } else {
      Seqs.FilterAll(nodes, p1);
    }
    assert byDataset == Seqs.Filter(nodes, p1);
    var byType := if eventType != "all" then Seqs.Filter(byDataset, TypePred(eventType)) else byDataset;
    if eventType != "all" {
      Seqs.FilterFilter(nodes, p1, TypePred(eventType), p2);
    } else {
      Seqs.FilterSame(nodes, p1, p2);
    }
    assert byType == Seqs.Filter(nodes, p2);
    if box.Some? {
      Seqs.FilterFilter(nodes, p2, CityPred(box.value), KeepPred(eventType, dataset, box));
    } else {
      Seqs.FilterSame(nodes, p2, KeepPred(eventType, dataset, box));
    }
  }

  /** Membership in the shown list, both directions. */
  lemma FilterNodesMembership(nodes: seq<Node>, eventType: string, dataset: string, city: string,
                              cities: map<string, CityBoundary>, n: Node)
    ensures n in FilterNodes(nodes, eventType, dataset, city, cities) <==>
      n in nodes && Keep(eventType, dataset, CityBox(city, cities), n)
    ensures |FilterNodes(nodes, eventType, dataset, city, cities)| <= |nodes|
  {
    FilterNodesSpec(nodes, eventType, dataset, city, cities);
    var shown := FilterNodes(nodes, eventType, dataset, city, cities);
    var p := KeepPred(eventType, dataset, CityBox(city, cities));
    if n in shown {
      var k :| 0 <= k < |shown| && shown[k] == n;
      assert shown[k] in nodes && p(shown[k]);
    }
    if n in nodes && Keep(eventType, dataset, CityBox(city, cities), n) {
      var k :| 0 <= k < |nodes| && nodes[k] == n;
      assert p(nodes[k]);
    }
  }

  /** With every filter at 'all' the whole node list is shown. */
  lemma AllShowsEverything(nodes: seq<Node>, cities: map<string, CityBoundary>)
    ensures FilterNodes(nodes, "all", "all", "all", cities) == nodes
  {
  }

  /** A type value other than the three known ones keeps every node the dataset filter let through. */
  lemma UnknownTypeKeepsAll(nodes: seq<Node>, eventType: string)
    requires eventType != "event" && eventType != "person" && eventType != "location"
    ensures Seqs.Filter(nodes, TypePred(eventType)) == nodes
  {
    Seqs.FilterAll(nodes, TypePred(eventType));
  }

  /** A city filter without a box (unknown city or a file without coordinates) keeps every node. */
  lemma CityWithoutBoundsSkipped(nodes: seq<Node>, eventType: string, dataset: string, city: string,
                                 cities: map<string, CityBoundary>)
    requires city in cities && cities[city].bounds.None?
    ensures FilterNodes(nodes, eventType, dataset, city, cities) == FilterNodes(nodes, eventType, dataset, "all", cities)
  {
  }

  /** Whether every fetch of `Promise.all` succeeded. */
  method Fetched(fetched: seq<Option<Geo>>) returns (ok: bool)
    ensures ok <==> AllFetched(fetched)
  {
    ok := true;
    var i := 0;
    while i < |fetched|
      invariant 0 <= i <= |fetched|
      invariant ok <==> forall k :: 0 <= k < i ==> fetched[k].Some?
    {
      ok := ok && fetched[i].Some?;
      i := i + 1;
    }
  }

  /** The `flatMap` over the parsed files. */
  method Combine(gs: seq<Geo>) returns (features: seq<Option<Feature>>)
    ensures features == CombinedFeatures(gs)
  {
    var ls := MemberLists(gs);
    features := [];
    var i := 0;
    while i < |gs|
      invariant 0 <= i <= |gs|
      invariant features == Seqs.Flatten(ls[..i])
    {
      features := features + MemberFeatures(gs[i]);
      assert ls[..i + 1][..i] == ls[..i];
      i := i + 1;
    }
    assert ls[..i] == ls;
  }

  /** Storing the entry of a later city leaves the entry of an earlier one in place. */
  lemma CityLoadedKept(cities: map<string, CityBoundary>, k: nat, gj: Geo, i: nat, entry: CityBoundary)
    requires k < i < |CITY_FILES| && CityLoaded(cities, k, gj)
    ensures CityLoaded(cities[CITY_FILES[i].key := entry], k, gj)
  {
    CityFileKeysDistinct();
  }

  /** The `forEach` that fills `citiesBoundaries` from {}, one entry per city file. */
  method BuildCities(gs: seq<Geo>) returns (cities: map<string, CityBoundary>)
    requires |gs| == |CITY_FILES|
    ensures cities.Keys == set c | c in CITY_FILES :: c.key
    ensures forall i :: 0 <= i < |CITY_FILES| ==> CityLoaded(cities, i, gs[i])
  {
    CityFileKeysDistinct();
    cities := map[];
    var i := 0;
    while i < |gs|
      invariant 0 <= i <= |gs|
      invariant cities.Keys == set k | 0 <= k < i :: CITY_FILES[k].key
      invariant forall k :: 0 <= k < i ==> CityLoaded(cities, k, gs[k])
    {
      var b := GetFeatureBounds(gs[i]);
      var entry := CityBoundary(MemberFeatures(gs[i]), b);
      ghost var before := cities;
      cities := cities[CITY_FILES[i].key := entry];
      assert CityLoaded(cities, i, gs[i]);
      forall k | 0 <= k < i ensures CityLoaded(cities, k, gs[k]) {
        CityLoadedKept(before, k, gs[k], i, entry);
      }
      i := i + 1;
    }
    CityFileKeySet();
  }

  /** The keys of the city files, by position and by member. */
  lemma CityFileKeySet()
    ensures (set k | 0 <= k < |CITY_FILES| :: CITY_FILES[k].key) == set c | c in CITY_FILES :: c.key
  {
    forall c | c in CITY_FILES ensures c.key in set k | 0 <= k < |CITY_FILES| :: CITY_FILES[k].key {
      var k :| 0 <= k < |CITY_FILES| && CITY_FILES[k] == c;
    }
  }

  // ----- The page -----

  class InteractiveMap {
    /** `wanbeiBoundary`; None for the initial null. */
    var wanbeiBoundary: Option<Geo>
    var citiesBoundaries: map<string, CityBoundary>
    /** `currentData.combined.nodes`; None while no data is loaded (`!currentData`). */
    var currentNodes: Option<seq<Node>>

    constructor ()
      ensures wanbeiBoundary == None && citiesBoundaries == map[] && currentNodes == None
    {
      wanbeiBoundary, citiesBoundaries, currentNodes := None, map[], None;
    }

    /**
     * `loadBoundaries()` after the fetches: `fetched[i]` is the parsed file of
     * `CITY_FILES[i]`, None when its fetch or parse failed. One failure sends
     * the whole load to the fallback; otherwise the boundary is the
     * concatenation of the files' features in file order and every city has
     * its file's features and their bounds.
     */
    method LoadBoundaries(fetched: seq<Option<Geo>>)
      requires |fetched| == |CITY_FILES|
      modifies this`wanbeiBoundary, this`citiesBoundaries
      ensures !AllFetched(fetched) ==> wanbeiBoundary == Some(DEFAULT_BOUNDARY) && citiesBoundaries == map[]
      ensures AllFetched(fetched) ==> wanbeiBoundary == Some(Collection(Some(CombinedFeatures(Parsed(fetched)))))
      ensures AllFetched(fetched) ==> citiesBoundaries.Keys == set c | c in CITY_FILES :: c.key
      ensures AllFetched(fetched) ==> forall i :: 0 <= i < |CITY_FILES| ==>
        CityLoaded(citiesBoundaries, i, fetched[i].value)
    {
      var ok := Fetched(fetched);
      if !ok {
        wanbeiBoundary := Some(DEFAULT_BOUNDARY);
        citiesBoundaries := map[];
        return;
      }
      var gs := Parsed(fetched);
      var features := Combine(gs);
      var cities := BuildCities(gs);
      wanbeiBoundary := Some(Collection(Some(features)));
      citiesBoundaries := cities;
    }

    /** `loadAndDisplayData()` on a file with a `combined` part: its nodes become the current data. */
    method LoadData(nodes: seq<Node>)
      modifies this`currentNodes
      ensures currentNodes == Some(nodes)
    {
      currentNodes := Some(nodes);
    }

    /**
     * `applyFilters()` with the three select values: nothing while no data is
     * loaded, otherwise the nodes that pass every active filter, in order.
     */
    method ApplyFilters(eventType: string, dataset: string, city: string) returns (shown: Option<seq<Node>>)
      ensures shown.None? <==> currentNodes.None?
      ensures shown.Some? ==>
        shown.value == Seqs.Filter(currentNodes.value, KeepPred(eventType, dataset, CityBox(city, citiesBoundaries)))
    {
      if currentNodes.None? {
        return None;
      }
      shown := Some(FilterNodes(currentNodes.value, eventType, dataset, city, citiesBoundaries));
      FilterNodesSpec(currentNodes.value, eventType, dataset, city, citiesBoundaries);
    }
  }
}
