/**
 * The page state of the canvas map: all events and the filtered ones, the
 * per-region statistics, the selected city ("" while the six-city overview is
 * shown: the source tests `!currentCity`), the per-city outlines built from
 * the merged boundary file, the boundaries being drawn, and the view. The
 * statistics are rebuilt from nothing on every recount:
 *   - in the overview, one entry per city of `WANBEI_CITIES`, matched by the
 *     city's bounding-box outline or, failing that, by name in the region text;
 *   - in the detail view of a city, one entry per normalised name of the city's
 *     features, matched by each feature's own geometry or, failing that and
 *     only for a non-empty region text, by name.
 */
module CanvasMap {
  import opened Wrappers
  import opened GeoJson
  import Text
  import Seqs
  import RayCasting
  import BoundingBox
  import RegionStats
  import AdminCodes
  import MapView

  type Event = RegionStats.Event
  type Stats = RegionStats.Stats
  type Target = RegionStats.Target

  /** `{ key, name, fullName }` of `WANBEI_CITIES`. */
  datatype City = City(key: string, name: string, fullName: string)

  /** The six cities of northern Anhui, in display order. */
  const WANBEI_CITIES: seq<City> := [
    City("阜阳", "阜阳市", "阜阳市"),
    City("亳州", "亳州市", "亳州市"),
    City("淮北", "淮北市", "淮北市"),
    City("宿州", "宿州市", "宿州市"),
    City("蚌埠", "蚌埠市", "蚌埠市"),
    City("淮南", "淮南市", "淮南市")
  ]

  /** `cityNameMap` of `loadBoundaries`: full city name to city key. */
  const CITY_NAME_MAP: map<string, string> := map[
    "亳州市" := "亳州", "淮北市" := "淮北", "阜阳市" := "阜阳",
    "淮南市" := "淮南", "宿州市" := "宿州", "蚌埠市" := "蚌埠"]

  /** The keys of `cityFiles` in `loadCityBoundaries`, each with a `boundaries/<key>市.json` file. */
  const CITY_FILE_KEYS: seq<string> := ["亳州", "淮北", "阜阳", "淮南", "宿州", "蚌埠"]

  /** `WANBEI_CITIES.find(c => c.key === key)` */
  function FindCity(key: string): (r: Option<City>)
    ensures r.Some? ==> r.value in WANBEI_CITIES && r.value.key == key
    ensures r.None? ==> forall i :: 0 <= i < |WANBEI_CITIES| ==> WANBEI_CITIES[i].key != key
  {
    FindCityFrom(key, 0)
  }

  function FindCityFrom(key: string, from: nat): (r: Option<City>)
    requires from <= |WANBEI_CITIES|
    ensures r.Some? ==> r.value in WANBEI_CITIES && r.value.key == key
    ensures r.None? ==> forall i :: from <= i < |WANBEI_CITIES| ==> WANBEI_CITIES[i].key != key
    ensures forall i :: from <= i < |WANBEI_CITIES| && WANBEI_CITIES[i].key == key ==>
      r.Some? && (r.value == WANBEI_CITIES[i] || exists j :: from <= j < i && WANBEI_CITIES[j] == r.value)
    decreases |WANBEI_CITIES| - from
  {
    if from == |WANBEI_CITIES| then None
    else if WANBEI_CITIES[from].key == key then Some(WANBEI_CITIES[from])
    else FindCityFrom(key, from + 1)
  }

  /** The six keys are pairwise different. */
  lemma CityKeysDistinct()
    ensures forall i, j :: 0 <= i < j < |WANBEI_CITIES| ==> WANBEI_CITIES[i].key != WANBEI_CITIES[j].key
  {
  }

  /** Looking up a city by its own key finds that city. */
  lemma FindCityByKey(i: nat)
    requires i < |WANBEI_CITIES|
    ensures FindCity(WANBEI_CITIES[i].key) == Some(WANBEI_CITIES[i])
  {
    CityKeysDistinct();
  }

  /**
   * `cityOutlines[cityKey]`: the outline computed from the city's features
   * (None when there was none: the source then stores no bounds, outline or
   * features), the city feature and the county features.
   */
  datatype CityEntry = CityEntry(
    outline: Option<BoundingBox.Outline>,
    cityFeature: Option<Feature>,
    countyFeatures: seq<Feature>)

  /** `{ city, feature, isOutline }` in `boundaries`. */
  datatype Boundary = Boundary(city: string, feature: Feature, isOutline: bool)

  /** `boundaries.map(b => b.feature)` */
  function BoundaryFeatures(bs: seq<Boundary>): (fs: seq<Feature>)
    ensures |fs| == |bs| && forall k :: 0 <= k < |bs| ==> fs[k] == bs[k].feature
  {
    seq(|bs|, k requires 0 <= k < |bs| => bs[k].feature)
  }

  // ----- Statistics -----

  /** The region a city's events are counted in: its outline's geometry and its two names. */
  function OverviewTarget(c: City, outlines: map<string, CityEntry>): Target {
    var area := if c.key in outlines && outlines[c.key].outline.Some?
      then outlines[c.key].outline.value.outline.geometry else None;
    RegionStats.Target(c.key, c.name, c.fullName, area, c.key, c.fullName, false)
  }

  function OverviewTargets(outlines: map<string, CityEntry>): (ts: seq<Target>)
    ensures |ts| == |WANBEI_CITIES|
    ensures forall i :: 0 <= i < |ts| ==> ts[i] == OverviewTarget(WANBEI_CITIES[i], outlines)
  {
    seq(|WANBEI_CITIES|, i requires 0 <= i < |WANBEI_CITIES| => OverviewTarget(WANBEI_CITIES[i], outlines))
  }

  /** `props.name || props.名称 || '未知区域'` */
  function RegionName(p: Props): string {
    if p.name != "" then p.name else if p.altName != "" then p.altName else "未知区域"
  }

  /** `regionName.replace('市', '').replace('县', '').replace('区', '')` */
  function RegionKey(name: string): string {
    Text.RemoveFirst(Text.RemoveFirst(Text.RemoveFirst(name, '市'), '县'), '区')
  }

  /** A sub-region of the detail view: the feature's own geometry, its name and normalised key. */
  function DetailTarget(f: Feature): Target {
    var name := RegionName(f.properties);
    RegionStats.Target(RegionKey(name), name, name, f.geometry, name, RegionKey(name), true)
  }

  function DetailTargets(fs: seq<Feature>): (ts: seq<Target>)
    ensures |ts| == |fs| && forall i :: 0 <= i < |fs| ==> ts[i] == DetailTarget(fs[i])
  {
    seq(|fs|, i requires 0 <= i < |fs| => DetailTarget(fs[i]))
  }

  /**
   * `regionStats` after `calculateRegionStats`: the overview tally when no
   * city is selected; the tally of the selected city's features when it has
   * an outline entry; otherwise nothing.
   */
  function StatsFor(currentCity: string, outlines: map<string, CityEntry>, events: seq<Event>): map<string, Stats> {
    if currentCity == "" then RegionStats.Aggregate(events, OverviewTargets(outlines))
    else if currentCity in outlines && outlines[currentCity].outline.Some? then
      RegionStats.Aggregate(events, DetailTargets(outlines[currentCity].outline.value.features))
    else map[]
  }

  function MatchPred(t: Target): Event -> bool {
    e => RegionStats.Matches(e, t)
  }

  /** The overview has exactly the six city keys. */
  lemma OverviewKeys(outlines: map<string, CityEntry>, events: seq<Event>)
    ensures StatsFor("", outlines, events).Keys == set c | c in WANBEI_CITIES :: c.key
  {
    var ts := OverviewTargets(outlines);
    RegionStats.AggregateShape(events, ts);
    var ks := set c | c in WANBEI_CITIES :: c.key;
    forall k | k in ks ensures k in RegionStats.KeySet(ts) {
      var c :| c in WANBEI_CITIES && c.key == k;
      var j :| 0 <= j < |WANBEI_CITIES| && WANBEI_CITIES[j] == c;
      assert ts[j].key == k;
    }
  }

  /**
   * Each city's entry in the overview holds the events that match it, in
   * event order, its count is their number, and its names are the city's.
   */
  lemma OverviewStats(outlines: map<string, CityEntry>, events: seq<Event>, i: nat)
    requires i < |WANBEI_CITIES|
    ensures WANBEI_CITIES[i].key in StatsFor("", outlines, events)
    ensures StatsFor("", outlines, events)[WANBEI_CITIES[i].key] ==
      var hit := Seqs.Filter(events, MatchPred(OverviewTarget(WANBEI_CITIES[i], outlines)));
      RegionStats.Stats(|hit|, hit, WANBEI_CITIES[i].name, WANBEI_CITIES[i].fullName)
  {
    var ts := OverviewTargets(outlines);
    CityKeysDistinct();
    RegionStats.AggregateDistinct(events, ts, i);
    assert MatchPred(ts[i]) == (e => RegionStats.Matches(e, ts[i]));
  }

  /**
   * The entries of the cities whose outline has been computed: a box ring
   * around drawable features.
   */
  predicate OutlinesOk(outlines: map<string, CityEntry>) {
    forall key :: key in outlines ==> EntryOk(outlines[key])
  }

  predicate EntryOk(e: CityEntry) {
    (e.outline.Some? ==>
      var b := e.outline.value.bounds;
      b.minLng <= b.maxLng && b.minLat <= b.maxLat &&
      e.outline.value.outline == BoundingBox.OutlineFeature(b) &&
      forall k :: 0 <= k < |e.outline.value.features| ==> Drawable(e.outline.value.features[k])) &&
    (e.cityFeature.Some? ==> Drawable(e.cityFeature.value)) &&
    forall k :: 0 <= k < |e.countyFeatures| ==> e.countyFeatures[k].geometry.Some?
  }

  /**
   * In the overview, an event with coordinates lies in a city with an outline
   * exactly when the point is in the half-open box [minLng, maxLng) ×
   * [minLat, maxLat) of the city's features.
   */
  lemma OverviewInsideBox(outlines: map<string, CityEntry>, c: City, e: Event)
    requires OutlinesOk(outlines) && c.key in outlines && outlines[c.key].outline.Some?
    ensures var b := outlines[c.key].outline.value.bounds;
      RegionStats.InsideArea(e, OverviewTarget(c, outlines)) <==>
        RegionStats.HasCoords(e) &&
        b.minLng <= RegionStats.EventLng(e) < b.maxLng && b.minLat <= RegionStats.EventLat(e) < b.maxLat
  {
    var b := outlines[c.key].outline.value.bounds;
    assert EntryOk(outlines[c.key]);
    BoundingBox.BoxContainment(b, RegionStats.EventLng(e), RegionStats.EventLat(e));
  }

  /**
   * The detail view of a city with an outline has one entry per normalised
   * feature name (features with equal keys share it); every entry's count is
   * its number of events, which are the events credited to that key in event
   * order. Without an outline the statistics are empty.
   */
  lemma DetailStats(outlines: map<string, CityEntry>, key: string, events: seq<Event>)
    requires key != ""
    ensures !(key in outlines && outlines[key].outline.Some?) ==> StatsFor(key, outlines, events) == map[]
    ensures key in outlines && outlines[key].outline.Some? ==>
      var ts := DetailTargets(outlines[key].outline.value.features);
      StatsFor(key, outlines, events).Keys == RegionStats.KeySet(ts) &&
      RegionStats.CountsAgree(StatsFor(key, outlines, events)) &&
      forall k :: k in RegionStats.KeySet(ts) ==>
        StatsFor(key, outlines, events)[k].events == RegionStats.PerKey(events, ts, k)
  {
    if key in outlines && outlines[key].outline.Some? {
      RegionStats.AggregateShape(events, DetailTargets(outlines[key].outline.value.features));
    }
  }

  // ----- Event filters -----

  /** `region.includes(cityKey) || (city && region.includes(city.fullName))` */
  predicate RegionFilter(cityKey: string, e: Event) {
    var region := RegionStats.RegionText(e);
    Text.Contains(region, cityKey) ||
    (FindCity(cityKey).Some? && Text.Contains(region, FindCity(cityKey).value.fullName))
  }

  /**
   * The filter of `showCityDetail`: an event with coordinates is decided by
   * the city's outline alone when there is one; otherwise by name.
   */
  predicate DetailFilter(outlines: map<string, CityEntry>, cityKey: string, e: Event) {
    if RegionStats.HasCoords(e) && cityKey in outlines && outlines[cityKey].outline.Some? then
      var g := outlines[cityKey].outline.value.outline.geometry;
      g.Some? && RingsPresent(g.value) &&
      RayCasting.IsPointInPolygon(RegionStats.EventLng(e), RegionStats.EventLat(e), g.value)
    else RegionFilter(cityKey, e)
  }

  function DetailPred(outlines: map<string, CityEntry>, cityKey: string): Event -> bool {
    e => DetailFilter(outlines, cityKey, e)
  }

  /** `突发事件 || 事件类型 || ''` */
  function TypeText(e: Event): string {
    if e.emergency != "" then e.emergency else e.eventType
  }

  /** The event-type filter is skipped for '' and '全部事件'. */
  predicate TypeFilterOff(eventType: string) {
    eventType == "" || eventType == "全部事件"
  }

  /** Both filters of `applyFilters` in one predicate. */
  predicate ApplyFilter(cityKey: string, eventType: string, e: Event) {
    RegionFilter(cityKey, e) && (TypeFilterOff(eventType) || Text.Contains(TypeText(e), eventType))
  }

  function RegionPred(cityKey: string): Event -> bool {
    e => RegionFilter(cityKey, e)
  }

  function TypePred(eventType: string): Event -> bool {
    e => Text.Contains(TypeText(e), eventType)
  }

  function ApplyPred(cityKey: string, eventType: string): Event -> bool {
    e => ApplyFilter(cityKey, eventType, e)
  }

  /**
   * An event the detail view of one of the six cities shows was counted for
   * that city in the overview: the detail filter is the overview match with
   * the name test dropped for events inside or outside a known outline.
   */
  lemma DetailEventCounted(outlines: map<string, CityEntry>, i: nat, e: Event)
    requires i < |WANBEI_CITIES| && DetailFilter(outlines, WANBEI_CITIES[i].key, e)
    ensures RegionStats.Matches(e, OverviewTarget(WANBEI_CITIES[i], outlines))
  {
    FindCityByKey(i);
  }

  /** Hence the detail view's events are among the city's overview events. */
  lemma DetailEventsInOverview(outlines: map<string, CityEntry>, events: seq<Event>, i: nat)
    requires i < |WANBEI_CITIES|
    ensures WANBEI_CITIES[i].key in StatsFor("", outlines, events)
    ensures forall x :: x in Seqs.Filter(events, DetailPred(outlines, WANBEI_CITIES[i].key)) ==>
      x in StatsFor("", outlines, events)[WANBEI_CITIES[i].key].events
  {
    OverviewStats(outlines, events, i);
    var t := OverviewTarget(WANBEI_CITIES[i], outlines);
    forall x | x in Seqs.Filter(events, DetailPred(outlines, WANBEI_CITIES[i].key))
      ensures x in Seqs.Filter(events, MatchPred(t))
    {
      var n :| 0 <= n < |Seqs.Filter(events, DetailPred(outlines, WANBEI_CITIES[i].key))| &&
        Seqs.Filter(events, DetailPred(outlines, WANBEI_CITIES[i].key))[n] == x;
      DetailEventCounted(outlines, i, x);
      var m :| 0 <= m < |events| && events[m] == x;
      assert MatchPred(t)(events[m]);
    }
  }

  /** The region filter of `applyFilters` for one of the six cities implies the overview name match. */
  lemma ApplyFilterCounted(outlines: map<string, CityEntry>, i: nat, eventType: string, e: Event)
    requires i < |WANBEI_CITIES| && ApplyFilter(WANBEI_CITIES[i].key, eventType, e)
    ensures RegionStats.TextMatch(e, OverviewTarget(WANBEI_CITIES[i], outlines))
  {
    FindCityByKey(i);
  }

  // ----- Boundaries -----

  /** `cityFeaturesMap[cityKey]`: the features of one city, in file order. */
  datatype Group = Group(key: string, features: seq<Feature>)

  /** A feature of the merged file whose name is one of the six full city names. */
  predicate InCity(key: string, f: Feature) {
    f.properties.name in CITY_NAME_MAP && CITY_NAME_MAP[f.properties.name] == key
  }

  function InCityPred(key: string): Feature -> bool {
    f => InCity(key, f)
  }

  /** Position of the group with the given key, |gs| when there is none. */
  function GroupIndex(gs: seq<Group>, key: string): (i: nat)
    ensures i <= |gs| && (i < |gs| ==> gs[i].key == key)
    ensures forall j :: 0 <= j < i ==> gs[j].key != key
    decreases |gs|
  {
    if |gs| == 0 then 0
    else
      var i := GroupIndex(gs[..|gs| - 1], key);
      if i < |gs| - 1 then i
      else if gs[|gs| - 1].key == key then |gs| - 1
      else |gs|
  }

  /** One step of the grouping `forEach`: a feature with an unknown name is skipped. */
  function Place(gs: seq<Group>, f: Feature): seq<Group> {
    var name := f.properties.name;
    if name !in CITY_NAME_MAP then gs
    else
      var key := CITY_NAME_MAP[name];
      var i := GroupIndex(gs, key);
      if i < |gs| then gs[i := Group(key, gs[i].features + [f])] else gs + [Group(key, [f])]
  }

  /** The groups in the order their keys were first seen (`Object.keys` insertion order). */
  function Groups(fs: seq<Feature>): seq<Group>
    decreases |fs|
  {
    if |fs| == 0 then [] else Place(Groups(fs[..|fs| - 1]), fs[|fs| - 1])
  }

  /** The three shapes of one grouping step. */
  lemma PlaceShape(gs: seq<Group>, f: Feature)
    ensures f.properties.name !in CITY_NAME_MAP ==> Place(gs, f) == gs
    ensures f.properties.name in CITY_NAME_MAP ==>
      var key := CITY_NAME_MAP[f.properties.name];
      var j := GroupIndex(gs, key);
      (j < |gs| ==> Place(gs, f) == gs[j := Group(key, gs[j].features + [f])]) &&
      (j == |gs| ==> Place(gs, f) == gs + [Group(key, [f])])
  {
  }

  /**
   * The group keys are pairwise different, and every feature of a known city
   * has its city's group.
   */
  lemma {:induction false} GroupsKeys(fs: seq<Feature>)
    ensures forall i, j :: 0 <= i < j < |Groups(fs)| ==> Groups(fs)[i].key != Groups(fs)[j].key
    ensures forall k :: 0 <= k < |fs| && fs[k].properties.name in CITY_NAME_MAP ==>
      GroupIndex(Groups(fs), CITY_NAME_MAP[fs[k].properties.name]) < |Groups(fs)|
    decreases |fs|
  {
    if |fs| > 0 {
      var fs' := fs[..|fs| - 1];
      var f := fs[|fs| - 1];
      GroupsKeys(fs');
      var gs' := Groups(fs');
      var gs := Groups(fs);
      PlaceShape(gs', f);
      var name := f.properties.name;
      if name in CITY_NAME_MAP {
        var key := CITY_NAME_MAP[name];
        var j := GroupIndex(gs', key);
        assert j < |gs| && gs[j].key == key;
      }
      forall k | 0 <= k < |fs| - 1 && fs[k].properties.name in CITY_NAME_MAP
        ensures GroupIndex(gs, CITY_NAME_MAP[fs[k].properties.name]) < |gs|
      {
        var key := CITY_NAME_MAP[fs[k].properties.name];
        assert fs'[k] == fs[k];
        var j := GroupIndex(gs', key);
        assert |gs'| <= |gs| && gs[j].key == key;
      }
    }
  }

  /** Each group holds exactly its city's features, in file order; so no group is empty. */
  lemma {:induction false} GroupsFilter(fs: seq<Feature>)
    ensures forall i :: 0 <= i < |Groups(fs)| ==>
      Groups(fs)[i].features == Seqs.Filter(fs, InCityPred(Groups(fs)[i].key)) && |Groups(fs)[i].features| > 0
    decreases |fs|
  {
    if |fs| > 0 {
      var fs' := fs[..|fs| - 1];
      var f := fs[|fs| - 1];
      GroupsFilter(fs');
      GroupsKeys(fs');
      var gs' := Groups(fs');
      var gs := Groups(fs);
      PlaceShape(gs', f);
      assert fs == fs' + [f];
      forall i | 0 <= i < |gs|
        ensures gs[i].features == Seqs.Filter(fs, InCityPred(gs[i].key)) && |gs[i].features| > 0
      {
        GroupStep(fs', f, gs', i);
      }
    }
  }

  /** The induction step of `GroupsFilter` for one group. */
  lemma GroupStep(fs': seq<Feature>, f: Feature, gs': seq<Group>, i: nat)
    requires forall i :: 0 <= i < |gs'| ==> gs'[i].features == Seqs.Filter(fs', InCityPred(gs'[i].key)) && |gs'[i].features| > 0
    requires forall k :: 0 <= k < |fs'| && fs'[k].properties.name in CITY_NAME_MAP ==>
      GroupIndex(gs', CITY_NAME_MAP[fs'[k].properties.name]) < |gs'|
    requires forall i, j :: 0 <= i < j < |gs'| ==> gs'[i].key != gs'[j].key
    requires i < |Place(gs', f)|
    ensures Place(gs', f)[i].features == Seqs.Filter(fs' + [f], InCityPred(Place(gs', f)[i].key))
    ensures |Place(gs', f)[i].features| > 0
  {
    var fs := fs' + [f];
    var gs := Place(gs', f);
    PlaceShape(gs', f);
    var p := InCityPred(gs[i].key);
    assert fs[..|fs| - 1] == fs' && fs[|fs| - 1] == f;
    assert Seqs.Filter(fs, p) == if p(f) then Seqs.Filter(fs', p) + [f] else Seqs.Filter(fs', p);
    var name := f.properties.name;
    if name !in CITY_NAME_MAP {
      assert !p(f);
    } else {
      var key := CITY_NAME_MAP[name];
      var j := GroupIndex(gs', key);
      if j < |gs'| {
        if i != j {
          assert gs[i] == gs'[i] && gs'[i].key != key;
          assert !p(f);
        } else {
          assert p(f);
        }
      } else if i < |gs'| {
        assert gs[i] == gs'[i] && gs'[i].key != key;
        assert !p(f);
      } else {
        assert gs[i] == Group(key, [f]);
        assert p(f);
        NoGroupNoFeature(fs', gs', key);
      }
    }
  }

  /** A key without a group has no feature. */
  lemma NoGroupNoFeature(fs': seq<Feature>, gs': seq<Group>, key: string)
    requires forall k :: 0 <= k < |fs'| && fs'[k].properties.name in CITY_NAME_MAP ==>
      GroupIndex(gs', CITY_NAME_MAP[fs'[k].properties.name]) < |gs'|
    requires GroupIndex(gs', key) == |gs'|
    ensures Seqs.Filter(fs', InCityPred(key)) == []
  {
    var p := InCityPred(key);
    forall k | 0 <= k < |fs'|
      ensures !p(fs'[k])
    {
      var name := fs'[k].properties.name;
      if name in CITY_NAME_MAP {
        assert GroupIndex(gs', CITY_NAME_MAP[name]) < |gs'|;
      }
    }
    Seqs.FilterNone(fs', p);
  }

  /** Every grouped feature is a feature of the file with a known city name. */
  lemma {:induction false} GroupsFrom(fs: seq<Feature>)
    ensures forall i, k :: 0 <= i < |Groups(fs)| && 0 <= k < |Groups(fs)[i].features| ==>
      Groups(fs)[i].features[k] in fs && Groups(fs)[i].features[k].properties.name in CITY_NAME_MAP
    decreases |fs|
  {
    if |fs| > 0 {
      var fs' := fs[..|fs| - 1];
      var f := fs[|fs| - 1];
      GroupsFrom(fs');
      var gs' := Groups(fs');
      var gs := Groups(fs);
      var name := f.properties.name;
      if name in CITY_NAME_MAP {
        var key := CITY_NAME_MAP[name];
        var j := GroupIndex(gs', key);
        if j < |gs'| {
          assert gs == gs'[j := Group(key, gs'[j].features + [f])];
        } else {
          assert gs == gs' + [Group(key, [f])];
        }
      } else {
        assert gs == gs';
      }
      forall i, k | 0 <= i < |gs| && 0 <= k < |gs[i].features|
        ensures gs[i].features[k] in fs && gs[i].features[k].properties.name in CITY_NAME_MAP
      {
        var x := gs[i].features[k];
        if x != f {
          assert i < |gs'|;
          assert x in gs'[i].features;
          var k' :| 0 <= k' < |gs'[i].features| && gs'[i].features[k'] == x;
          assert x in fs';
        }
      }
    }
  }

  /** What one city contributes to `boundaries`: its city feature in the overview, its county features in its detail view. */
  function CityBoundaries(currentCity: string, key: string, s: AdminCodes.Split): seq<Boundary> {
    if currentCity == "" then
      if s.cityFeature.Some? then [Boundary(key, s.cityFeature.value, true)] else []
    else if currentCity == key then
      seq(|s.countyFeatures|, k requires 0 <= k < |s.countyFeatures| => Boundary(key, s.countyFeatures[k], false))
    else []
  }

  /** The split `loadBoundaries` makes of one group. */
  function GroupSplit(g: Group): AdminCodes.Split {
    AdminCodes.SplitCityFeatures(g.key, g.features)
  }

  function BoundaryList(currentCity: string, gs: seq<Group>): seq<Boundary>
    decreases |gs|
  {
    if |gs| == 0 then []
    else BoundaryList(currentCity, gs[..|gs| - 1]) + CityBoundaries(currentCity, gs[|gs| - 1].key, GroupSplit(gs[|gs| - 1]))
  }

  /** The fallback box 115.5..116.5 × 32.5..33.5 for 阜阳 when nothing was loaded. */
  const DEFAULT_BOUNDARY: Boundary := Boundary("阜阳",
    Feature(Props("阜阳市", "", 0, "", "city", "", false, 0),
      Some(Polygon([[(115.5, 32.5), (116.5, 32.5), (116.5, 33.5), (115.5, 33.5), (115.5, 32.5)]]))),
    true)

  /** `boundaries` once the merged file has been read. */
  function LoadedBoundaries(currentCity: string, fs: seq<Feature>): seq<Boundary> {
    var bs := BoundaryList(currentCity, Groups(fs));
    if |bs| == 0 then [DEFAULT_BOUNDARY] else bs
  }

  /**
   * The entry `loadBoundaries` stores for a group: the outline of the group's
   * features, carrying the features as relabelled by the split (the source
   * keeps the same objects and relabels them in place), and the split's city
   * and county features.
   */
  predicate EntryFor(g: Group, e: CityEntry) {
    (forall k :: 0 <= k < |g.features| ==> Drawable(g.features[k])) &&
    e.cityFeature == GroupSplit(g).cityFeature &&
    e.countyFeatures == GroupSplit(g).countyFeatures &&
    (e.outline.None? <==> |BoundingBox.OuterCoords(g.features)| == 0) &&
    (e.outline.Some? ==>
      BoundingBox.IsBoundingBox(e.outline.value.bounds, BoundingBox.OuterCoords(g.features)) &&
      e.outline.value.outline == BoundingBox.OutlineFeature(e.outline.value.bounds) &&
      e.outline.value.features == GroupSplit(g).features)
  }

  function GroupKeys(gs: seq<Group>): set<string> {
    set i | 0 <= i < |gs| :: gs[i].key
  }

  /** `cityOutlines`: one entry per group, as `EntryFor` describes. */
  predicate OutlinesFor(gs: seq<Group>, outlines: map<string, CityEntry>) {
    outlines.Keys == GroupKeys(gs) &&
    forall i :: 0 <= i < |gs| ==> gs[i].key in outlines && EntryFor(gs[i], outlines[gs[i].key])
  }

  /** Features of a known city name must be drawable: the outline reads `coordinates[0]` of each. */
  predicate MergedFileOk(file: Option<seq<Feature>>) {
    file.Some? ==> forall k :: 0 <= k < |file.value| ==>
      file.value[k].properties.name in CITY_NAME_MAP ==> Drawable(file.value[k])
  }

  lemma GroupKeysSnoc(gs: seq<Group>)
    requires |gs| > 0
    ensures GroupKeys(gs) == GroupKeys(gs[..|gs| - 1]) + {gs[|gs| - 1].key}
  {
    var gs' := gs[..|gs| - 1];
    forall k | k in GroupKeys(gs) ensures k in GroupKeys(gs') + {gs[|gs| - 1].key} {
      var i :| 0 <= i < |gs| && gs[i].key == k;
      if i < |gs| - 1 {
        assert gs'[i].key == k;
      }
    }
    forall k | k in GroupKeys(gs') ensures k in GroupKeys(gs) {
      var i :| 0 <= i < |gs'| && gs'[i].key == k;
      assert gs[i].key == k;
    }
  }

  /** The entries of the first n groups. */
  predicate EntriesFor(gs: seq<Group>, n: nat, outlines: map<string, CityEntry>)
    requires n <= |gs|
  {
    forall m :: 0 <= m < n ==> gs[m].key in outlines && EntryFor(gs[m], outlines[gs[m].key])
  }

  lemma EntriesStep(gs: seq<Group>, n: nat, outlines: map<string, CityEntry>, entry: CityEntry)
    requires n < |gs| && forall i, j :: 0 <= i < j < |gs| ==> gs[i].key != gs[j].key
    requires EntriesFor(gs, n, outlines) && EntryFor(gs[n], entry)
    ensures EntriesFor(gs, n + 1, outlines[gs[n].key := entry])
  {
    var o := outlines[gs[n].key := entry];
    forall m | 0 <= m < n + 1 ensures gs[m].key in o && EntryFor(gs[m], o[gs[m].key]) {
      if m < n {
        assert gs[m].key != gs[n].key;
        assert o[gs[m].key] == outlines[gs[m].key];
      }
    }
  }

  lemma OutlinesOkStep(outlines: map<string, CityEntry>, key: string, entry: CityEntry)
    requires OutlinesOk(outlines) && EntryOk(entry)
    ensures OutlinesOk(outlines[key := entry])
  {
    var o := outlines[key := entry];
    forall k | k in o ensures EntryOk(o[k]) {
      if k != key {
        assert EntryOk(outlines[k]);
      }
    }
  }

  /** Every boundary has a geometry. */
  predicate HaveGeometry(bs: seq<Boundary>) {
    forall k :: 0 <= k < |bs| ==> bs[k].feature.geometry.Some?
  }

  lemma AppendGeometry(a: seq<Boundary>, b: seq<Boundary>)
    requires HaveGeometry(a) && HaveGeometry(b)
    ensures HaveGeometry(a + b)
  {
    forall k | 0 <= k < |a + b| ensures (a + b)[k].feature.geometry.Some? {
      if k < |a| {
        assert (a + b)[k] == a[k];
      } else {
        assert (a + b)[k] == b[k - |a|];
      }
    }
  }

  lemma CityBoundariesGeometry(currentCity: string, key: string, entry: CityEntry, s: AdminCodes.Split)
    requires EntryOk(entry) && entry.cityFeature == s.cityFeature && entry.countyFeatures == s.countyFeatures
    ensures HaveGeometry(CityBoundaries(currentCity, key, s))
  {
  }

  /** A group's key is not among the keys of the groups before it. */
  lemma FreshKey(gs: seq<Group>, n: nat)
    requires n < |gs| && forall i, j :: 0 <= i < j < |gs| ==> gs[i].key != gs[j].key
    ensures gs[n].key !in GroupKeys(gs[..n])
  {
  }

  /** The features of a known city are drawable in a well-formed merged file. */
  lemma GroupDrawable(fs: seq<Feature>, n: nat)
    requires MergedFileOk(Some(fs)) && n < |Groups(fs)|
    ensures forall k :: 0 <= k < |Groups(fs)[n].features| ==> Drawable(Groups(fs)[n].features[k])
  {
    GroupsFrom(fs);
    forall k | 0 <= k < |Groups(fs)[n].features| ensures Drawable(Groups(fs)[n].features[k]) {
      var x := Groups(fs)[n].features[k];
      var k' :| 0 <= k' < |fs| && fs[k'] == x;
    }
  }

  /** The county boundaries of a city. */
  function CountyBoundaries(key: string, fs: seq<Feature>): (bs: seq<Boundary>)
    ensures |bs| == |fs| && forall k :: 0 <= k < |fs| ==> bs[k] == Boundary(key, fs[k], false)
  {
    seq(|fs|, k requires 0 <= k < |fs| => Boundary(key, fs[k], false))
  }

  /**
   * `boundaries` after `loadCityBoundaries(cityKey)`: the cached county
   * features when there are any; otherwise the kept features of the city
   * file (None when the fetch fails), nothing for a key without a file.
   */
  function CityLoad(outlines: map<string, CityEntry>, cityKey: string, file: Option<seq<Feature>>): seq<Boundary> {
    if cityKey in outlines && |outlines[cityKey].countyFeatures| > 0 then
      CountyBoundaries(cityKey, outlines[cityKey].countyFeatures)
    else if cityKey !in CITY_FILE_KEYS || file.None? then []
    else CountyBoundaries(cityKey, AdminCodes.DetailFeatures(file.value))
  }

  /** `cityOutlines` after `loadCityBoundaries(cityKey)`: the loaded features are cached in the city's entry. */
  function CityLoadCache(outlines: map<string, CityEntry>, cityKey: string, file: Option<seq<Feature>>): map<string, CityEntry> {
    if cityKey in outlines && |outlines[cityKey].countyFeatures| == 0 && cityKey in CITY_FILE_KEYS && file.Some? then
      outlines[cityKey := outlines[cityKey].(countyFeatures := AdminCodes.DetailFeatures(file.value))]
    else outlines
  }

  /**
   * Once a city's features have been loaded and some were kept, loading the
   * city again takes the cached path and draws the same boundaries, whatever
   * the second fetch returns.
   */
  lemma CityLoadCached(outlines: map<string, CityEntry>, cityKey: string, file: Option<seq<Feature>>, again: Option<seq<Feature>>)
    requires cityKey in outlines && |CityLoad(outlines, cityKey, file)| > 0
    ensures CityLoad(CityLoadCache(outlines, cityKey, file), cityKey, again) == CityLoad(outlines, cityKey, file)
  {
  }

  /** The file features kept keep their geometry. */
  lemma {:induction false} DetailFeaturesGeometry(fs: seq<Feature>)
    requires forall k :: 0 <= k < |fs| ==> fs[k].geometry.Some?
    ensures forall k :: 0 <= k < |AdminCodes.DetailFeatures(fs)| ==> AdminCodes.DetailFeatures(fs)[k].geometry.Some?
    decreases |fs|
  {
    if |fs| > 0 {
      DetailFeaturesGeometry(fs[..|fs| - 1]);
    }
  }

  /** The grouping `forEach` of `loadBoundaries` into `cityFeaturesMap`. */
  method GroupFeatures(fs: seq<Feature>) returns (groups: seq<Group>)
    ensures groups == Groups(fs)
  {
    groups := [];
    var i := 0;
    while i < |fs|
      invariant 0 <= i <= |fs|
      invariant groups == Groups(fs[..i])
    {
      assert fs[..i + 1][..i] == fs[..i];
      var f := fs[i];
      var name := f.properties.name;
      if name in CITY_NAME_MAP {
        var key := CITY_NAME_MAP[name];
        var j := GroupIndex(groups, key);
        if j < |groups| {
          groups := groups[j := Group(key, groups[j].features + [f])];
        } else {
          groups := groups + [Group(key, [f])];
        }
      }
      i := i + 1;
    }
    assert fs[..i] == fs;
  }

  /** The `cityOutlines[cityKey]` entry for one group: its outline, then the split. */
  method BuildEntry(g: Group) returns (entry: CityEntry)
    requires forall k :: 0 <= k < |g.features| ==> Drawable(g.features[k])
    ensures EntryFor(g, entry) && EntryOk(entry)
    ensures entry.cityFeature == GroupSplit(g).cityFeature && entry.countyFeatures == GroupSplit(g).countyFeatures
  {
    var outline := BoundingBox.CalculateCityOutline(g.features);
    var split := AdminCodes.SplitCityFeatures(g.key, g.features);
    AdminCodes.SplitDrawable(g.key, g.features);
    var stored := if outline.Some? then Some(outline.value.(features := split.features)) else None;
    entry := CityEntry(stored, split.cityFeature, split.countyFeatures);
  }

  // ----- The page -----

  /** What the loop of `loadBoundaries` has built after the first n groups. */
  predicate Built(currentCity: string, gs: seq<Group>, n: nat, outlines: map<string, CityEntry>, bs: seq<Boundary>)
    requires n <= |gs|
  {
    outlines.Keys == GroupKeys(gs[..n]) && EntriesFor(gs, n, outlines) && OutlinesOk(outlines) &&
    bs == BoundaryList(currentCity, gs[..n]) && HaveGeometry(bs)
  }

  lemma OutlinesStep(gs: seq<Group>, n: nat, outlines: map<string, CityEntry>, entry: CityEntry)
    requires n < |gs| && forall i, j :: 0 <= i < j < |gs| ==> gs[i].key != gs[j].key
    requires outlines.Keys == GroupKeys(gs[..n]) && EntriesFor(gs, n, outlines) && OutlinesOk(outlines)
    requires EntryFor(gs[n], entry) && EntryOk(entry)
    ensures var o := outlines[gs[n].key := entry];
      o.Keys == GroupKeys(gs[..n + 1]) && EntriesFor(gs, n + 1, o) && OutlinesOk(o)
  {
    assert gs[..n + 1][..n] == gs[..n];
    GroupKeysSnoc(gs[..n + 1]);
    EntriesStep(gs, n, outlines, entry);
    OutlinesOkStep(outlines, gs[n].key, entry);
  }

  lemma BoundariesStep(currentCity: string, gs: seq<Group>, n: nat, bs: seq<Boundary>, entry: CityEntry)
    requires n < |gs| && bs == BoundaryList(currentCity, gs[..n]) && HaveGeometry(bs)
    requires EntryOk(entry) && entry.cityFeature == GroupSplit(gs[n]).cityFeature
    requires entry.countyFeatures == GroupSplit(gs[n]).countyFeatures
    ensures var bs' := bs + CityBoundaries(currentCity, gs[n].key, GroupSplit(gs[n]));
      bs' == BoundaryList(currentCity, gs[..n + 1]) && HaveGeometry(bs')
  {
    assert gs[..n + 1][..n] == gs[..n];
    CityBoundariesGeometry(currentCity, gs[n].key, entry, GroupSplit(gs[n]));
    AppendGeometry(bs, CityBoundaries(currentCity, gs[n].key, GroupSplit(gs[n])));
  }

  /** One turn of that loop: the entry of group n and the boundaries it adds. */
  method AddGroup(currentCity: string, fs: seq<Feature>, n: nat, outlines: map<string, CityEntry>, bs: seq<Boundary>)
    returns (outlines': map<string, CityEntry>, bs': seq<Boundary>)
    requires MergedFileOk(Some(fs)) && n < |Groups(fs)|
    requires Built(currentCity, Groups(fs), n, outlines, bs)
    ensures Built(currentCity, Groups(fs), n + 1, outlines', bs')
  {
    var groups := Groups(fs);
    GroupsKeys(fs);
    var g := groups[n];
    GroupDrawable(fs, n);
    var entry := BuildEntry(g);
    OutlinesStep(groups, n, outlines, entry);
    BoundariesStep(currentCity, groups, n, bs, entry);
    outlines' := outlines[g.key := entry];
    bs' := bs + CityBoundaries(currentCity, g.key, GroupSplit(g));
  }

  /**
   * The loop of `loadBoundaries` over the groups of the merged file: one
   * `cityOutlines` entry per group and the boundaries the current view draws.
   */
  method BuildOutlines(currentCity: string, fs: seq<Feature>) returns (outlines: map<string, CityEntry>, bs: seq<Boundary>)
    requires MergedFileOk(Some(fs))
    ensures OutlinesOk(outlines) && HaveGeometry(bs)
    ensures outlines.Keys == GroupKeys(Groups(fs))
    ensures EntriesFor(Groups(fs), |Groups(fs)|, outlines)
    ensures bs == BoundaryList(currentCity, Groups(fs))
  {
    outlines := map[];
    bs := [];
    var groups := GroupFeatures(fs);
    var n := 0;
    while n < |groups|
      invariant 0 <= n <= |groups|
      invariant Built(currentCity, groups, n, outlines, bs)
    {
      outlines, bs := AddGroup(currentCity, fs, n, outlines, bs);
      n := n + 1;
    }
    assert groups[..n] == groups;
  }

  /** Every feature of a city file has a geometry: the boundaries drawn from it are read as shapes. */
  predicate CityFileOk(file: Option<seq<Feature>>) {
    file.Some? ==> forall k :: 0 <= k < |file.value| ==> file.value[k].geometry.Some?
  }

  /**
   * The state `loadBoundaries` leaves: nothing when the fetch fails;
   * otherwise one entry per group and the boundaries of the view.
   */
  predicate Loaded(file: Option<seq<Feature>>, outlines: map<string, CityEntry>, bs: seq<Boundary>, currentCity: string) {
    (file.None? ==> bs == [] && outlines == map[]) &&
    (file.Some? ==>
      outlines.Keys == GroupKeys(Groups(file.value)) &&
      EntriesFor(Groups(file.value), |Groups(file.value)|, outlines) &&
      bs == LoadedBoundaries(currentCity, file.value))
  }

  /** The entry of a group is determined by the group: its box is unique. */
  lemma EntryForUnique(g: Group, e1: CityEntry, e2: CityEntry)
    requires EntryFor(g, e1) && EntryFor(g, e2)
    ensures e1 == e2
  {
    if e1.outline.Some? {
      BoundingBox.BoundingBoxUnique(e1.outline.value.bounds, e2.outline.value.bounds, BoundingBox.OuterCoords(g.features));
    }
  }

  /**
   * Loading the same merged file twice leaves the same `cityOutlines` and
   * `boundaries`: going back to the overview restores what `loadData` built.
   */
  lemma LoadedUnique(file: Option<seq<Feature>>, o1: map<string, CityEntry>, b1: seq<Boundary>,
                     o2: map<string, CityEntry>, b2: seq<Boundary>, currentCity: string)
    requires Loaded(file, o1, b1, currentCity) && Loaded(file, o2, b2, currentCity)
    ensures o1 == o2 && b1 == b2
  {
    if file.Some? {
      OutlinesUnique(Groups(file.value), o1, o2);
    }
  }

  /** Two outline maps that both hold the entry of every group are the same map. */
  lemma OutlinesUnique(gs: seq<Group>, o1: map<string, CityEntry>, o2: map<string, CityEntry>)
    requires o1.Keys == GroupKeys(gs) && o2.Keys == GroupKeys(gs)
    requires EntriesFor(gs, |gs|, o1) && EntriesFor(gs, |gs|, o2)
    ensures o1 == o2
  {
    forall k | k in o1 ensures o1[k] == o2[k] {
      var i :| 0 <= i < |gs| && gs[i].key == k;
      EntryForUnique(gs[i], o1[k], o2[k]);
    }
  }

  /** The view after `adjustViewToData()`: unchanged without coordinates, otherwise fitted to their box. */
  ghost predicate FittedTo(view: MapView.MapView, features: seq<Feature>, before: MapView.View)
    requires forall k :: 0 <= k < |features| ==> features[k].geometry.Some?
    reads view
  {
    (|MapView.AllCoords(features)| == 0 ==> view.Current() == before) &&
    (|MapView.AllCoords(features)| > 0 ==> exists b ::
      BoundingBox.IsBoundingBox(b, MapView.AllCoords(features)) && view.Current() == MapView.Fitted(view.canvas, b))
  }

  /** A node of the data file: its labels and its properties. */
  datatype DataNode = DataNode(labels: seq<string>, properties: Event)

  /** `data.combined`: its `events` list when present, and its `nodes`. */
  datatype Combined = Combined(events: Option<seq<Event>>, nodes: seq<DataNode>)

  /** `n.labels && n.labels.some(l => l.includes('事件'))` */
  predicate IsEventNode(n: DataNode) {
    exists k :: 0 <= k < |n.labels| && Text.Contains(n.labels[k], "事件")
  }

  function EventNodePred(): DataNode -> bool {
    n => IsEventNode(n)
  }

  /**
   * `combined.events || combined.nodes.filter(...)`: a present list, even
   * an empty one, is taken as it is; otherwise the nodes labelled as events.
   */
  function EventsOf(c: Combined): (es: seq<Event>)
    ensures c.events.Some? ==> es == c.events.value
    ensures c.events.None? ==>
      var ns := Seqs.Filter(c.nodes, EventNodePred());
      |es| == |ns| && forall k :: 0 <= k < |ns| ==> es[k] == ns[k].properties
  {
    if c.events.Some? then c.events.value
    else
      var ns := Seqs.Filter(c.nodes, EventNodePred());
      seq(|ns|, k requires 0 <= k < |ns| => ns[k].properties)
  }

  /** The boundaries `loadCityBoundaries` draws from a city's cached county features. */
  method CachedBoundaries(cityKey: string, cached: seq<Feature>) returns (bs: seq<Boundary>)
    requires forall k :: 0 <= k < |cached| ==> cached[k].geometry.Some?
    ensures bs == CountyBoundaries(cityKey, cached) && HaveGeometry(bs)
  {
    bs := [];
    var i := 0;
    while i < |cached|
      invariant 0 <= i <= |cached|
      invariant bs == CountyBoundaries(cityKey, cached[..i])
    {
      bs := bs + [Boundary(cityKey, cached[i], false)];
      i := i + 1;
    }
    assert cached[..i] == cached;
  }

  /** The boundaries `loadCityBoundaries` draws from a fetched city file: its features other than real city boundaries, relabelled. */
  method DetailBoundaries(cityKey: string, fs: seq<Feature>) returns (bs: seq<Boundary>)
    requires forall k :: 0 <= k < |fs| ==> fs[k].geometry.Some?
    ensures bs == CountyBoundaries(cityKey, AdminCodes.DetailFeatures(fs)) && HaveGeometry(bs)
    ensures BoundaryFeatures(bs) == AdminCodes.DetailFeatures(fs)
  {
    bs := [];
    var i := 0;
    while i < |fs|
      invariant 0 <= i <= |fs|
      invariant bs == CountyBoundaries(cityKey, AdminCodes.DetailFeatures(fs[..i]))
    {
      var f := fs[i];
      assert fs[..i + 1][..i] == fs[..i];
      if !AdminCodes.IsRealCityBoundary(f.properties) {
        bs := bs + [Boundary(cityKey, WithProps(f, AdminCodes.DetailLabel(f.properties)), false)];
      }
      i := i + 1;
    }
    assert fs[..i] == fs;
    DetailFeaturesGeometry(fs);
  }

  class CanvasMap {
    var allEvents: seq<Event>
    var filteredEvents: seq<Event>
    var regionStats: map<string, Stats>
    /** The selected city key; "" for none. */
    var currentCity: string
    var cityOutlines: map<string, CityEntry>
    var boundaries: seq<Boundary>
    const view: MapView.MapView

    /** The view is valid, the outlines are boxes around drawable features, and every drawn boundary has a geometry. */
    predicate Valid()
      reads this`cityOutlines, this`boundaries, view
    {
      view.Valid() && OutlinesOk(cityOutlines) && HaveGeometry(boundaries)
    }

    constructor (c: MapView.Canvas)
      requires MapView.ValidCanvas(c)
      ensures Valid() && fresh(view)
      ensures allEvents == [] && filteredEvents == [] && regionStats == map[]
      ensures currentCity == "" && cityOutlines == map[] && boundaries == []
    {
      view := new MapView.MapView(c);
      allEvents, filteredEvents, regionStats := [], [], map[];
      currentCity, cityOutlines, boundaries := "", map[], [];
    }

    /** `calculateRegionStats()`: the statistics rebuilt from {} for the current view. */
    method CalculateRegionStats()
      modifies this`regionStats
      ensures regionStats == StatsFor(currentCity, cityOutlines, filteredEvents)
    {
      regionStats := map[];
      if currentCity == "" {
        regionStats := RegionStats.Tally(filteredEvents, OverviewTargets(cityOutlines));
      } else {
        if currentCity !in cityOutlines || cityOutlines[currentCity].outline.None? {
          return;
        }
        regionStats := RegionStats.Tally(filteredEvents, DetailTargets(cityOutlines[currentCity].outline.value.features));
      }
    }

    /**
     * `loadBoundaries()` on the merged file (None when its fetch fails): the
     * features are grouped by city name, each city gets its outline entry,
     * and the overview draws each city feature (a city's detail view, its
     * county features); with nothing to draw, the default 阜阳 box.
     */
    method LoadBoundaries(file: Option<seq<Feature>>)
      requires Valid() && MergedFileOk(file)
      modifies this`boundaries, this`cityOutlines
      ensures Valid()
      ensures Loaded(file, cityOutlines, boundaries, currentCity)
    {
      boundaries := [];
      cityOutlines := map[];
      if file.None? {
        return;
      }
      var outlines, bs := BuildOutlines(currentCity, file.value);
      cityOutlines := outlines;
      boundaries := bs;
      if |boundaries| == 0 {
        boundaries := [DEFAULT_BOUNDARY];
      }
    }

    /**
     * `loadCityBoundaries(cityKey)`: the cached county features of the city
     * when there are any; otherwise the city's own file (None when the
     * fetch fails), whose real city boundaries are skipped and whose other
     * features are relabelled and, when the city has an entry, cached in it.
     */
    method LoadCityBoundaries(cityKey: string, file: Option<seq<Feature>>)
      requires Valid() && CityFileOk(file)
      modifies this`boundaries, this`cityOutlines
      ensures Valid()
      ensures boundaries == CityLoad(old(cityOutlines), cityKey, file)
      ensures cityOutlines == CityLoadCache(old(cityOutlines), cityKey, file)
    {
      if cityKey in cityOutlines && |cityOutlines[cityKey].countyFeatures| > 0 {
        assert EntryOk(cityOutlines[cityKey]);
        boundaries := CachedBoundaries(cityKey, cityOutlines[cityKey].countyFeatures);
        return;
      }
      if cityKey !in CITY_FILE_KEYS || file.None? {
        boundaries := [];
        return;
      }
      var bs := DetailBoundaries(cityKey, file.value);
      boundaries := bs;
      if cityKey in cityOutlines {
        assert EntryOk(cityOutlines[cityKey]);
        var entry := cityOutlines[cityKey].(countyFeatures := BoundaryFeatures(bs));
        OutlinesOkStep(cityOutlines, cityKey, entry);
        cityOutlines := cityOutlines[cityKey := entry];
      }
    }

    /**
     * `applyFilters()` with the selected event type: in a city's detail view
     * the events of the city by name, then those whose type text contains
     * the selected type; the statistics are recounted. The overview ignores it.
     */
    method ApplyFilters(eventType: string)
      modifies this`filteredEvents, this`regionStats
      ensures currentCity == "" ==> filteredEvents == old(filteredEvents) && regionStats == old(regionStats)
      ensures currentCity != "" ==>
        filteredEvents == Seqs.Filter(allEvents, ApplyPred(currentCity, eventType)) &&
        regionStats == StatsFor(currentCity, cityOutlines, filteredEvents)
    {
      if currentCity == "" {
        return;
      }
      var events := Seqs.Filter(allEvents, RegionPred(currentCity));
      if !TypeFilterOff(eventType) {
        events := Seqs.Filter(events, TypePred(eventType));
        Seqs.FilterFilter(allEvents, RegionPred(currentCity), TypePred(eventType), ApplyPred(currentCity, eventType));
      } else {
        Seqs.FilterSame(allEvents, RegionPred(currentCity), ApplyPred(currentCity, eventType));
      }
      filteredEvents := events;
      CalculateRegionStats();
    }

    /**
     * `showCityDetail(cityKey)`: the city becomes current, its events are
     * selected by `DetailFilter`, its county boundaries are loaded, the
     * statistics are recounted per county and the view is fitted to the
     * boundaries.
     */
    method ShowCityDetail(cityKey: string, file: Option<seq<Feature>>)
      requires Valid() && CityFileOk(file)
      modifies this, view
      ensures Valid() && allEvents == old(allEvents)
      ensures currentCity == cityKey
      ensures filteredEvents == Seqs.Filter(allEvents, DetailPred(old(cityOutlines), cityKey))
      ensures boundaries == CityLoad(old(cityOutlines), cityKey, file)
      ensures cityOutlines == CityLoadCache(old(cityOutlines), cityKey, file)
      ensures regionStats == StatsFor(cityKey, cityOutlines, filteredEvents)
      ensures FittedTo(view, BoundaryFeatures(boundaries), old(view.Current()))
    {
      currentCity := cityKey;
      filteredEvents := Seqs.Filter(allEvents, DetailPred(cityOutlines, cityKey));
      LoadCityBoundaries(cityKey, file);
      CalculateRegionStats();
      view.AdjustViewToData(BoundaryFeatures(boundaries));
    }

    /**
     * `backToTilesView()`: no city is current, every event is shown, the
     * merged file is loaded again, the statistics are recounted per city and
     * the view is fitted to the boundaries.
     */
    method BackToTilesView(file: Option<seq<Feature>>)
      requires Valid() && MergedFileOk(file)
      modifies this, view
      ensures Valid() && allEvents == old(allEvents)
      ensures currentCity == "" && filteredEvents == allEvents
      ensures Loaded(file, cityOutlines, boundaries, "")
      ensures regionStats == StatsFor("", cityOutlines, allEvents)
      ensures FittedTo(view, BoundaryFeatures(boundaries), old(view.Current()))
    {
      ShowOverview(file);
      view.AdjustViewToData(BoundaryFeatures(boundaries));
    }

    /** The part of `backToTilesView()` before the fit: no city current, every event shown, the merged file loaded, the statistics counted. */
    method ShowOverview(file: Option<seq<Feature>>)
      requires Valid() && MergedFileOk(file)
      modifies this`currentCity, this`filteredEvents, this`boundaries, this`cityOutlines, this`regionStats
      ensures Valid() && allEvents == old(allEvents) && Overview(file)
    {
      currentCity := "";
      filteredEvents := allEvents;
      LoadBoundaries(file);
      CalculateRegionStats();
    }

    /**
     * `loadData()` on the parsed data file (None when the fetch or the parse
     * fails or it has no `combined` part): the events are taken, all of them
     * are shown, the merged file is loaded, the statistics are counted and
     * the view is fitted to the boundaries.
     */
    method LoadData(data: Option<Combined>, file: Option<seq<Feature>>)
      requires Valid() && MergedFileOk(file)
      modifies this, view
      ensures Valid() && currentCity == old(currentCity)
      ensures data.None? ==> (allEvents == old(allEvents) && filteredEvents == old(filteredEvents) &&
        regionStats == old(regionStats) && cityOutlines == old(cityOutlines) &&
        boundaries == old(boundaries) && view.Current() == old(view.Current()))
      ensures data.Some? ==> (allEvents == EventsOf(data.value) && filteredEvents == allEvents &&
        Loaded(file, cityOutlines, boundaries, currentCity) &&
        regionStats == StatsFor(currentCity, cityOutlines, allEvents) &&
        FittedTo(view, BoundaryFeatures(boundaries), old(view.Current())))
    {
      if data.None? {
        return;
      }
      ShowData(data.value, file);
      view.AdjustViewToData(BoundaryFeatures(boundaries));
    }

    /** The part of `loadData()` before the fit: the events taken and all shown, the merged file loaded, the statistics counted. */
    method ShowData(d: Combined, file: Option<seq<Feature>>)
      requires Valid() && MergedFileOk(file)
      modifies this`allEvents, this`filteredEvents, this`boundaries, this`cityOutlines, this`regionStats
      ensures Valid() && Shows(d, file)
    {
      allEvents := EventsOf(d);
      filteredEvents := allEvents;
      LoadBoundaries(file);
      CalculateRegionStats();
    }

    /** The state `ShowOverview` leaves. */
    ghost predicate Overview(file: Option<seq<Feature>>)
      reads this
    {
      currentCity == "" && filteredEvents == allEvents &&
      Loaded(file, cityOutlines, boundaries, currentCity) &&
      regionStats == StatsFor(currentCity, cityOutlines, filteredEvents)
    }

    /** The state `ShowData` leaves. */
    ghost predicate Shows(d: Combined, file: Option<seq<Feature>>)
      reads this
    {
      allEvents == EventsOf(d) && filteredEvents == allEvents &&
      Loaded(file, cityOutlines, boundaries, currentCity) &&
      regionStats == StatsFor(currentCity, cityOutlines, allEvents)
    }
  }
}
