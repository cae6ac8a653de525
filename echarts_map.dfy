/**
 * The ECharts variant of the map page. It shares the six cities and the
 * color table of the canvas map; its statistics always cover the six cities
 * and match an event by name alone: the region text (地区, else region)
 * contains the city key or the full city name. The detail view of a city
 * keeps the events that name the city, and the scatter layer shows the
 * events that have both coordinates.
 */
module EchartsMap {
  import opened Wrappers
  import Text
  import Seqs
  import ColorScale
  import RegionStats
  import CanvasMap

  type Event = RegionStats.Event
  type Stats = RegionStats.Stats
  type Target = RegionStats.Target
  type City = CanvasMap.City

  /** `WANBEI_CITIES` of this page. */
  const WANBEI_CITIES: seq<City> := [
    CanvasMap.City("阜阳", "阜阳市", "阜阳市"),
    CanvasMap.City("亳州", "亳州市", "亳州市"),
    CanvasMap.City("淮北", "淮北市", "淮北市"),
    CanvasMap.City("宿州", "宿州市", "宿州市"),
    CanvasMap.City("蚌埠", "蚌埠市", "蚌埠市"),
    CanvasMap.City("淮南", "淮南市", "淮南市")
  ]

  /** `COLOR_RANGES` of this page. */
  const COLOR_RANGES: seq<ColorScale.ColorRange> := [
    ColorScale.ColorRange(150, None, "#FFD700", "150件以上"),
    ColorScale.ColorRange(120, Some(150), "#FFA500", "120-150件"),
    ColorScale.ColorRange(90, Some(120), "#FF6347", "90-120件"),
    ColorScale.ColorRange(60, Some(90), "#FF69B4", "60-90件"),
    ColorScale.ColorRange(30, Some(60), "#9370DB", "30-60件"),
    ColorScale.ColorRange(0, Some(30), "#87CEEB", "30件以下")
  ]

  /** `getColorByCount(count)`: the same top-down scan with the last entry as fallback. */
  function GetColorByCount(count: int): (color: string)
    ensures color in set r | r in COLOR_RANGES :: r.color
  {
    ColorScale.Classify(COLOR_RANGES, count).color
  }

  /** `getRangeLabel(count)` */
  function GetRangeLabel(count: int): (text: string)
    ensures text in set r | r in COLOR_RANGES :: r.labelText
  {
    ColorScale.Classify(COLOR_RANGES, count).labelText
  }

  /**
   * Both pages classify every count alike: the tables are the same, so the
   * color and the label agree with the canvas map's, bucket edges and the
   * fallback for negative counts included.
   */
  lemma SameClassifier(count: int)
    ensures WANBEI_CITIES == CanvasMap.WANBEI_CITIES
    ensures GetColorByCount(count) == ColorScale.GetColorByCount(count)
    ensures GetRangeLabel(count) == ColorScale.GetRangeLabel(count)
    ensures GetColorByCount(count) == ColorScale.COLOR_RANGES[ColorScale.BucketIndex(count)].color
  {
    assert COLOR_RANGES == ColorScale.COLOR_RANGES;
    ColorScale.ColorAndLabelAgree(count);
  }

  // ----- Statistics -----

  /** The region of a city on this page: no area, the key and the full name searched for. */
  function NameTarget(c: City): Target {
    RegionStats.Target(c.key, c.name, c.fullName, None, c.key, c.fullName, false)
  }

  function NameTargets(): (ts: seq<Target>)
    ensures |ts| == |WANBEI_CITIES|
    ensures forall i :: 0 <= i < |ts| ==> ts[i] == NameTarget(WANBEI_CITIES[i])
  {
    seq(|WANBEI_CITIES|, i requires 0 <= i < |WANBEI_CITIES| => NameTarget(WANBEI_CITIES[i]))
  }

  /** `region.includes(city.key) || region.includes(city.fullName)` */
  predicate NameMatch(c: City, e: Event) {
    Text.Contains(RegionStats.RegionText(e), c.key) || Text.Contains(RegionStats.RegionText(e), c.fullName)
  }

  function NamePred(c: City): Event -> bool {
    e => NameMatch(c, e)
  }

  /** `regionStats` after `calculateRegionStats()` over the given events. */
  function EchartsStats(events: seq<Event>): map<string, Stats> {
    RegionStats.Aggregate(events, NameTargets())
  }

  /** The statistics have exactly the six city keys, whatever the events. */
  lemma EchartsStatsKeys(events: seq<Event>)
    ensures EchartsStats(events).Keys == set c | c in WANBEI_CITIES :: c.key
  {
    RegionStats.AggregateShape(events, NameTargets());
    NameTargetKeys();
  }

  /**
   * A city's entry holds the events whose region text names the city, in
   * event order, the count is their number, and the names are the city's.
   * Nothing but the events decides the result.
   */
  lemma EchartsStatsShape(events: seq<Event>, i: nat)
    requires i < |WANBEI_CITIES|
    ensures WANBEI_CITIES[i].key in EchartsStats(events)
    ensures EchartsStats(events)[WANBEI_CITIES[i].key] ==
      var hit := Seqs.Filter(events, NamePred(WANBEI_CITIES[i]));
      RegionStats.Stats(|hit|, hit, WANBEI_CITIES[i].name, WANBEI_CITIES[i].fullName)
  {
    var ts := NameTargets();
    SameClassifier(0);
    CanvasMap.CityKeysDistinct();
    RegionStats.AggregateDistinct(events, ts, i);
    Seqs.FilterSame(events, e => RegionStats.Matches(e, ts[i]), NamePred(WANBEI_CITIES[i]));
  }

  /** The keys of the name targets are the keys of the six cities. */
  lemma NameTargetKeys()
    ensures RegionStats.KeySet(NameTargets()) == set c | c in WANBEI_CITIES :: c.key
  {
    var ts := NameTargets();
    forall k | k in set c | c in WANBEI_CITIES :: c.key ensures k in RegionStats.KeySet(ts) {
      var c :| c in WANBEI_CITIES && c.key == k;
      var j :| 0 <= j < |WANBEI_CITIES| && WANBEI_CITIES[j] == c;
      assert ts[j].key == k;
    }
  }

  /**
   * The detail view of one of the six cities counts every shown event for
   * that city: the filter of `showCityDetail` is the city's match.
   */
  lemma DetailCountsAll(events: seq<Event>, i: nat)
    requires i < |WANBEI_CITIES|
    ensures var shown := Seqs.Filter(events, CanvasMap.RegionPred(WANBEI_CITIES[i].key));
      WANBEI_CITIES[i].key in EchartsStats(shown) &&
      EchartsStats(shown)[WANBEI_CITIES[i].key].count == |shown| &&
      EchartsStats(shown)[WANBEI_CITIES[i].key].events == shown
  {
    var c := WANBEI_CITIES[i];
    var shown := Seqs.Filter(events, CanvasMap.RegionPred(c.key));
    SameClassifier(0);
    CanvasMap.FindCityByKey(i);
    EchartsStatsShape(shown, i);
    Seqs.FilterSame(shown, NamePred(c), CanvasMap.RegionPred(c.key));
    Seqs.FilterIdempotent(events, CanvasMap.RegionPred(c.key));
  }

  // ----- Scatter layer -----

  /** `{ name, value: [lng, lat, 1] }` */
  datatype ScatterPoint = ScatterPoint(name: string, lng: real, lat: real, weight: int)

  /** `事件名称 || name || '事件'` */
  function EventName(e: Event): string {
    if e.title != "" then e.title else if e.name != "" then e.name else "事件"
  }

  function PointOf(e: Event): ScatterPoint {
    ScatterPoint(EventName(e), RegionStats.EventLng(e), RegionStats.EventLat(e), 1)
  }

  /** `filteredEvents.map(...).filter(item => item !== null)`: a point per event with both coordinates. */
  function ScatterData(events: seq<Event>): seq<ScatterPoint>
    decreases |events|
  {
    if |events| == 0 then []
    else
      var e := events[|events| - 1];
      ScatterData(events[..|events| - 1]) + (if RegionStats.HasCoords(e) then [PointOf(e)] else [])
  }

  function CoordsPred(): Event -> bool {
    e => RegionStats.HasCoords(e)
  }

  /** The scatter points are the points of exactly the events with truthy coordinates, in order. */
  lemma {:induction false} ScatterIsFiltered(events: seq<Event>)
    ensures |ScatterData(events)| == |Seqs.Filter(events, CoordsPred())|
    ensures forall k :: 0 <= k < |ScatterData(events)| ==>
      ScatterData(events)[k] == PointOf(Seqs.Filter(events, CoordsPred())[k])
    decreases |events|
  {
    if |events| > 0 {
      ScatterIsFiltered(events[..|events| - 1]);
    }
  }

  // ----- The page -----

  class EchartsMap {
    var allEvents: seq<Event>
    var filteredEvents: seq<Event>
    var regionStats: map<string, Stats>
    /** The selected city key; "" for none. */
    var currentCity: string

    constructor ()
      ensures allEvents == [] && filteredEvents == [] && regionStats == map[] && currentCity == ""
    {
      allEvents, filteredEvents, regionStats, currentCity := [], [], map[], "";
    }

    /** `calculateRegionStats()`: the six entries from {}, then every event against every city. */
    method CalculateRegionStats()
      modifies this`regionStats
      ensures regionStats == EchartsStats(filteredEvents)
    {
      regionStats := map[];
      regionStats := RegionStats.Tally(filteredEvents, NameTargets());
    }

    /** `loadData()` on the parsed data file (None when it cannot be read or has no `combined` part). */
    method LoadData(data: Option<CanvasMap.Combined>)
      modifies this`allEvents, this`filteredEvents, this`regionStats
      ensures data.None? ==> (allEvents == old(allEvents) && filteredEvents == old(filteredEvents) &&
        regionStats == old(regionStats))
      ensures data.Some? ==> (allEvents == CanvasMap.EventsOf(data.value) && filteredEvents == allEvents &&
        regionStats == EchartsStats(allEvents))
    {
      if data.None? {
        return;
      }
      allEvents := CanvasMap.EventsOf(data.value);
      filteredEvents := allEvents;
      CalculateRegionStats();
    }

    /** `showCityDetail(cityKey)`: the events naming the city, recounted. */
    method ShowCityDetail(cityKey: string)
      modifies this`currentCity, this`filteredEvents, this`regionStats
      ensures currentCity == cityKey
      ensures filteredEvents == Seqs.Filter(allEvents, CanvasMap.RegionPred(cityKey))
      ensures regionStats == EchartsStats(filteredEvents)
      ensures forall i :: 0 <= i < |WANBEI_CITIES| && WANBEI_CITIES[i].key == cityKey ==>
        cityKey in regionStats && regionStats[cityKey].count == |filteredEvents|
    {
      currentCity := cityKey;
      filteredEvents := Seqs.Filter(allEvents, CanvasMap.RegionPred(cityKey));
      CalculateRegionStats();
      forall i | 0 <= i < |WANBEI_CITIES| && WANBEI_CITIES[i].key == cityKey
        ensures cityKey in regionStats && regionStats[cityKey].count == |filteredEvents|
      {
        DetailCountsAll(allEvents, i);
      }
    }

    /** `backToTilesView()`: every event again and the six-city statistics, as after `loadData`. */
    method BackToTilesView()
      modifies this`currentCity, this`filteredEvents, this`regionStats
      ensures currentCity == "" && filteredEvents == allEvents
      ensures regionStats == EchartsStats(allEvents)
    {
      currentCity := "";
      filteredEvents := allEvents;
      CalculateRegionStats();
    }
  }
}
