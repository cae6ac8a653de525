/**
 * The region aggregator shared by the map pages. Each event is tested against
 * every region in turn (no early exit), and every region it matches gets the
 * event appended and its count raised, so one event can be counted in several
 * regions. A region matches when the event has truthy coordinates inside the
 * region's area, or else when its region text (地区, else region, else "")
 * contains one of the region's two names.
 */
module RegionStats {
  import opened Wrappers
  import opened GeoJson
  import Text
  import Seqs
  import RayCasting

  /**
   * The event properties the maps read: 地区 (district), region, lng and 经度
   * (lngZh), lat and 纬度 (latZh), 突发事件 (emergency), 事件类型 (eventType),
   * 事件名称 (title) and name. A missing text is "", a missing number 0.
   */
  datatype Event = Event(
    district: string,
    region: string,
    lng: real,
    lngZh: real,
    lat: real,
    latZh: real,
    emergency: string,
    eventType: string,
    title: string,
    name: string)

  /** `event.properties?.地区 || event.properties?.region || ''` */
  function RegionText(e: Event): string {
    if e.district != "" then e.district else e.region
  }

  /** `event.properties?.lng || event.properties?.经度` */
  function EventLng(e: Event): real {
    if e.lng != 0.0 then e.lng else e.lngZh
  }

  /** `event.properties?.lat || event.properties?.纬度` */
  function EventLat(e: Event): real {
    if e.lat != 0.0 then e.lat else e.latZh
  }

  /** `eventLng && eventLat`: both coordinates truthy, i.e. non-zero. */
  predicate HasCoords(e: Event) {
    EventLng(e) != 0.0 && EventLat(e) != 0.0
  }

  /** `{count, events, name, fullName}` */
  datatype Stats = Stats(count: nat, events: seq<Event>, name: string, fullName: string)

  /**
   * One region an event is tested against: its stats key and names, the area
   * used for the coordinate test (None when the page has none for it), the two
   * names searched for in the region text, and whether that text search is
   * only tried for a non-empty text.
   */
  datatype Target = Target(
    key: string,
    name: string,
    fullName: string,
    area: Option<Geometry>,
    needle1: string,
    needle2: string,
    needsText: bool)

  /** The coordinate test: truthy coordinates inside the region's area. */
  predicate InsideArea(e: Event, t: Target) {
    HasCoords(e) && t.area.Some? && RingsPresent(t.area.value) &&
    RayCasting.IsPointInPolygon(EventLng(e), EventLat(e), t.area.value)
  }

  /** The fallback: the region text contains one of the two names. */
  predicate TextMatch(e: Event, t: Target) {
    (!t.needsText || RegionText(e) != "") &&
    (Text.Contains(RegionText(e), t.needle1) || Text.Contains(RegionText(e), t.needle2))
  }

  /** `matched` after both tests: the text test runs only when the area test failed. */
  predicate Matches(e: Event, t: Target) {
    InsideArea(e, t) || TextMatch(e, t)
  }

  /** The fresh entry `{count: 0, events: [], name, fullName}`. */
  function NewStats(t: Target): Stats {
    Stats(0, [], t.name, t.fullName)
  }

  /** The keys of a list of regions. */
  function KeySet(ts: seq<Target>): set<string> {
    set k | 0 <= k < |ts| :: ts[k].key
  }

  /** Regions with pairwise different keys. */
  predicate DistinctKeys(ts: seq<Target>) {
    forall i, j :: 0 <= i < j < |ts| ==> ts[i].key != ts[j].key
  }

  /** Every entry's count is the number of its events. */
  predicate CountsAgree(m: map<string, Stats>) {
    forall k :: k in m ==> m[k].count == |m[k].events|
  }

  /** `if (!regionStats[key]) regionStats[key] = {...}` for each region in order. */
  function InitStats(ts: seq<Target>): map<string, Stats>
    decreases |ts|
  {
    if |ts| == 0 then map[]
    else
      var m := InitStats(ts[..|ts| - 1]);
      var t := ts[|ts| - 1];
      if t.key in m then m else m[t.key := NewStats(t)]
  }

  /** `count++` and `events.push(event)` on the region's entry, created first if absent. */
  function Bump(m: map<string, Stats>, t: Target, e: Event): map<string, Stats> {
    var s := if t.key in m then m[t.key] else NewStats(t);
    m[t.key := Stats(s.count + 1, s.events + [e], s.name, s.fullName)]
  }

  /** One event tested against the regions in order. */
  function StepEvent(m: map<string, Stats>, e: Event, ts: seq<Target>): map<string, Stats>
    decreases |ts|
  {
    if |ts| == 0 then m
    else
      var m' := StepEvent(m, e, ts[..|ts| - 1]);
      var t := ts[|ts| - 1];
      if Matches(e, t) then Bump(m', t, e) else m'
  }

  /** The events tested in order, starting from m0. */
  function CountAll(m0: map<string, Stats>, events: seq<Event>, ts: seq<Target>): map<string, Stats>
    decreases |events|
  {
    if |events| == 0 then m0
    else StepEvent(CountAll(m0, events[..|events| - 1], ts), events[|events| - 1], ts)
  }

  /** The aggregator: entries for every region, then every event counted. */
  function Aggregate(events: seq<Event>, ts: seq<Target>): map<string, Stats> {
    CountAll(InitStats(ts), events, ts)
  }

  /** One copy of e for every region with key k that e matches. */
  function Hits(e: Event, ts: seq<Target>, k: string): seq<Event>
    decreases |ts|
  {
    if |ts| == 0 then []
    else
      var t := ts[|ts| - 1];
      Hits(e, ts[..|ts| - 1], k) + (if t.key == k && Matches(e, t) then [e] else [])
  }

  /** The events credited to key k, in event order. */
  function PerKey(events: seq<Event>, ts: seq<Target>, k: string): seq<Event>
    decreases |events|
  {
    if |events| == 0 then []
    else PerKey(events[..|events| - 1], ts, k) + Hits(events[|events| - 1], ts, k)
  }

  /** The keys of a list of regions grow by the key of the region appended. */
  lemma KeySetSnoc(ts: seq<Target>)
    requires |ts| > 0
    ensures KeySet(ts) == KeySet(ts[..|ts| - 1]) + {ts[|ts| - 1].key}
  {
    var ts' := ts[..|ts| - 1];
    forall k | k in KeySet(ts) ensures k in KeySet(ts') + {ts[|ts| - 1].key} {
      var i :| 0 <= i < |ts| && ts[i].key == k;
      if i < |ts| - 1 {
        assert ts'[i].key == k;
      }
    }
    forall k | k in KeySet(ts') ensures k in KeySet(ts) {
      var i :| 0 <= i < |ts'| && ts'[i].key == k;
      assert ts[i].key == k;
    }
  }

  /** Before counting, there is exactly one entry per region key, and it is empty. */
  lemma {:induction false} InitStatsKeys(ts: seq<Target>)
    ensures InitStats(ts).Keys == KeySet(ts)
    ensures forall k :: k in InitStats(ts) ==> InitStats(ts)[k].count == 0 && InitStats(ts)[k].events == []
    decreases |ts|
  {
    if |ts| > 0 {
      InitStatsKeys(ts[..|ts| - 1]);
      KeySetSnoc(ts);
    }
  }

  /** The entry of a key is named after the first region with that key. */
  lemma {:induction false} InitStatsFirst(ts: seq<Target>, j: nat)
    requires j < |ts| && forall i :: 0 <= i < j ==> ts[i].key != ts[j].key
    ensures ts[j].key in InitStats(ts) && InitStats(ts)[ts[j].key] == NewStats(ts[j])
    decreases |ts|
  {
    var ts' := ts[..|ts| - 1];
    InitStatsKeys(ts');
    if j < |ts| - 1 {
      assert ts'[j] == ts[j];
      InitStatsFirst(ts', j);
    }
  }

  /** Counting an event against regions whose keys already have entries adds no key. */
  lemma {:induction false} StepEventKeys(m: map<string, Stats>, e: Event, ts: seq<Target>)
    requires KeySet(ts) <= m.Keys
    ensures StepEvent(m, e, ts).Keys == m.Keys
    decreases |ts|
  {
    if |ts| > 0 {
      var ts' := ts[..|ts| - 1];
      KeySetSnoc(ts);
      StepEventKeys(m, e, ts');
    }
  }

  /** Counting keeps every entry's count equal to the number of its events. */
  lemma {:induction false} StepEventCounts(m: map<string, Stats>, e: Event, ts: seq<Target>)
    requires CountsAgree(m)
    ensures CountsAgree(StepEvent(m, e, ts))
    decreases |ts|
  {
    if |ts| > 0 {
      StepEventCounts(m, e, ts[..|ts| - 1]);
    }
  }

  /**
   * Counting one event appends to the entry of key k one copy of the event per
   * matching region with that key; names are kept.
   */
  lemma {:induction false} StepEventEntry(m: map<string, Stats>, e: Event, ts: seq<Target>, k: string)
    requires k in m && KeySet(ts) <= m.Keys
    ensures k in StepEvent(m, e, ts)
    ensures StepEvent(m, e, ts)[k].events == m[k].events + Hits(e, ts, k)
    ensures StepEvent(m, e, ts)[k].name == m[k].name
    ensures StepEvent(m, e, ts)[k].fullName == m[k].fullName
    decreases |ts|
  {
    if |ts| > 0 {
      var ts' := ts[..|ts| - 1];
      KeySetSnoc(ts);
      StepEventEntry(m, e, ts', k);
      StepEventKeys(m, e, ts');
    }
  }

  /**
   * After counting every event, the keys are exactly the region keys, counts
   * agree with the event lists, each key holds the events credited to it in
   * event order, and the names are those of the first region with that key.
   */
  lemma {:induction false} AggregateShape(events: seq<Event>, ts: seq<Target>)
    ensures InitStats(ts).Keys == KeySet(ts)
    ensures Aggregate(events, ts).Keys == KeySet(ts)
    ensures CountsAgree(Aggregate(events, ts))
    ensures forall k :: k in KeySet(ts) ==> Aggregate(events, ts)[k].events == PerKey(events, ts, k)
    ensures forall k :: k in KeySet(ts) ==>
      Aggregate(events, ts)[k].name == InitStats(ts)[k].name &&
      Aggregate(events, ts)[k].fullName == InitStats(ts)[k].fullName
    decreases |events|
  {
    InitStatsKeys(ts);
    if |events| > 0 {
      var es := events[..|events| - 1];
      var e := events[|events| - 1];
      AggregateShape(es, ts);
      var m := CountAll(InitStats(ts), es, ts);
      StepEventKeys(m, e, ts);
      StepEventCounts(m, e, ts);
      forall k | k in KeySet(ts)
        ensures Aggregate(events, ts)[k].events == PerKey(events, ts, k)
        ensures Aggregate(events, ts)[k].name == InitStats(ts)[k].name
        ensures Aggregate(events, ts)[k].fullName == InitStats(ts)[k].fullName
      {
        StepEventEntry(m, e, ts, k);
      }
    } else {
      assert CountsAgree(InitStats(ts));
    }
  }

  /** With distinct keys, a region's key is credited once per event that matches that region. */
  lemma {:induction false} HitsDistinct(e: Event, ts: seq<Target>, j: nat)
    requires DistinctKeys(ts) && j < |ts|
    ensures Hits(e, ts, ts[j].key) == if Matches(e, ts[j]) then [e] else []
    decreases |ts|
  {
    var ts' := ts[..|ts| - 1];
    if j < |ts| - 1 {
      assert ts'[j] == ts[j];
      HitsDistinct(e, ts', j);
    } else {
      HitsNone(e, ts', ts[j].key);
    }
  }

  /** No region has key k, so nothing is credited to it. */
  lemma {:induction false} HitsNone(e: Event, ts: seq<Target>, k: string)
    requires forall i :: 0 <= i < |ts| ==> ts[i].key != k
    ensures Hits(e, ts, k) == []
    decreases |ts|
  {
    if |ts| > 0 {
      HitsNone(e, ts[..|ts| - 1], k);
    }
  }

  /** With distinct keys, a region's credited events are the events that match it, in order. */
  lemma {:induction false} PerKeyDistinct(events: seq<Event>, ts: seq<Target>, j: nat)
    requires DistinctKeys(ts) && j < |ts|
    ensures PerKey(events, ts, ts[j].key) == Seqs.Filter(events, e => Matches(e, ts[j]))
    decreases |events|
  {
    if |events| > 0 {
      PerKeyDistinct(events[..|events| - 1], ts, j);
      HitsDistinct(events[|events| - 1], ts, j);
    }
  }

  /**
   * The aggregator over regions with distinct keys: one entry per region,
   * holding exactly the events that match it, in input order, with the count
   * equal to their number.
   */
  lemma AggregateDistinct(events: seq<Event>, ts: seq<Target>, j: nat)
    requires DistinctKeys(ts) && j < |ts|
    ensures ts[j].key in Aggregate(events, ts)
    ensures Aggregate(events, ts)[ts[j].key] ==
      var hit := Seqs.Filter(events, e => Matches(e, ts[j]));
      Stats(|hit|, hit, ts[j].name, ts[j].fullName)
  {
    AggregateShape(events, ts);
    InitStatsFirst(ts, j);
    PerKeyDistinct(events, ts, j);
    assert ts[j].key in KeySet(ts);
  }

  /** One event that matches two regions is counted in both. */
  lemma CountedInEvery(events: seq<Event>, ts: seq<Target>, n: nat, i: nat, j: nat)
    requires DistinctKeys(ts) && n < |events| && i < |ts| && j < |ts|
    requires Matches(events[n], ts[i]) && Matches(events[n], ts[j])
    ensures ts[i].key in Aggregate(events, ts) && ts[j].key in Aggregate(events, ts)
    ensures events[n] in Aggregate(events, ts)[ts[i].key].events
    ensures events[n] in Aggregate(events, ts)[ts[j].key].events
  {
    FilterKeeps(events, ts, n, i);
    FilterKeeps(events, ts, n, j);
  }

  lemma FilterKeeps(events: seq<Event>, ts: seq<Target>, n: nat, i: nat)
    requires DistinctKeys(ts) && n < |events| && i < |ts| && Matches(events[n], ts[i])
    ensures ts[i].key in Aggregate(events, ts)
    ensures events[n] in Aggregate(events, ts)[ts[i].key].events
  {
    AggregateDistinct(events, ts, i);
    var p := e => Matches(e, ts[i]);
    assert p(events[n]);
    assert events[n] in Seqs.Filter(events, p);
  }

  /** Every credited event is one of the input events. */
  lemma {:induction false} PerKeyFromEvents(events: seq<Event>, ts: seq<Target>, k: string)
    ensures forall x :: x in PerKey(events, ts, k) ==> x in events
    decreases |events|
  {
    if |events| > 0 {
      var es := events[..|events| - 1];
      PerKeyFromEvents(es, ts, k);
      HitsOnlyE(events[|events| - 1], ts, k);
    }
  }

  lemma {:induction false} HitsOnlyE(e: Event, ts: seq<Target>, k: string)
    ensures forall x :: x in Hits(e, ts, k) ==> x == e
    decreases |ts|
  {
    if |ts| > 0 {
      HitsOnlyE(e, ts[..|ts| - 1], k);
    }
  }

  /** The first loop of `calculateRegionStats`: an entry for every region key not yet present. */
  method InitLoop(ts: seq<Target>) returns (m: map<string, Stats>)
    ensures m == InitStats(ts)
  {
    m := map[];
    var i := 0;
    while i < |ts|
      invariant 0 <= i <= |ts|
      invariant m == InitStats(ts[..i])
    {
      assert ts[..i + 1][..i] == ts[..i];
      if ts[i].key !in m {
        m := m[ts[i].key := NewStats(ts[i])];
      }
      i := i + 1;
    }
    assert ts[..i] == ts;
  }

  /** The inner loop: one event tested against every region, each match raising the count and appending the event. */
  method StepLoop(m0: map<string, Stats>, e: Event, ts: seq<Target>) returns (m: map<string, Stats>)
    ensures m == StepEvent(m0, e, ts)
  {
    m := m0;
    var k := 0;
    while k < |ts|
      invariant 0 <= k <= |ts|
      invariant m == StepEvent(m0, e, ts[..k])
    {
      assert ts[..k + 1][..k] == ts[..k];
      var t := ts[k];
      if Matches(e, t) {
        m := Bump(m, t, e);
      }
      k := k + 1;
    }
    assert ts[..k] == ts;
  }

  /**
   * The loops of `calculateRegionStats`: an entry is created for every
   * region not yet present, then every event is tested against every region
   * and each match raises the count and appends the event.
   */
  method Tally(events: seq<Event>, ts: seq<Target>) returns (m: map<string, Stats>)
    ensures m == Aggregate(events, ts)
  {
    m := InitLoop(ts);
    var n := 0;
    while n < |events|
      invariant 0 <= n <= |events|
      invariant m == CountAll(InitStats(ts), events[..n], ts)
    {
      assert events[..n + 1][..n] == events[..n];
      m := StepLoop(m, events[n], ts);
      n := n + 1;
    }
    assert events[..n] == events;
  }
}
