# wanbei-knowledge-graph: the choropleth core and its data scripts, in Dafny

This project models the computational core of the 皖北 (northern Anhui)
knowledge-graph map pages. It also models the scripts that build their data files.

- The canvas map (map-canvas.js).
  - It classifies event counts into six colour buckets.
  - It tests points against GeoJSON polygons by ray casting.
  - It computes city outlines as bounding boxes.
  - It aggregates events per city, and in the detail view per district or county.
  - It splits city files into a city boundary and its districts and counties by adcode.
  - It keeps a view state `{centerX, centerY, zoom}`, changed by drag, wheel and auto-fit.
- The ECharts map (map-echarts.js). It uses the same classifier and a name-only aggregator.
- The interactive map (map-interactive.js). It has a bounds walker, a feature combiner and a chain of node filters.
- The Python scripts.
  - extract_data.py builds a name index and cross-joins relationships.
  - organize_data.py deduplicates graph exports by identity and categorises nodes by label.
  - Four boundary scripts select and label GeoJSON features.
- temp_map.js `getData`. It filters table rows and counts them by a column.

One Dafny module follows each source file. A few shared modules support them:

- `Wrappers`: an Option type.
- `Text`: substring tests, JavaScript first-occurrence `replace` and Python all-occurrence `replace`.
- `Seqs`: filters, flattening and counting.
- `Decimal`: `str()` of integers.
- `GeoJson`: features, geometries and properties.
- `Graph`: graph-export nodes.
- `BoundingBox`, `RayCasting`, `ColorScale`, `RegionStats`, `AdminCodes` and `MapView`: the six pieces of the canvas map.

The modelling choices below hold throughout.

- Coordinates are `real`.
- Names are `seq<char>`.
- A missing string property is `""` and a missing number is `0`, so JavaScript truthiness is `!= ""` and `!= 0.0`.
- The JavaScript `%` on adcodes is the truncated remainder (`GeoJson.JsRem`).
- Python `%` by a positive constant is Dafny's `%`.
- Code that updates state step by step is modelled as methods with loops and invariants:
  - the JavaScript globals become fields of the classes `CanvasMap.CanvasMap`, `EchartsMap.EchartsMap`, `InteractiveMap.InteractiveMap`, `TempMap.TempMap` and `MapView.MapView`;
  - each method is proved against a specification function;
  - lemmas prove the properties of those functions.

One place where the code and its usual description disagree:

- Features with missing or empty geometry are commonly said to be skipped.
- In map-canvas.js, `isPointInPolygon` and `calculateCityOutline` read `coordinates[0]` of a Polygon without a check, so a ring-less Polygon throws.
- A feature with a null geometry throws there too (map-canvas.js:623, 993 and 1159).
- The model follows the code: those members require every feature to have a geometry and every Polygon to have a ring (`GeoJson.RingsPresent`, `GeoJson.Drawable`, `geometry.Some?`). This error path is not modelled; "## Left out" lists it.
- map-interactive.js does skip features without geometry, and the model proves that (`InteractiveMap.SkipsMissingGeometry`).

## Model

| member | source | states |
|---|---|---|
| ColorScale.FirstCovering | map-canvas.js:87-96 | the scan returns the first entry whose half-open range covers the count, and no earlier entry covers it; none means no entry covers it |
| ColorScale.Classify | map-canvas.js:87-96 | the entry chosen is always one of the table's entries |
| ColorScale.GetColorByCount | map-canvas.js:87-96 | counts of 150 and more are '#FFD700'; negative counts fall through to the last entry; otherwise the colour is that of the entry covering the count |
| ColorScale.GetRangeLabel | map-canvas.js:1284-1293 | the label of the entry covering the count, the last entry's label for negative counts |
| ColorScale.OnlyOneCovers | map-canvas.js:34-41 | no two entries of the table cover the same count |
| ColorScale.BucketsPartition | map-canvas.js:34-41 | every non-negative count is covered by exactly one entry, and the edges 30/60/90/120/150 belong to the higher bucket |
| ColorScale.ColorAndLabelAgree | map-canvas.js:1284-1293 | colour and label of every count come from the same entry, the one a threshold-based reference definition names |
| RayCasting.PointInPolygon | map-canvas.js:1169-1179 | the toggling loop returns the parity of the crossing edges (even-odd rule); an empty ring gives false |
| RayCasting.IsPointInPolygon | map-canvas.js:1158-1167 | true exactly when some exterior ring (ring 0 of a Polygon, ring 0 of each MultiPolygon member) contains the point; false for other geometry types |
| RayCasting.HolesIgnored | map-canvas.js:1159-1160 | the holes of a Polygon never change the answer: only ring 0 decides |
| RayCasting.MultiPolygonIsUnion | map-canvas.js:1161-1164 | a MultiPolygon contains a point exactly when one of its members, read as a Polygon, does |
| BoundingBox.BoundingBoxUnique | map-canvas.js:641-650 | the enclosing and attained box of a list of positions is unique |
| BoundingBox.WidenIsBoundingBox | map-canvas.js:641-650 | one min/max step turns the box of ps into the box of ps + [p] |
| BoundingBox.ComputeBounds | map-canvas.js:641-650 | on a non-empty list the loop's box encloses every position and each bound is attained |
| BoundingBox.BoxRing | map-canvas.js:652-660 | the outline ring has five positions and is closed |
| BoundingBox.OutlineFeature | map-canvas.js:652-675 | the outline is a one-ring Polygon on the box ring |
| BoundingBox.CalculateCityOutline | map-canvas.js:617-675 | null exactly when the features have no exterior-ring position; otherwise the box of all exterior-ring positions, with the outline feature and the input features |
| BoundingBox.OuterCoordsCover | map-canvas.js:622-638 | every exterior-ring position of every feature is collected |
| BoundingBox.BoxContainment | map-canvas.js:1169-1179 | for the outline ring of a box, the ray-casting test holds exactly when minLng <= lng < maxLng and minLat <= lat < maxLat |
| RegionStats.InitStatsKeys | map-canvas.js:104-111 | before counting there is exactly one entry per region key, with count 0 and no events |
| RegionStats.InitStatsFirst | map-canvas.js:153-160 | a key's entry is named after the first region with that key |
| RegionStats.StepEventCounts | map-canvas.js:136-139 | counting one event keeps every entry's count equal to the length of its event list |
| RegionStats.StepEventEntry | map-canvas.js:120-140 | one event appends itself to an entry once per region of that key it matches, and keeps its names |
| RegionStats.AggregateShape | map-canvas.js:99-141 | after counting, the keys are the region keys, count = number of events for each key, and each key's events are the matching events in event order |
| RegionStats.HitsDistinct | map-canvas.js:120-140 | with distinct keys, an event is credited to a region exactly when it matches it |
| RegionStats.PerKeyDistinct | map-canvas.js:114-141 | with distinct keys, a region's events are the filtered events that match it, in order |
| RegionStats.AggregateDistinct | map-canvas.js:114-141 | with distinct keys, each entry is the region's names with the matching events and their number |
| RegionStats.CountedInEvery | map-canvas.js:120-140 | an event that matches two regions is counted in both: the loop does not stop at the first match |
| RegionStats.PerKeyFromEvents | map-canvas.js:114-141 | every counted event is one of the input events |
| RegionStats.Tally | map-canvas.js:99-202 | the nested forEach loops, starting from {}, compute the aggregate |
| RegionStats.InitLoop | map-canvas.js:104-111 | the first forEach gives every target a zero count, no events, and its two names |
| RegionStats.StepLoop | map-canvas.js:120-140 | the inner forEach counts and appends one event under exactly the targets it matches |
| CanvasMap.FindCity | map-canvas.js:1152 | `WANBEI_CITIES.find` by key: a found city has that key, none means no city has it |
| CanvasMap.CityKeysDistinct | map-canvas.js:24-31 | the six city keys are pairwise different |
| CanvasMap.FindCityByKey | map-canvas.js:24-31 | looking a city up by its own key finds that city |
| CanvasMap.OverviewTargets | map-canvas.js:120-134 | one target per city, in `WANBEI_CITIES` order, with its outline and its names |
| CanvasMap.DetailTargets | map-canvas.js:148-185 | one target per feature of the city, keyed by its name with the first 市, 县 and 区 removed |
| CanvasMap.OverviewKeys | map-canvas.js:102-111 | in the overview the statistics' keys are exactly the six city keys |
| CanvasMap.OverviewStats | map-canvas.js:102-141 | in the overview each city holds exactly the events inside its outline or whose region text names it, in event order, with their count and the city's names |
| CanvasMap.OverviewInsideBox | map-canvas.js:124-128 | the coordinate test of a city is: truthy coordinates with minLng <= lng < maxLng and minLat <= lat < maxLat of its outline |
| CanvasMap.DetailStats | map-canvas.js:143-200 | the detail view is {} when the city has no outline; otherwise one entry per normalised feature name, holding the events that match a feature of that key |
| CanvasMap.DetailEventCounted | map-canvas.js:1313-1328 | an event passing the `showCityDetail` filter of a city also matches that city in the overview |
| CanvasMap.DetailEventsInOverview | map-canvas.js:1313-1328 | the events of the detail view are among the city's overview events |
| CanvasMap.ApplyFilterCounted | map-canvas.js:1210-1222 | the region filter of `applyFilters` for one of the six cities implies the overview name match |
| CanvasMap.GroupIndex | map-canvas.js:825-828 | the position of the group of a key, and no earlier group has that key |
| CanvasMap.GroupsKeys | map-canvas.js:819-832 | the groups have distinct keys, and every feature with a known city name has a group |
| CanvasMap.GroupsFilter | map-canvas.js:819-832 | each group holds exactly its city's features, in file order, so no group is empty |
| CanvasMap.GroupsFrom | map-canvas.js:819-832 | every grouped feature comes from the file and has a known city name |
| CanvasMap.GroupFeatures | map-canvas.js:818-832 | the grouping forEach computes the groups |
| CanvasMap.BuildEntry | map-canvas.js:847-925 | the `cityOutlines` entry of a group: its outline (when any), its city feature and its county features |
| CanvasMap.BuildOutlines | map-canvas.js:837-950 | the loop over the groups fills one entry per group and the boundary list for the current view |
| CanvasMap.EntryForUnique | map-canvas.js:913-925 | the entry of a group is determined by the group |
| CanvasMap.LoadedUnique | map-canvas.js:783-979 | loading the same merged file twice gives the same outlines and boundaries |
| CanvasMap.OutlinesUnique | map-canvas.js:783-979 | two outline maps holding the entry of every group are equal |
| CanvasMap.CountyBoundaries | map-canvas.js:1386-1392 | the cached county features become non-outline boundaries of the city, in order |
| CanvasMap.CityLoadCached | map-canvas.js:1500-1503 | once a city's counties were loaded, loading it again uses the cache and gives the same boundaries |
| CanvasMap.EventsOf | map-canvas.js:577-614 | `combined.events` when present, otherwise the nodes with a label containing 事件 |
| CanvasMap.CanvasMap.CalculateRegionStats | map-canvas.js:99-202 | `regionStats` is rebuilt from {} for the current view and the filtered events |
| CanvasMap.CanvasMap.LoadBoundaries | map-canvas.js:783-979 | after loading, the outlines and boundaries are those of the merged file for the current city |
| CanvasMap.CanvasMap.LoadCityBoundaries | map-canvas.js:1374-1512 | the boundaries become the city's counties (from the cache, or from its file without real city boundaries), and the cache is updated |
| CanvasMap.CachedBoundaries | map-canvas.js:1384-1395 | the cached county features become the boundaries, one per feature in order, all with a geometry |
| CanvasMap.DetailBoundaries | map-canvas.js:1444-1498 | the boundaries are the file's features other than real city boundaries, relabelled, in file order, all with a geometry |
| CanvasMap.CanvasMap.ApplyFilters | map-canvas.js:1204-1228 | without a current city nothing changes; otherwise the events are filtered by region and type and the statistics recounted |
| CanvasMap.CanvasMap.ShowCityDetail | map-canvas.js:1296-1345 | the city becomes current, its events are filtered, its counties loaded, the statistics recounted and the view fitted |
| CanvasMap.CanvasMap.BackToTilesView | map-canvas.js:1353-1370 | every event again, the merged boundaries reloaded, the overview statistics recounted and the view fitted |
| CanvasMap.CanvasMap.LoadData | map-canvas.js:577-614 | a missing data file changes nothing; otherwise the events are taken from it, the boundaries loaded, the statistics counted and the view fitted |
| CanvasMap.CanvasMap.ShowData | map-canvas.js:587-604 | the events are taken from the data, all of them shown, the merged file loaded and the statistics counted for the current city |
| CanvasMap.CanvasMap.ShowOverview | map-canvas.js:1353-1368 | no city is current, every event shown, the merged file loaded and the overview statistics counted |
| AdminCodes.CityLabel | map-canvas.js:874-882 | the chosen city feature gets level/type city, 级别 市, the city name and isCityBoundary, keeping its adcode |
| AdminCodes.SubLabel | map-canvas.js:886-896 | remainder 2..19 gives district, 21..29 county, anything else leaves the feature as it is |
| AdminCodes.FirstCity | map-canvas.js:858-875 | the first feature passing the city test, and none before it passes |
| AdminCodes.SubLabelAll | map-canvas.js:884-898 | the other features, each labelled by remainder, in order |
| AdminCodes.SplitLoopSpec | map-canvas.js:858-899 | the loop makes the first passing feature the city and labels every other feature by remainder; with no passing feature all are labelled |
| AdminCodes.SplitLoopHere | map-canvas.js:858-899 | when the last feature is the first to pass, it becomes the city after the others labelled by remainder |
| AdminCodes.SplitLoopNone | map-canvas.js:858-899 | with no passing feature, one more feature is labelled by remainder |
| AdminCodes.SplitCityFeaturesSpec | map-canvas.js:853-911 | a city feature exists exactly when the group is non-empty; without a passing feature features[0] is used and stays among the county features |
| AdminCodes.CityLabelAbsorbs | map-canvas.js:901-911 | relabelling as the city after a remainder label is relabelling as the city |
| AdminCodes.SplitDrawable | map-canvas.js:858-911 | the split never touches a geometry |
| AdminCodes.SubLabelIdempotent | map-canvas.js:886-896 | labelling by remainder twice is labelling once |
| AdminCodes.DetailLabel | map-canvas.js:1459-1487 | the `loadCityBoundaries` labelling keeps adcode and the boundary flag |
| AdminCodes.DetailRelabel | map-canvas.js:1459-1487 | relabelling a kept feature in place keeps its geometry and adcode and gives it the properties of `DetailLabel` |
| AdminCodes.DetailFeaturesSpec | map-canvas.js:1451-1494 | the county/district list of a city file is exactly the file's features that are not a real city boundary, each relabelled, in file order |
| AdminCodes.DetailFeaturesMembers | map-canvas.js:1451-1494 | every feature that is not a real city boundary appears relabelled, and every listed feature is such a feature relabelled, with its geometry and adcode |
| AdminCodes.DetailFeaturesKeep | map-canvas.js:1451-1498 | no kept feature is a real city boundary (adcode % 100 = 0 and % 10000 != 0); a file without one is kept whole with its geometry; one with a city boundary loses it |
| AdminCodes.DetailLabelLevels | map-canvas.js:1461-1487 | remainder 2..19 district, 21..29 county, other non-zero remainders by name with 区 before 县, remainder 0 unchanged |
| AdminCodes.DistrictRename | map-canvas.js:1467-1469 | a district name ending in 区 or 县 is kept; otherwise its first 市 becomes 区 |
| MapView.ScalePositive | map-canvas.js:69-84 | a positive zoom on a canvas of positive size gives a positive scale |
| MapView.ProjectionRoundTrip | map-canvas.js:69-84 | canvasToGeo undoes geoToCanvas exactly |
| MapView.InverseRoundTrip | map-canvas.js:69-84 | geoToCanvas undoes canvasToGeo exactly |
| MapView.CenterAtCanvasCenter | map-canvas.js:69-77 | the view centre is drawn at the canvas centre |
| MapView.DragUndo | map-canvas.js:1072-1078 | a drag leaves the zoom unchanged and the opposite drag restores the centre |
| MapView.DragsCompose | map-canvas.js:1072-1078 | two drags in a row are one drag by the summed offsets |
| MapView.Clamp | map-canvas.js:1124 | the clamped zoom lies in [lo, hi] and equals z when z already does |
| MapView.WheelZooms | map-canvas.js:1121-1124 | a wheel step sets the zoom to the clamped product of 0.9 or 1.1 |
| MapView.WheelClamps | map-canvas.js:1121-1124 | the zoom after a wheel step lies in [0.1, 5.0]; scrolling down never zooms in and scrolling up never zooms out |
| MapView.AnchoredWheelFixesPoint | map-canvas.js:1119-1129 | the corrected wheel step keeps the geographic point under the cursor in place |
| MapView.WheelAnchoredAtThousand | map-canvas.js:1128-1129 | the step as written keeps the point only when the draw scale's half side is 1000 |
| MapView.WheelDrifts | map-canvas.js:1128-1129 | on an 800 by 800 canvas at the initial view, one step down with the cursor on the left edge moves the point under it by 2/3 of a degree of longitude |
| MapView.FitKeepsBoxVisible | map-canvas.js:1015-1046 | at the fitted view, every point of the box projects into the middle 4/7 of each canvas side, unless the unclamped zoom is below 0.1 |
| MapView.FitAtZoom | map-canvas.js:1015-1046 | centred on the box, any zoom no larger than both per-axis fit zooms keeps every point of the box in the middle 4/7 of each side |
| MapView.MapView.Drag | map-canvas.js:1072-1083 | the drag branch applies the pure drag to the view state |
| MapView.MapView.Wheel | map-canvas.js:1113-1132 | the wheel handler applies the wheel step as written: the cursor point of the old view, the clamped zoom, and the centre put back with zoom·1000 pixels per degree; the zoom stays in [0.1, 5] |
| MapView.MapView.AdjustViewToData | map-canvas.js:982-1057 | no coordinates leave the view untouched; otherwise the centre is the all-vertex box midpoint and the zoom the fit zoom clamped to [0.1, 2.0] |
| MapView.CoordsBox | map-canvas.js:989-1013 | the running Math.min/Math.max over every position of every boundary is their bounding box, and absent exactly when there is no position |
| MapView.WidenBy | map-canvas.js:994-1013 | the recursive vertex walk extends the running box of the positions seen |
| EchartsMap.GetColorByCount | map-echarts.js:32-41 | the colour is one of the table's colours |
| EchartsMap.GetRangeLabel | map-echarts.js:44-53 | the label is one of the table's labels |
| EchartsMap.SameClassifier | map-echarts.js:22-53 | the ECharts page uses the same cities and classifies and labels every count as the canvas map does |
| EchartsMap.NameTargets | map-echarts.js:70-80 | one name-only target per city, in order |
| EchartsMap.EchartsStatsKeys | map-echarts.js:56-81 | the statistics' keys are exactly the six city keys, whatever the events |
| EchartsMap.EchartsStatsShape | map-echarts.js:56-81 | each city holds exactly the events whose region text contains its key or full name, in order, with their count and the city's names |
| EchartsMap.DetailCountsAll | map-echarts.js:162-195 | after `showCityDetail(k)` the count of k equals the number of filtered events: the filter is the match predicate of k |
| EchartsMap.ScatterIsFiltered | map-echarts.js:323-335 | the scatter points are the points of exactly the events with truthy coordinates, in order |
| EchartsMap.EchartsMap.CalculateRegionStats | map-echarts.js:56-81 | `regionStats` is the name-only aggregate of the filtered events |
| EchartsMap.EchartsMap.LoadData | map-echarts.js:84-111 | a missing or malformed file changes nothing; otherwise every event is shown and counted |
| EchartsMap.EchartsMap.ShowCityDetail | map-echarts.js:162-195 | the events naming the city, recounted, with the city's count equal to their number |
| EchartsMap.EchartsMap.BackToTilesView | map-echarts.js:376-396 | every event again, with the same statistics as after loading |
| InteractiveMap.FeaturesOf | map-interactive.js:33 | a plain Feature is a one-element collection; a collection without features has none |
| InteractiveMap.CoordsAppend | map-interactive.js:33-40 | the coordinates of consecutive parts of the feature list are concatenated |
| InteractiveMap.CoordsMembership | map-interactive.js:24-40 | every collected pair comes from one feature's geometry, and every pair of every ring of every feature is collected |
| InteractiveMap.SkipsMissingGeometry | map-interactive.js:34-35 | a null feature or one without geometry contributes nothing |
| InteractiveMap.SingleAsCollection | map-interactive.js:33 | a plain Feature has the coordinates of the collection holding only it |
| InteractiveMap.GetFeatureBounds | map-interactive.js:21-50 | null exactly when no coordinate pair is found; otherwise the box encloses every pair at any depth and attains each bound |
| InteractiveMap.CityFileKeysDistinct | map-interactive.js:12-19 | the six city files have distinct keys |
| InteractiveMap.MemberFeatures | map-interactive.js:64-67 | `gj.features` of a collection, none for a plain Feature |
| InteractiveMap.MemberLists | map-interactive.js:64-67 | one feature list per fetched file, in `cityFiles` order |
| InteractiveMap.DefaultBounds | map-interactive.js:79-93 | the fallback boundary's bounds are the extremes of its ring |
| InteractiveMap.DefaultRingBounds | map-interactive.js:79-93 | the fallback ring spans longitudes 114.5 to 118.0 and latitudes 32.0 to 34.5 |
| InteractiveMap.Parsed | map-interactive.js:59-62 | when every fetch succeeded, the parsed files in order |
| InteractiveMap.CityFeatureCombined | map-interactive.js:64-67 | a feature of one city file is a feature of the combined boundary |
| InteractiveMap.CombinedFeatureFromCity | map-interactive.js:64-67 | every feature of the combined boundary comes from one of the city files |
| InteractiveMap.FilterNodesSpec | map-interactive.js:292-319 | the three filters in a row keep exactly the nodes passing all three, in order |
| InteractiveMap.FilterNodesMembership | map-interactive.js:292-319 | a node is shown iff it passes the dataset, type and city tests, and the output is no longer than the input |
| InteractiveMap.AllShowsEverything | map-interactive.js:295-312 | with every filter at 'all' the whole node list is shown |
| InteractiveMap.UnknownTypeKeepsAll | map-interactive.js:302-309 | a type other than event, person and location keeps every node |
| InteractiveMap.CityWithoutBoundsSkipped | map-interactive.js:312-319 | a city without bounds skips the city filter |
| InteractiveMap.Fetched | map-interactive.js:54-62 | true exactly when every fetch succeeded |
| InteractiveMap.Combine | map-interactive.js:64-67 | the flatMap concatenates the files' features in order |
| InteractiveMap.BuildCities | map-interactive.js:70-77 | one entry per city key, with the file's features and their bounds |
| InteractiveMap.CityLoadedKept | map-interactive.js:70-77 | storing a later city under its own key leaves an earlier city's entry in place, the six keys being distinct |
| InteractiveMap.InteractiveMap.LoadBoundaries | map-interactive.js:52-94 | a failed fetch sets the default boundary and no cities; otherwise the combined collection and one entry per city |
| InteractiveMap.InteractiveMap.LoadData | map-interactive.js:165-180 | the nodes of the file become the current nodes |
| InteractiveMap.InteractiveMap.ApplyFilters | map-interactive.js:285-323 | nothing without data; otherwise the current nodes passing the three filters, in order |
| ExtractData.NodeMapSpec | extract_data.py:86-95 | a name is a key iff a node has it; each key maps to the nodes with that name, in input order |
| ExtractData.NodeMapKeys | extract_data.py:86-95 | a name is a key of the index iff some node carries it |
| ExtractData.NodeMapLists | extract_data.py:86-95 | each key maps to the non-empty list of the nodes with that name, in input order |
| ExtractData.BuildNodeMap | extract_data.py:86-95 | the loop computes the name index |
| ExtractData.Row | extract_data.py:113-120 | one source node is linked to each target node in turn |
| ExtractData.CrossLength | extract_data.py:112-120 | the cross-join has |sources|·|targets| entries |
| ExtractData.CrossAt | extract_data.py:112-120 | entry i·|targets| + j links source i to target j: source-major order |
| ExtractData.CrossMembers | extract_data.py:112-120 | every entry links a source node to a target node |
| ExtractData.ResolveOneCount | extract_data.py:102-120 | a relationship with both names present yields exactly |map[s]|·|map[t]| entries, otherwise none |
| ExtractData.ResolvedEndpoints | extract_data.py:97-122 | every entry's source and target are ids of nodes named source_name and target_name |
| ExtractData.LinkRow | extract_data.py:113-120 | the innermost loop computes one row |
| ExtractData.LinkCross | extract_data.py:112-120 | the two inner loops compute the cross-join |
| ExtractData.ResolveRelationships | extract_data.py:97-122 | the loops compute the resolved list |
| ExtractData.ExtractDataFromFile | extract_data.py:124-159 | a missing file gives None; otherwise the nodes, resolved relationships and summary counts equal to the list lengths |
| ExtractData.CategoryExact | extract_data.py:136-139 | a category holds exactly the nodes whose labels include the label itself |
| ExtractData.CombinedSummarySum | extract_data.py:209-231 | the combined summary is the sum of the per-dataset summaries |
| ExtractData.PresentMembers | extract_data.py:210-213 | `all_data['datasets']` holds a dataset iff its file was processed, and it is shorter than the dataset list by the number of missing files |
| ExtractData.CombineDatasets | extract_data.py:209-231 | the loop appends every dataset that was found to `all_data['datasets']`, in order (`Present`), extends the combined lists with each, and computes the combined summary |
| ExtractData.FirstExisting | extract_data.py:179-183 | the first candidate file that exists, or none |
| ExtractData.FindDatasets | extract_data.py:166-195 | each of the three datasets once at most, in this order, each with a file that exists |
| OrganizeData.NodeIdInjective | organize_data.py:143-144 | under one prefix, different identities give different ids |
| OrganizeData.DedupSpec | organize_data.py:139-160 | deduplication keeps the first node of each identity, once, with distinct ids |
| OrganizeData.DedupKeys | organize_data.py:139-160 | the deduplicated map has exactly the identities that occur |
| OrganizeData.DedupFirst | organize_data.py:139-160 | each identity maps to the node made from its first occurrence |
| OrganizeData.DedupList | organize_data.py:139-160 | the node list holds exactly the mapped nodes, with pairwise distinct ids |
| OrganizeData.DedupTwo | organize_data.py:139-160 | the start node is offered before the end node |
| OrganizeData.FeishuiIndex | organize_data.py:124-174 | the 淝水 nodes are the path endpoints of the segment items deduplicated by identity in first-seen order |
| OrganizeData.FeishuiClosed | organize_data.py:163-172 | every 淝水 relationship joins two identities that have a node |
| OrganizeData.FeishuiNodes | organize_data.py:139-160 | the 淝水 nodes have id 'feishui_' + identity, once each, and every relationship names emitted ids |
| OrganizeData.FeishuiRels | organize_data.py:163-172 | one relationship per 'p' item with non-empty segments, in order |
| OrganizeData.ProcessFeishuiJson | organize_data.py:124-174 | the loop produces those nodes and relationships, with distinct ids and closed endpoints |
| OrganizeData.ShuangduijiIndex | organize_data.py:184-210 | the 双堆集 nodes are its 'n' and 'm' nodes deduplicated by identity in first-seen order |
| OrganizeData.ShuangduijiRels | organize_data.py:213-222 | one relationship per element with an 'r' part, in order |
| OrganizeData.ShuangduijiNodes | organize_data.py:184-210 | ids 'shuangduiji_' + identity, once each, first occurrence wins |
| OrganizeData.ShuangduijiDangling | organize_data.py:213-222 | a relationship whose endpoints were never emitted is still kept |
| OrganizeData.ProcessShuangduijiJson | organize_data.py:176-224 | the loop produces those nodes and relationships, with distinct ids |
| OrganizeData.ProcessCsv | organize_data.py:226-327 | one node per row, in order |
| OrganizeData.CsvFallbackDistinct | organize_data.py:250 | rows without an id column get distinct ids 'event_' + index |
| OrganizeData.CsvNodes | organize_data.py:441-466 | a missing table adds no node |
| OrganizeData.DatasetsAppend | organize_data.py:368-439 | extending by one dataset appends its nodes and relationships |
| OrganizeData.CollectDatasets | organize_data.py:368-439 | the three graph datasets, each appended and its lists extended |
| OrganizeData.ExtendByTable | organize_data.py:441-466 | an existing table's nodes extend the combined nodes |
| OrganizeData.Organize | organize_data.py:346-502 | the datasets and the combined categorisation of all nodes |
| OrganizeData.CategoriseSpec | organize_data.py:489-502 | a node is an event (person, place, time) iff some label contains 事件 (人物, 地点, 时间); every summary count is its list's length |
| OrganizeData.SeveralCategories | organize_data.py:489-492 | a node labelled 事件 and 人物 is in both categories |
| OrganizeData.ExactNodesCategorised | organize_data.py:489 | every node with the exact label 事件 is a combined event |
| OrganizeData.CsvEventsCategorised | organize_data.py:441-450 | every CSV event node is a combined event |
| ProcessBoundaries.AsCity | download_and_process_boundaries.py:71-79 | the city feature gets its name, type, 级别 and level, and keeps its codes |
| ProcessBoundaries.FirstCandidate | download_and_process_boundaries.py:57-69 | the first feature passing the city test, and none before it |
| ProcessBoundaries.CityPickSpec | download_and_process_boundaries.py:43-99 | None for a non-collection or no features; otherwise the first candidate, or features[0] when its parent is city-level |
| ProcessBoundaries.AfterCity | download_and_process_boundaries.py:71-97 | the features after the chosen one's properties were rewritten, no fewer |
| ProcessBoundaries.CityOf | download_and_process_boundaries.py:43-99 | a city is returned exactly when one was chosen |
| ProcessBoundaries.FindCandidate | download_and_process_boundaries.py:57-69 | the loop up to its break finds the first candidate |
| ProcessBoundaries.ExtractCityBoundary | download_and_process_boundaries.py:43-99 | the method computes the rewritten features and the city |
| ProcessBoundaries.CountiesAreKept | download_and_process_boundaries.py:109-146 | the county list is the kept features, in order, each relabelled |
| ProcessBoundaries.CityNotKept | download_and_process_boundaries.py:111-112 | the city feature itself is never kept |
| ProcessBoundaries.CountyLabelRules | download_and_process_boundaries.py:132-142 | 县 takes precedence over 区; a district name not ending in 区 loses every 市; neither leaves the feature |
| ProcessBoundaries.AfterCounty | download_and_process_boundaries.py:109-146 | the features after the kept ones were relabelled in place |
| ProcessBoundaries.NoCountyNoRelabel | download_and_process_boundaries.py:165-170 | when nothing is kept nothing was relabelled |
| ProcessBoundaries.ExtractCountyFeatures | download_and_process_boundaries.py:101-146 | the loop computes the relabelled features and the county list |
| ProcessBoundaries.LabelFeatures | download_and_process_boundaries.py:185-226 | at most one feature, the first candidate, is marked the city; every other is labelled district, county or left |
| ProcessBoundaries.DistrictNameEnds | download_and_process_boundaries.py:214-221 | a district name ends in 区 unless it already held one |
| ProcessBoundaries.DistrictBeforeCounty | download_and_process_boundaries.py:209-222 | a name with both 区 and 县 is a district |
| ProcessBoundaries.WithFallback | download_and_process_boundaries.py:168-170 | without county features, every feature except the city boundary |
| ProcessBoundaries.ProcessCityData | download_and_process_boundaries.py:148-236 | a failed download gives nothing; otherwise the city, the counties with the fallback, and the labelled features |
| WanbeiCities.LookupCode | extract_wanbei_cities.py:47 | a code has a city exactly when it is one of the six codes |
| WanbeiCities.ByName | extract_wanbei_cities.py:58-63 | the first city in table order whose name the feature's name contains; none when it contains none |
| WanbeiCities.WanbeiTest | extract_wanbei_cities.py:43-63 | kept iff an adcode test passes or the name contains one of the six names; the adcode wins |
| WanbeiCities.SubregionCode | extract_wanbei_cities.py:49-55 | for a six-digit code the prefix test asks whether the code rounded down to hundreds is a city code |
| WanbeiCities.Found | extract_wanbei_cities.py:64-68 | the cities found are among the six |
| WanbeiCities.FoundSpec | extract_wanbei_cities.py:64-68 | a city is found iff some feature was attributed to it |
| WanbeiCities.ExtractWanbeiCities | extract_wanbei_cities.py:34-68 | the loop keeps exactly the wanbei features, in order, and collects their cities |
| CityBoundaries.ExtractCityBoundary | extract_city_boundaries.py:17-22 | the first feature flagged isCityBoundary or at level city; None iff there is none |
| CityBoundaries.Collected | extract_city_boundaries.py:35-49 | at most one feature per city file |
| CityBoundaries.CollectedSpec | extract_city_boundaries.py:35-49 | every collected feature is a boundary; all files contribute iff each has one |
| CityBoundaries.CollectedStep | extract_city_boundaries.py:35-49 | one more city appends at most its boundary, in that order |
| CityBoundaries.CollectBoundaries | extract_city_boundaries.py:26-55 | a FeatureCollection of exactly the collected features, at most six |
| SixCities.MissingCities | extract_six_cities_from_anhui.py:42 | a city is missing iff it is one of the six and was not found |
| SixCities.AsWrittenWarning | extract_six_cities_from_anhui.py:41-44 | the warning is the missing set only when the number kept is not six |
| SixCities.DuplicateMasksMissing | extract_six_cities_from_anhui.py:41-44 | six features with 蚌埠市 twice and no 宿州市 give no warning, though 宿州市 is missing |
| SixCities.NoWarningIffAllFound | extract_six_cities_from_anhui.py:42-43 | the missing set is empty iff every one of the six was found |
| SixCities.DuplicatesKept | extract_six_cities_from_anhui.py:32-39 | every feature named after a city is kept, duplicates included, in order |
| SixCities.ExtractSixCities | extract_six_cities_from_anhui.py:29-44 | the loop keeps the features named after the six, in order; found lists their names; missing is the set difference, computed every time, while the source computes it only when the count is not six — that condition is `SixCities.AsWrittenWarning`, and `missing` only feeds a print |
| TempMap.KeyOrderDistinct | temp_map.js:180-186 | each counted key is listed once |
| TempMap.KeyOrderKeys | temp_map.js:180-186 | the listed keys are exactly the keys counted |
| TempMap.CountsAreCounts | temp_map.js:180-186 | name[key] is the number of kept rows whose column n equals key |
| TempMap.CountsSpec | temp_map.js:180-186 | the counts and their first-seen key order together |
| TempMap.DisplayName | temp_map.js:190-194 | for column 5 the first 市 is dropped; any other column keeps the key |
| TempMap.SeriesTotal | temp_map.js:187-198 | the values of the series sum to the counts of the non-empty keys |
| TempMap.SumCountsRows | temp_map.js:180-189 | those counts add up to the rows with a non-empty key |
| TempMap.SumCountsRow | temp_map.js:180-189 | one more row raises the sum of the counts by one exactly when its key is not empty |
| TempMap.SeriesSumsRows | temp_map.js:170-199 | the values sum to the number of kept rows with a non-empty column-n key |
| TempMap.SeriesEntries | temp_map.js:187-198 | each entry is a non-empty key with its count |
| TempMap.KeepRows | temp_map.js:174-179 | the rows matching every set filter, in order |
| TempMap.CountRows | temp_map.js:180-186 | the counting loop computes the counts and their key order |
| TempMap.BuildSeries | temp_map.js:187-198 | the loop builds one entry per non-empty key |
| TempMap.TempMap.GetData | temp_map.js:170-200 | `seriesData` is replaced by the series of the kept rows |
| Text.ContainsChar | map-canvas.js:1477-1481 | a one-character needle occurs iff the character is in the string |
| Text.StartsWithContains | extract_wanbei_cities.py:60 | startswith implies contains |
| Text.ReplaceFirst | map-canvas.js:1468 | JavaScript `replace`: only the first occurrence changes |
| Text.ReplaceAll | download_and_process_boundaries.py:141 | Python `replace`: every occurrence changes |
| Decimal.NatToStringInjective | extract_wanbei_cities.py:45 | different numbers have different decimal spellings |
| Decimal.PrefixFourDigits | extract_wanbei_cities.py:50-52 | the first four digits + '00' spell the number rounded down to hundreds |
| Seqs.FilterAppend | map-interactive.js:292-319 | filtering a concatenation filters each part |
| Seqs.FilterFilter | map-interactive.js:292-319 | two filters in a row keep what satisfies both |
| Seqs.FlattenMembership | map-interactive.js:64-67 | an element of the concatenation comes from one of the parts, and vice versa |

## Left out

- Rendering is left out: Canvas 2D drawing, tooltips, alerts, the tile DOM, ECharts options and Leaflet layers. These are foreign library calls with no stated behaviour.
- `fetch`, file reads and `json.dump` are left out. Fetched files are parameters: `Option` for a failed fetch, already parsed.
- The asynchronous ordering of loads is not modelled. Overlapping `showCityDetail`/`backToTilesView` loads are concurrency.
- Floating point is left out. Coordinates are reals, with no NaN, Infinity or rounding. The `Infinity` sentinel of `adjustViewToData` becomes the "no coordinates" case.
- Object aliasing is not modelled. Shared Feature objects become property values, not identities.
- The cypher regex parsing, the `float()`/`int()` coercions, the `import_time` stamps and the CSV relationship files are left out.
- Geometries other than Polygon and MultiPolygon carry no coordinates in the model, so Point and LineString are not walked by `getFeatureBounds` or `adjustViewToData`.
- `isPointInPolygon` and the outline code throw on a Polygon without rings. The model requires `RingsPresent`/`Drawable` there.
- A feature with a null geometry also throws in map-canvas.js: `geom.type` at line 623, `boundary.feature.geometry.coordinates` at line 993, and `geometry.type` at line 1159, reached from the detail match at line 179. The model does not capture this error path. `GeoJson.Drawable` and the `geometry.Some?` requires of `CanvasMap.DetailFeaturesGeometry`, `CanvasMap.CachedBoundaries`, `CanvasMap.DetailBoundaries`, `MapView.MapView.AdjustViewToData`, `MapView.CoordsBox` and `MapView.AllCoords` exclude it, as do `CanvasMap.CityFileOk` and `CanvasMap.HaveGeometry`, which the canvas class asks of the city files and keeps for its boundary lists.
- RegionStats.InsideArea: a target without an area, or with a ring-less area, falls back to the text match. That is the overview's "no outline" case at map-canvas.js:124-129. In detail mode map-canvas.js:179 would throw there instead. The canvas class never builds such a detail target, because its boundary lists keep the `Drawable` invariant.
- In map-canvas.js only the first definitions are modelled: `loadCityBoundaries` at line 1374, not its later copies.
- A data file without a `combined` part is treated as not loaded. In `applyFilters` of map-interactive.js it would throw; the model keeps the last state.
- OrganizeData.Edge: the relationship `properties` dict, which organize_data.py:169 and 219 copy through unchanged, is not a field; it is only written out with the relationship, and no modelled step reads it.
- WanbeiCities.ByCode: the adcode is modelled as an integer, so an adcode given as text in the file is not modelled.
- For download_and_process_boundaries.py, `main`, the prints and the download are left out. A failed download is `None`, which also covers the empty dict.
- TempMap.CountRows: cells are text; JavaScript's enumeration of integer-like keys first and inherited `Object.prototype` keys are not modelled. Keys are listed in insertion order.
- InteractiveMap.GetFeatureBounds: a value that is neither a collection nor a Feature is not modelled.

## Findings

| source | as written | input that shows it | evidently intended | confidence | as-written member | corrected member |
|---|---|---|---|---|---|---|
| map-canvas.js:1128-1129 | the new centre divides the cursor offset by zoom·1000, but the view draws with zoom·min(w,h)/2 | an 800×800 canvas at the initial view, cursor at (0, 400), one step down: the point under the cursor moves from 115.5 to 115.5 − 2/3 degrees of longitude | the point under the cursor stays fixed while zooming | not executed | MapView.WheelDrifts | MapView.AnchoredWheelFixesPoint |
| extract_six_cities_from_anhui.py:41-44 | missing cities are looked for only when the number of kept features differs from six | six features named 蚌埠市, 蚌埠市, 亳州市, 阜阳市, 淮北市, 淮南市: no warning, though 宿州市 is missing | warn whenever one of the six cities is missing | not executed | SixCities.DuplicateMasksMissing | SixCities.NoWarningIffAllFound |
