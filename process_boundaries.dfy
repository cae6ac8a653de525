/**
 * The boundary preparation of download_and_process_boundaries.py, after the
 * download: from one city's parsed FeatureCollection it picks the feature
 * that stands for the whole city, collects the district and county features,
 * and relabels every feature (level, type, 级别 and, for districts, the name)
 * before the collection is saved. Every relabelling happens in place on the
 * features of the downloaded collection, so each step here returns the
 * feature list as it is after that step. Adcodes use Python's `%`, which for
 * the divisors 100 and 10000 is Dafny's `%`.
 */
module ProcessBoundaries {
  import opened Wrappers
  import Seqs
  import Text
  import opened GeoJson

  /** `{ name, key }` of `CITY_MAPPING`, with the adcode it is keyed by. */
  datatype CityInfo = CityInfo(adcode: string, name: string, key: string)

  const CITY_MAPPING: seq<CityInfo> := [
    CityInfo("341200", "阜阳市", "阜阳"),
    CityInfo("341600", "亳州市", "亳州"),
    CityInfo("340400", "淮南市", "淮南"),
    CityInfo("340300", "蚌埠市", "蚌埠"),
    CityInfo("340600", "淮北市", "淮北"),
    CityInfo("341300", "宿州市", "宿州")
  ]

  /**
   * A downloaded JSON object: whether its `type` is FeatureCollection, and
   * its `features` ([] when absent).
   */
  datatype GeoJsonData = GeoJsonData(isCollection: bool, features: seq<Feature>)

  /** `code % 100 == 0 and code % 10000 != 0`: a prefecture-level code. */
  predicate CityLevel(code: int) {
    code % 100 == 0 && code % 10000 != 0
  }

  /** `s.endswith(c)` for a one-character c. */
  predicate EndsIn(s: string, c: char) {
    |s| > 0 && s[|s| - 1] == c
  }

  /** The properties of the city feature: name, type, 级别 and level set, isCityBoundary set when `mark`. */
  function AsCity(p: Props, cityName: string, mark: bool): (q: Props)
    ensures q.name == cityName && q.level == "city" && q.kind == "city" && q.levelZh == "市"
    ensures q.isCityBoundary == (mark || p.isCityBoundary)
    ensures q.adcode == p.adcode && q.parentAdcode == p.parentAdcode
  {
    p.(name := cityName, kind := "city", levelZh := "市", level := "city",
       isCityBoundary := if mark then true else p.isCityBoundary)
  }

  function WithPropsAt(fs: seq<Feature>, i: nat, p: Props): (r: seq<Feature>)
    requires i < |fs|
    ensures |r| == |fs| && r[i] == WithProps(fs[i], p)
    ensures forall k :: 0 <= k < |fs| && k != i ==> r[k] == fs[k]
  {
    fs[i := WithProps(fs[i], p)]
  }

  // ----- extract_city_boundary -----

  /** The test of `extract_city_boundary`'s loop. */
  predicate CityCandidate(p: Props, cityName: string) {
    p.name == cityName || CityLevel(p.adcode) || (CityLevel(p.parentAdcode) && p.adcode % 100 != 0)
  }

  /** The first feature passing the test, searched from the front. */
  function FirstCandidate(fs: seq<Feature>, cityName: string): (r: Option<nat>)
    ensures r.Some? ==> r.value < |fs| && CityCandidate(fs[r.value].properties, cityName)
    ensures r.Some? ==> forall j :: 0 <= j < r.value ==> !CityCandidate(fs[j].properties, cityName)
    ensures r.None? ==> forall j :: 0 <= j < |fs| ==> !CityCandidate(fs[j].properties, cityName)
    decreases |fs|
  {
    if |fs| == 0 then None
    else if CityCandidate(fs[0].properties, cityName) then Some(0)
    else
      match FirstCandidate(fs[1..], cityName)
      case Some(k) => Some(k + 1)
      case None => None
  }

  /**
   * The feature chosen as the city, with whether its isCityBoundary is set:
   * none for a non-collection or an empty one; the first candidate, marked
   * when its own adcode is not a multiple of 100; else features[0], marked,
   * when its parent is city-level; else none.
   */
  function CityPick(data: GeoJsonData, cityName: string): Option<(nat, bool)> {
    var fs := data.features;
    if !data.isCollection || |fs| == 0 then None
    else
      match FirstCandidate(fs, cityName)
      case Some(i) => Some((i, fs[i].properties.adcode % 100 != 0))
      case None => if CityLevel(fs[0].properties.parentAdcode) then Some((0, true)) else None
  }

  /** What the choice of the city says about the features it passes over. */
  lemma CityPickSpec(data: GeoJsonData, cityName: string)
    ensures !data.isCollection || |data.features| == 0 ==> CityPick(data, cityName).None?
    ensures CityPick(data, cityName).Some? ==> CityPick(data, cityName).value.0 < |data.features|
    ensures CityPick(data, cityName).Some? ==>
      var (i, mark) := CityPick(data, cityName).value;
      (CityCandidate(data.features[i].properties, cityName) &&
       (forall j :: 0 <= j < i ==> !CityCandidate(data.features[j].properties, cityName)) &&
       mark == (data.features[i].properties.adcode % 100 != 0)) ||
      (i == 0 && mark && CityLevel(data.features[0].properties.parentAdcode) &&
       forall j :: 0 <= j < |data.features| ==> !CityCandidate(data.features[j].properties, cityName))
    ensures data.isCollection && |data.features| > 0 && CityPick(data, cityName).None? ==>
      !CityLevel(data.features[0].properties.parentAdcode) &&
      forall j :: 0 <= j < |data.features| ==> !CityCandidate(data.features[j].properties, cityName)
  {
  }

  /** The features after the chosen one's properties were rewritten. */
  function AfterCity(data: GeoJsonData, cityName: string): (fs: seq<Feature>)
    ensures |fs| == |data.features|
  {
    match CityPick(data, cityName)
    case None => data.features
    case Some((i, mark)) => WithPropsAt(data.features, i, AsCity(data.features[i].properties, cityName, mark))
  }

  /** The returned city feature: the chosen feature as rewritten. */
  function CityOf(data: GeoJsonData, cityName: string): (city: Option<Feature>)
    ensures city.Some? <==> CityPick(data, cityName).Some?
  {
    match CityPick(data, cityName)
    case None => None
    case Some((i, _)) => Some(AfterCity(data, cityName)[i])
  }

  /** The loop of `extract_city_boundary` up to its `break`. */
  method FindCandidate(fs: seq<Feature>, cityName: string) returns (r: Option<nat>)
    ensures r == FirstCandidate(fs, cityName)
  {
    var i := 0;
    while i < |fs|
      invariant 0 <= i <= |fs|
      invariant forall j :: 0 <= j < i ==> !CityCandidate(fs[j].properties, cityName)
    {
      if CityCandidate(fs[i].properties, cityName) {
        FirstIsUnique(fs, cityName, i);
        return Some(i);
      }
      i := i + 1;
    }
    FirstIsUnique(fs, cityName, |fs|);
    return None;
  }

  /** The search result is determined by the position of the first candidate. */
  lemma FirstIsUnique(fs: seq<Feature>, cityName: string, i: nat)
    requires i <= |fs|
    requires forall j :: 0 <= j < i ==> !CityCandidate(fs[j].properties, cityName)
    requires i < |fs| ==> CityCandidate(fs[i].properties, cityName)
    ensures FirstCandidate(fs, cityName) == if i < |fs| then Some(i) else None
  {
    var r := FirstCandidate(fs, cityName);
    if r.Some? {
      assert r.value <= i;
      assert !(r.value < i);
    }
  }

  /**
   * `extract_city_boundary(geojson_data, city_name)`: the features after the
   * chosen one's properties were rewritten, and the chosen feature.
   */
  method ExtractCityBoundary(data: GeoJsonData, cityName: string) returns (fs: seq<Feature>, city: Option<Feature>)
    ensures fs == AfterCity(data, cityName) && city == CityOf(data, cityName)
  {
    fs := data.features;
    city := None;
    if !data.isCollection || |fs| == 0 {
      return;
    }
    var found := FindCandidate(fs, cityName);
    if found.Some? {
      var i := found.value;
      var p := fs[i].properties;
      fs := WithPropsAt(fs, i, AsCity(p, cityName, p.adcode % 100 != 0));
      city := Some(fs[i]);
    } else if CityLevel(fs[0].properties.parentAdcode) {
      fs := WithPropsAt(fs, 0, AsCity(fs[0].properties, cityName, true));
      city := Some(fs[0]);
    }
  }

  // ----- extract_county_features -----

  /** The test of `extract_county_features`. */
  predicate CountyCandidate(p: Props) {
    p.adcode % 100 != 0 || EndsIn(p.name, '区') || EndsIn(p.name, '县') ||
    p.level == "district" || p.level == "county"
  }

  /** Kept: not equal to the city feature (dictionary equality), and a county-or-district. */
  predicate Kept(f: Feature, city: Option<Feature>) {
    (city.None? || f != city.value) && CountyCandidate(f.properties)
  }

  function KeptPred(city: Option<Feature>): Feature -> bool {
    f => Kept(f, city)
  }

  /**
   * The relabelling of a kept feature: '县' in the name makes it a county,
   * else '区' a district, whose name then has every '市' replaced by '区'
   * unless it already ends in '区'; any other name is left as it is.
   */
  function CountyLabel(p: Props): Props {
    if '县' in p.name then p.(levelZh := "县", level := "county", kind := "county")
    else if '区' in p.name then
      var q := p.(levelZh := "区", level := "district", kind := "district");
      if EndsIn(p.name, '区') then q else q.(name := Text.ReplaceAll(p.name, '市', '区'))
    else p
  }

  function CountyFeature(f: Feature): Feature {
    WithProps(f, CountyLabel(f.properties))
  }

  /** `county_features`: the relabelled kept features, in input order. */
  function Counties(fs: seq<Feature>, city: Option<Feature>): seq<Feature>
    decreases |fs|
  {
    if |fs| == 0 then []
    else
      var f := fs[|fs| - 1];
      Counties(fs[..|fs| - 1], city) + (if Kept(f, city) then [CountyFeature(f)] else [])
  }

  /** The county list is the kept features, in order, each relabelled. */
  lemma {:induction false} CountiesAreKept(fs: seq<Feature>, city: Option<Feature>)
    ensures |Counties(fs, city)| == |Seqs.Filter(fs, KeptPred(city))|
    ensures forall k :: 0 <= k < |Counties(fs, city)| ==>
      Counties(fs, city)[k] == CountyFeature(Seqs.Filter(fs, KeptPred(city))[k])
    decreases |fs|
  {
    if |fs| > 0 {
      CountiesAreKept(fs[..|fs| - 1], city);
    }
  }

  /** The city feature itself is never among the kept features. */
  lemma CityNotKept(fs: seq<Feature>, city: Feature)
    ensures city !in Seqs.Filter(fs, KeptPred(Some(city)))
  {
  }

  /** '县' takes precedence over '区'; a district name without a final '区' loses every '市'. */
  lemma CountyLabelRules(p: Props)
    ensures '县' in p.name ==> CountyLabel(p).level == "county" && CountyLabel(p).name == p.name
    ensures '县' !in p.name && '区' in p.name ==> CountyLabel(p).level == "district"
    ensures '县' !in p.name && '区' in p.name && !EndsIn(p.name, '区') ==> '市' !in CountyLabel(p).name
    ensures '县' !in p.name && '区' !in p.name ==> CountyLabel(p) == p
  {
    if '县' !in p.name && '区' in p.name && !EndsIn(p.name, '区') {
      var r := CountyLabel(p).name;
      assert forall k :: 0 <= k < |r| ==> r[k] != '市';
    }
  }

  /** One feature after the loop has looked at it: relabelled when kept. */
  function Relabel(f: Feature, city: Option<Feature>): Feature {
    if Kept(f, city) then CountyFeature(f) else f
  }

  /** The features after the kept ones were relabelled in place (nothing changes for a non-collection). */
  function AfterCounty(data: GeoJsonData, city: Option<Feature>): (fs: seq<Feature>)
    ensures |fs| == |data.features|
    ensures forall k :: 0 <= k < |fs| ==>
      fs[k] == if data.isCollection && Kept(data.features[k], city) then CountyFeature(data.features[k])
        else data.features[k]
  {
    if !data.isCollection then data.features
    else
      seq(|data.features|, k requires 0 <= k < |data.features| => Relabel(data.features[k], city))
  }

  /** The returned list: [] for a non-collection. */
  function CountiesOf(data: GeoJsonData, city: Option<Feature>): seq<Feature> {
    if data.isCollection then Counties(data.features, city) else []
  }

  /** When no feature is kept nothing was relabelled, so the fallback sees the features unchanged. */
  lemma NoCountyNoRelabel(data: GeoJsonData, city: Option<Feature>)
    requires CountiesOf(data, city) == []
    ensures AfterCounty(data, city) == data.features
  {
    if data.isCollection {
      CountiesAreKept(data.features, city);
      assert forall k :: 0 <= k < |data.features| ==> !KeptPred(city)(data.features[k]);
    }
  }

  /**
   * `extract_county_features(geojson_data, city_name, city_feature)`: the
   * features after the kept ones were relabelled in place, and the kept ones.
   */
  method ExtractCountyFeatures(data: GeoJsonData, city: Option<Feature>) returns (fs: seq<Feature>, county: seq<Feature>)
    ensures fs == AfterCounty(data, city) && county == CountiesOf(data, city)
  {
    fs := data.features;
    county := [];
    if !data.isCollection {
      return;
    }
    var i := 0;
    while i < |fs|
      invariant 0 <= i <= |fs| == |data.features|
      invariant county == Counties(data.features[..i], city)
      invariant forall k :: 0 <= k < i ==> fs[k] == Relabel(data.features[k], city)
      invariant forall k :: i <= k < |fs| ==> fs[k] == data.features[k]
    {
      assert data.features[..i + 1][..i] == data.features[..i];
      var f := fs[i];
      if Kept(f, city) {
        var g := CountyFeature(f);
        fs := fs[i := g];
        county := county + [g];
      }
      i := i + 1;
    }
    assert data.features[..i] == data.features;
  }

  // ----- The labelling loop of process_city_data -----

  /** The city test of the labelling loop; the parent rule applies to the first feature only. */
  predicate LoopCityCandidate(p: Props, i: nat, cityName: string) {
    p.name == cityName || CityLevel(p.adcode) || (i == 0 && CityLevel(p.parentAdcode))
  }

  /** District by name ('区' anywhere) or by an adcode ending in 02–09 or 11. */
  predicate DistrictTest(p: Props) {
    '区' in p.name || (p.adcode % 100 in {2, 3, 4, 5, 6, 7, 8, 9, 11} && p.adcode % 10000 != 0)
  }

  /** County by name ('县' anywhere) or by an adcode ending in 21–29. */
  predicate CountyTest(p: Props) {
    '县' in p.name || (21 <= p.adcode % 100 <= 29)
  }

  /** A district's name after the loop: a final '市' rewrites every '市', a name without '区' gains one. */
  function DistrictName(name: string): string {
    if EndsIn(name, '区') then name
    else if EndsIn(name, '市') then Text.ReplaceAll(name, '市', '区')
    else if '区' !in name then name + "区"
    else name
  }

  /** The labelling of every feature but the city one: district first, then county, else unchanged. */
  function OtherLabel(p: Props): Props {
    if DistrictTest(p) then p.(levelZh := "区", level := "district", kind := "district", name := DistrictName(p.name))
    else if CountyTest(p) then p.(levelZh := "县", level := "county", kind := "county")
    else p
  }

  /** The feature at position i after the loop, given the position of the city feature. */
  function Labelled(fs: seq<Feature>, i: nat, cityName: string, cityIndex: Option<nat>): Feature
    requires i < |fs|
  {
    var p := fs[i].properties;
    if cityIndex == Some(i) then WithProps(fs[i], AsCity(p, cityName, p.adcode % 100 != 0))
    else WithProps(fs[i], OtherLabel(p))
  }

  /**
   * The loop over `all_data['features']` with the `city_boundary_found` flag:
   * the first feature passing the city test, and only that one, becomes the
   * city; every other feature gets the district/county labelling.
   */
  method LabelFeatures(fs: seq<Feature>, cityName: string) returns (out: seq<Feature>, cityIndex: Option<nat>)
    ensures cityIndex.Some? ==> cityIndex.value < |fs| && LoopCityCandidate(fs[cityIndex.value].properties, cityIndex.value, cityName)
    ensures cityIndex.Some? ==> forall j :: 0 <= j < cityIndex.value ==> !LoopCityCandidate(fs[j].properties, j, cityName)
    ensures cityIndex.None? ==> forall j :: 0 <= j < |fs| ==> !LoopCityCandidate(fs[j].properties, j, cityName)
    ensures |out| == |fs|
    ensures forall k :: 0 <= k < |fs| ==> out[k] == Labelled(fs, k, cityName, cityIndex)
  {
    out := fs;
    cityIndex := None;
    var found := false;
    var i := 0;
    while i < |fs|
      invariant 0 <= i <= |fs| == |out|
      invariant found <==> cityIndex.Some?
      invariant cityIndex.Some? ==> cityIndex.value < i && LoopCityCandidate(fs[cityIndex.value].properties, cityIndex.value, cityName)
      invariant cityIndex.Some? ==> forall j :: 0 <= j < cityIndex.value ==> !LoopCityCandidate(fs[j].properties, j, cityName)
      invariant cityIndex.None? ==> forall j :: 0 <= j < i ==> !LoopCityCandidate(fs[j].properties, j, cityName)
      invariant forall k :: 0 <= k < i ==> out[k] == Labelled(fs, k, cityName, cityIndex)
      invariant forall k :: i <= k < |fs| ==> out[k] == fs[k]
    {
      var p := out[i].properties;
      if LoopCityCandidate(p, i, cityName) && !found {
        out := out[i := WithProps(out[i], AsCity(p, cityName, p.adcode % 100 != 0))];
        cityIndex := Some(i);
        found := true;
      } else {
        out := out[i := WithProps(out[i], OtherLabel(p))];
      }
      i := i + 1;
    }
  }

  /** A district name ends in '区' unless it already held a '区' elsewhere and did not end in '市'. */
  lemma DistrictNameEnds(name: string)
    ensures EndsIn(DistrictName(name), '区') || ('区' in name && !EndsIn(name, '市') && DistrictName(name) == name)
  {
    if !EndsIn(name, '区') && EndsIn(name, '市') {
      var r := Text.ReplaceAll(name, '市', '区');
      assert r[|r| - 1] == '区';
    }
  }

  /** The district test is tried before the county test: a name with both characters makes a district. */
  lemma DistrictBeforeCounty(p: Props)
    requires '区' in p.name && '县' in p.name
    ensures OtherLabel(p).level == "district"
  {
  }

  // ----- process_city_data -----

  /** What `process_city_data` saves and reports for one city. */
  datatype Processed = Processed(saved: seq<Feature>, cityBoundary: Option<Feature>, county: seq<Feature>,
                                 cityIndex: Option<nat>)

  /** `county_features` after the fallback: every feature except the city boundary when none was found. */
  function WithFallback(county: seq<Feature>, fs: seq<Feature>, city: Option<Feature>): (r: seq<Feature>)
    ensures |county| > 0 ==> r == county
    ensures |county| == 0 ==> forall f :: f in r <==> f in fs && (city.None? || f != city.value)
  {
    if |county| > 0 then county
    else Seqs.Filter(fs, f => city.None? || f != city.value)
  }

  /**
   * `process_city_data(adcode)` after the download: None when the download
   * failed or gave an empty object (the function returns False); otherwise
   * the three steps in turn on the same, in-place-updated features: the city
   * boundary, the county list with its fallback, and the saved features after
   * the labelling loop, of which at most one was made the city.
   */
  method ProcessCityData(data: Option<GeoJsonData>, cityName: string) returns (r: Option<Processed>)
    ensures data.None? <==> r.None?
    ensures r.Some? ==>
      var d := data.value;
      var fs1 := AfterCity(d, cityName);
      var city := CityOf(d, cityName);
      var fs2 := AfterCounty(GeoJsonData(d.isCollection, fs1), city);
      r.value.cityBoundary == city &&
      r.value.county == WithFallback(CountiesOf(GeoJsonData(d.isCollection, fs1), city), fs2, city) &&
      |r.value.saved| == |d.features| &&
      (forall k :: 0 <= k < |fs2| ==> r.value.saved[k] == Labelled(fs2, k, cityName, r.value.cityIndex)) &&
      (r.value.cityIndex.Some? ==>
        r.value.cityIndex.value < |fs2| &&
        LoopCityCandidate(fs2[r.value.cityIndex.value].properties, r.value.cityIndex.value, cityName) &&
        forall j :: 0 <= j < r.value.cityIndex.value ==> !LoopCityCandidate(fs2[j].properties, j, cityName)) &&
      (r.value.cityIndex.None? ==> forall j :: 0 <= j < |fs2| ==> !LoopCityCandidate(fs2[j].properties, j, cityName))
  {
    if data.None? {
      return None;
    }
    var d := data.value;
    var fs1, city := ExtractCityBoundary(d, cityName);
    var fs2, county := ExtractCountyFeatures(GeoJsonData(d.isCollection, fs1), city);
    county := WithFallback(county, fs2, city);
    var saved, cityIndex := LabelFeatures(fs2, cityName);
    r := Some(Processed(saved, city, county, cityIndex));
  }
}
