/**
 * extract_wanbei_cities.py: the features of the Anhui province file that
 * belong to one of the six northern cities, by adcode (the city's own code,
 * or a six-digit code whose first four digits name the city) and, failing
 * that, by name (the name contains a city name, tried in table order). The
 * kept features keep their input order; the cities they were attributed to
 * are collected in `found_cities`.
 */
module WanbeiCities {
  import opened Wrappers
  import Seqs
  import Text
  import Decimal
  import opened GeoJson

  /** `WANBEI_CITIES_ADCODES`, in its insertion order. */
  const WANBEI_CITIES_ADCODES: seq<(string, string)> := [
    ("341200", "阜阳市"),
    ("341600", "亳州市"),
    ("340400", "淮南市"),
    ("340300", "蚌埠市"),
    ("340600", "淮北市"),
    ("341300", "宿州市")
  ]

  /** The set of the six city names. */
  function CityNames(): set<string> {
    set e | e in WANBEI_CITIES_ADCODES :: e.1
  }

  /** The set of the six codes. */
  function CityCodes(): set<string> {
    set e | e in WANBEI_CITIES_ADCODES :: e.0
  }

  /** `WANBEI_CITIES_ADCODES.get(code)`: the city of a code. */
  function LookupCode(code: string): (r: Option<string>)
    ensures r.Some? <==> code in CityCodes()
    ensures r.Some? ==> r.value in CityNames()
  {
    LookupFrom(code, 0)
  }

  function LookupFrom(code: string, i: nat): (r: Option<string>)
    requires i <= |WANBEI_CITIES_ADCODES|
    ensures r.Some? <==> exists k :: i <= k < |WANBEI_CITIES_ADCODES| && WANBEI_CITIES_ADCODES[k].0 == code
    ensures r.Some? ==> r.value in CityNames()
    decreases |WANBEI_CITIES_ADCODES| - i
  {
    if i == |WANBEI_CITIES_ADCODES| then None
    else if WANBEI_CITIES_ADCODES[i].0 == code then Some(WANBEI_CITIES_ADCODES[i].1)
    else LookupFrom(code, i + 1)
  }

  /** `adcode_str` in the table, else a six-character code whose `[:4] + '00'` is. */
  function ByCode(adcode: int): Option<string> {
    if adcode == 0 then None
    else
      var s := Decimal.IntToString(adcode);
      if LookupCode(s).Some? then LookupCode(s)
      else if |s| == 6 then LookupCode(s[..4] + "00")
      else None
  }

  /** `name.startswith(c) or c in name`, for each city name in table order, up to the `break`. */
  function ByName(name: string, i: nat): (r: Option<string>)
    requires i <= |WANBEI_CITIES_ADCODES|
    ensures r.Some? ==> r.value in CityNames() && Text.Contains(name, r.value)
    ensures r.None? ==> forall k :: i <= k < |WANBEI_CITIES_ADCODES| ==> !Text.Contains(name, WANBEI_CITIES_ADCODES[k].1)
    decreases |WANBEI_CITIES_ADCODES| - i
  {
    if i == |WANBEI_CITIES_ADCODES| then None
    else
      var c := WANBEI_CITIES_ADCODES[i].1;
      if Text.StartsWith(name, c) then
        Text.StartsWithContains(name, c);
        Some(c)
      else if Text.Contains(name, c) then Some(c)
      else ByName(name, i + 1)
  }

  /** `city_name` when `is_wanbei`: the adcode tests first, the name test only when they fail. */
  function Attribution(p: Props): Option<string> {
    var byCode := ByCode(p.adcode);
    if byCode.Some? then byCode
    else if p.name != "" then ByName(p.name, 0)
    else None
  }

  predicate IsWanbei(f: Feature) {
    Attribution(f.properties).Some?
  }

  function WanbeiPred(): Feature -> bool {
    f => IsWanbei(f)
  }

  /** The adcode test: a truthy code whose string is a city code, or has six characters and a city prefix. */
  predicate CodeMatch(adcode: int) {
    adcode != 0 &&
    (Decimal.IntToString(adcode) in CityCodes() ||
     (|Decimal.IntToString(adcode)| == 6 && Decimal.IntToString(adcode)[..4] + "00" in CityCodes()))
  }

  /** A feature is kept iff an adcode test passes or its name contains one of the six names, both ways. */
  lemma WanbeiTest(p: Props)
    ensures Attribution(p).Some? <==>
      CodeMatch(p.adcode) || exists c :: c in CityNames() && Text.Contains(p.name, c)
    ensures Attribution(p).Some? ==> Attribution(p).value in CityNames()
    ensures CodeMatch(p.adcode) ==> Attribution(p) == ByCode(p.adcode)
  {
    if exists c :: c in CityNames() && Text.Contains(p.name, c) {
      var c :| c in CityNames() && Text.Contains(p.name, c);
      var e :| e in WANBEI_CITIES_ADCODES && e.1 == c;
      var k :| 0 <= k < |WANBEI_CITIES_ADCODES| && WANBEI_CITIES_ADCODES[k] == e;
      if p.name == "" {
        Text.EmptyContainsOnlyEmpty(c);
      }
    }
  }

  /**
   * For a six-digit code the prefix test asks whether the code rounded down
   * to a multiple of 100 is a city code: the sub-regions 341202, 341203, …
   * of 341200 belong to it.
   */
  lemma SubregionCode(adcode: int)
    requires 100000 <= adcode <= 999999
    ensures CodeMatch(adcode) <==>
      Decimal.NatToString(adcode) in CityCodes() || Decimal.NatToString(adcode / 100 * 100) in CityCodes()
  {
    Decimal.PrefixFourDigits(adcode);
  }

  /** `found_cities` after the loop: the cities the kept features among fs were attributed to. */
  function Found(fs: seq<Feature>): (found: set<string>)
    ensures found <= CityNames()
    decreases |fs|
  {
    if |fs| == 0 then {}
    else
      var a := Attribution(fs[|fs| - 1].properties);
      Found(fs[..|fs| - 1]) + (if a.Some? then {a.value} else {})
  }

  /** Every attributed city is found, and only those. */
  lemma {:induction false} FoundSpec(fs: seq<Feature>, c: string)
    ensures c in Found(fs) <==> exists k :: 0 <= k < |fs| && Attribution(fs[k].properties) == Some(c)
    decreases |fs|
  {
    if |fs| > 0 {
      var fs' := fs[..|fs| - 1];
      FoundSpec(fs', c);
      if exists k :: 0 <= k < |fs| && Attribution(fs[k].properties) == Some(c) {
        var k :| 0 <= k < |fs| && Attribution(fs[k].properties) == Some(c);
        if k < |fs| - 1 {
          assert fs'[k] == fs[k];
        }
      }
      if c in Found(fs') {
        var k :| 0 <= k < |fs'| && Attribution(fs'[k].properties) == Some(c);
        assert fs[k] == fs'[k];
      }
    }
  }

  /**
   * `extract_wanbei_cities`' loop: the kept features, an order-preserving
   * subsequence of the input, and the set of cities they were attributed to.
   */
  method ExtractWanbeiCities(features: seq<Feature>) returns (kept: seq<Feature>, found: set<string>)
    ensures kept == Seqs.Filter(features, WanbeiPred())
    ensures found == Found(features)
    ensures found <= CityNames()
  {
    kept := [];
    found := {};
    var i := 0;
    while i < |features|
      invariant 0 <= i <= |features|
      invariant kept == Seqs.Filter(features[..i], WanbeiPred())
      invariant found == Found(features[..i])
    {
      var city := Attribution(features[i].properties);
      assert features[..i + 1][..i] == features[..i];
      if city.Some? {
        kept := kept + [features[i]];
        found := found + {city.value};
      }
      i := i + 1;
    }
    assert features[..i] == features;
  }
}
