/**
 * extract_city_boundaries.py: one boundary feature per city file, taken in
 * the fixed order of the six cities and wrapped in a FeatureCollection. A
 * file's boundary is its first feature marked isCityBoundary or of level
 * 'city'; a missing file or a file without such a feature contributes
 * nothing.
 */
module CityBoundaries {
  import opened Wrappers
  import opened GeoJson
  import ProcessBoundaries

  /** `cities`, in the order the files are read. */
  const CITIES: seq<string> := ["蚌埠市", "亳州市", "阜阳市", "淮北市", "淮南市", "宿州市"]

  /** `props.get('isCityBoundary') == True or props.get('level') == 'city'` */
  predicate IsBoundary(f: Feature) {
    f.properties.isCityBoundary || f.properties.level == "city"
  }

  /** `extract_city_boundary(file_path)` on the file's `features`: the first boundary feature. */
  function ExtractCityBoundary(fs: seq<Feature>): (r: Option<Feature>)
    ensures r.Some? ==> IsBoundary(r.value)
    ensures r.Some? ==> exists i :: (0 <= i < |fs| && fs[i] == r.value &&
      forall j :: 0 <= j < i ==> !IsBoundary(fs[j]))
    ensures r.None? <==> forall j :: 0 <= j < |fs| ==> !IsBoundary(fs[j])
    decreases |fs|
  {
    if |fs| == 0 then None
    else if IsBoundary(fs[0]) then Some(fs[0])
    else
      var r := ExtractCityBoundary(fs[1..]);
      if r.Some? then
        var i :| 0 <= i < |fs[1..]| && fs[1..][i] == r.value && forall j :: 0 <= j < i ==> !IsBoundary(fs[1..][j]);
        assert fs[i + 1] == r.value;
        r
      else r
  }

  /** The boundaries found in the files read so far, in file order. */
  function Collected(files: seq<Option<seq<Feature>>>): (fs: seq<Feature>)
    ensures |fs| <= |files|
    decreases |files|
  {
    if |files| == 0 then []
    else
      var file := files[|files| - 1];
      var b := if file.Some? then ExtractCityBoundary(file.value) else None;
      Collected(files[..|files| - 1]) + (if b.Some? then [b.value] else [])
  }

  /** Every collected feature is a boundary, and a file contributes its boundary exactly when it has one. */
  lemma {:induction false} CollectedSpec(files: seq<Option<seq<Feature>>>)
    ensures forall k :: 0 <= k < |Collected(files)| ==> IsBoundary(Collected(files)[k])
    ensures |Collected(files)| == |files| <==>
      forall i :: 0 <= i < |files| ==> files[i].Some? && ExtractCityBoundary(files[i].value).Some?
    decreases |files|
  {
    if |files| > 0 {
      var files' := files[..|files| - 1];
      CollectedSpec(files');
      assert forall i :: 0 <= i < |files'| ==> files'[i] == files[i];
    }
  }

  /** Appending the files of one more city appends at most its one boundary. */
  lemma CollectedStep(files: seq<Option<seq<Feature>>>, file: Option<seq<Feature>>)
    ensures Collected(files + [file]) ==
      Collected(files) + (if file.Some? && ExtractCityBoundary(file.value).Some? then [ExtractCityBoundary(file.value).value] else [])
  {
    assert (files + [file])[..|files|] == files;
  }

  /**
   * `main()` after reading: `files[i]` holds the features of the file of
   * `CITIES[i]`, None when it does not exist. The result wraps exactly the
   * collected boundaries, at most one per city.
   */
  method CollectBoundaries(files: seq<Option<seq<Feature>>>) returns (result: ProcessBoundaries.GeoJsonData)
    requires |files| == |CITIES|
    ensures result.isCollection && result.features == Collected(files)
    ensures |result.features| <= |CITIES|
  {
    var features: seq<Feature> := [];
    var i := 0;
    while i < |files|
      invariant 0 <= i <= |files|
      invariant features == Collected(files[..i])
    {
      assert files[..i + 1][..i] == files[..i];
      if files[i].Some? {
        var feature := ExtractCityBoundary(files[i].value);
        if feature.Some? {
          features := features + [feature.value];
        }
      }
      i := i + 1;
    }
    assert files[..i] == files;
    result := ProcessBoundaries.GeoJsonData(true, features);
  }
}
