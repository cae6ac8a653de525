/**
 * extract_six_cities_from_anhui.py: the features of the Anhui province file
 * whose name is exactly one of the six city names, in input order, with the
 * list of the names found and the set of the six names not found.
 */
module SixCities {
  import Seqs
  import opened Wrappers
  import opened GeoJson

  /** `SIX_CITIES` */
  const SIX_CITIES: seq<string> := ["蚌埠市", "亳州市", "阜阳市", "淮北市", "淮南市", "宿州市"]

  predicate IsSixCity(f: Feature) {
    f.properties.name in SIX_CITIES
  }

  function SixPred(): Feature -> bool {
    f => IsSixCity(f)
  }

  function NamePred(c: string): Feature -> bool {
    (f: Feature) => f.properties.name == c
  }

  /** `set(SIX_CITIES) - set(found_cities)` */
  function MissingCities(found: seq<string>): (missing: set<string>)
    ensures forall c :: c in missing <==> c in SIX_CITIES && c !in found
  {
    (set c | c in SIX_CITIES) - (set c | c in found)
  }

  /**
   * The warning as the script decides it: the missing set is looked at only
   * when the number of kept features differs from six.
   */
  function AsWrittenWarning(kept: seq<Feature>, found: seq<string>): (w: set<string>)
    ensures w <= MissingCities(found)
    ensures |kept| != |SIX_CITIES| ==> w == MissingCities(found)
  {
    if |kept| != |SIX_CITIES| then MissingCities(found) else {}
  }

  function Named(name: string): Feature {
    Feature(Props(name, "", 0, "", "", "", false, 0), None)
  }

  /** Names of a province file in which 蚌埠市 appears twice and 宿州市 not at all. */
  const MASKING_NAMES: seq<string> := ["蚌埠市", "蚌埠市", "亳州市", "阜阳市", "淮北市", "淮南市"]

  const MASKING_INPUT: seq<Feature> :=
    seq(|MASKING_NAMES|, k requires 0 <= k < |MASKING_NAMES| => Named(MASKING_NAMES[k]))

  /** Every feature of that file is kept, so the names found are its names. */
  lemma MaskingInputKept()
    ensures Seqs.Filter(MASKING_INPUT, SixPred()) == MASKING_INPUT
    ensures forall k :: 0 <= k < |MASKING_INPUT| ==> MASKING_NAMES[k] == MASKING_INPUT[k].properties.name
  {
    assert forall k :: 0 <= k < |MASKING_NAMES| ==> MASKING_NAMES[k] in SIX_CITIES;
    Seqs.FilterAll(MASKING_INPUT, SixPred());
  }

  /**
   * A duplicated city masks a missing one: six features are kept, so the
   * count test passes and no warning is printed although 宿州市 is missing.
   */
  lemma DuplicateMasksMissing()
    ensures |Seqs.Filter(MASKING_INPUT, SixPred())| == |SIX_CITIES|
    ensures AsWrittenWarning(Seqs.Filter(MASKING_INPUT, SixPred()), MASKING_NAMES) == {}
    ensures MissingCities(MASKING_NAMES) == {"宿州市"}
  {
    MaskingInputKept();
    assert "宿州市" !in MASKING_NAMES;
    assert forall c :: c in MissingCities(MASKING_NAMES) ==> c == "宿州市";
  }

  /** With the missing set always reported, no warning means every one of the six cities was found. */
  lemma NoWarningIffAllFound(found: seq<string>)
    ensures MissingCities(found) == {} <==> forall k :: 0 <= k < |SIX_CITIES| ==> SIX_CITIES[k] in found
  {
    if MissingCities(found) == {} {
      forall k | 0 <= k < |SIX_CITIES| ensures SIX_CITIES[k] in found {
        assert SIX_CITIES[k] !in MissingCities(found);
      }
    }
  }

  /** Every feature named after a city is kept, duplicates included, in the same order. */
  lemma DuplicatesKept(features: seq<Feature>, c: string)
    requires c in SIX_CITIES
    ensures Seqs.Filter(Seqs.Filter(features, SixPred()), NamePred(c)) == Seqs.Filter(features, NamePred(c))
  {
    Seqs.FilterFilter(features, SixPred(), NamePred(c), NamePred(c));
  }

  /**
   * The loop of `extract_six_cities`, with the missing set taken whenever it
   * is not empty: the kept features, their names in the same order, and the
   * cities not found.
   */
  method ExtractSixCities(features: seq<Feature>) returns (kept: seq<Feature>, found: seq<string>, missing: set<string>)
    ensures kept == Seqs.Filter(features, SixPred())
    ensures |found| == |kept| && forall k :: 0 <= k < |kept| ==> found[k] == kept[k].properties.name
    ensures forall k :: 0 <= k < |found| ==> found[k] in SIX_CITIES
    ensures missing == MissingCities(found)
  {
    kept := [];
    found := [];
    var i := 0;
    while i < |features|
      invariant 0 <= i <= |features|
      invariant kept == Seqs.Filter(features[..i], SixPred())
      invariant |found| == |kept| && forall k :: 0 <= k < |kept| ==> found[k] == kept[k].properties.name
    {
      assert features[..i + 1][..i] == features[..i];
      if features[i].properties.name in SIX_CITIES {
        kept := kept + [features[i]];
        found := found + [features[i].properties.name];
      }
      i := i + 1;
    }
    assert features[..i] == features;
    missing := MissingCities(found);
  }
}
