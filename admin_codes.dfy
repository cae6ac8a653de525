/**
 * The administrative-code rules the canvas map applies to boundary features.
 * A six-digit adcode ends in 00 (but not 0000) for a prefecture-level city;
 * the remainder modulo 100 is 02..19 for a district (区) and 21..29 for a
 * county (县). `loadBoundaries` picks one city feature per city and labels the
 * rest by remainder, and `loadCityBoundaries` drops the real city boundary
 * from a city file and labels the rest, falling back to the name when the
 * remainder says nothing.
 */
module AdminCodes {
  import opened Wrappers
  import opened GeoJson
  import Text
  import Seqs

  /** `name === cityName || isCityCode || isCityBoundary === true || level === 'city' || type === 'city'` */
  predicate IsCityFeatureFor(cityName: string, p: Props) {
    p.name == cityName || IsCityCode(p.adcode) || p.isCityBoundary || p.level == "city" || p.kind == "city"
  }

  /** The properties written on the chosen city feature. */
  function CityLabel(p: Props, cityName: string): (q: Props)
    ensures q.level == "city" && q.kind == "city" && q.levelZh == "市"
    ensures q.name == cityName && q.isCityBoundary
    ensures q.adcode == p.adcode && q.altName == p.altName && q.parentAdcode == p.parentAdcode
  {
    p.(level := "city", kind := "city", levelZh := "市", name := cityName, isCityBoundary := true)
  }

  /** The district labels level/type district, 级别 区. */
  function District(p: Props): Props { WithLevel(p, "district", "district", "区") }

  /** The county labels level/type county, 级别 县. */
  function County(p: Props): Props { WithLevel(p, "county", "county", "县") }

  /** The labelling in `loadBoundaries` of a feature that is not the city: by adcode remainder only. */
  function SubLabel(p: Props): (q: Props)
    ensures var r := JsRem(p.adcode, 100);
      (2 <= r <= 19 ==> q == District(p)) &&
      (21 <= r <= 29 ==> q == County(p)) &&
      (!(2 <= r <= 19) && !(21 <= r <= 29) ==> q == p)
  {
    var r := JsRem(p.adcode, 100);
    if r != 0 then
      if 2 <= r <= 19 then District(p)
      else if 21 <= r <= 29 then County(p)
      else p
    else p
  }

  /** The city feature, the remaining features in order, and the whole list as relabelled. */
  datatype Split = Split(cityFeature: Option<Feature>, countyFeatures: seq<Feature>, features: seq<Feature>)

  /** The `for (const feature of features)` loop: the first passing feature becomes the city. */
  function SplitLoop(cityName: string, fs: seq<Feature>): (s: Split)
    ensures |s.features| == |fs|
    decreases |fs|
  {
    if |fs| == 0 then Split(None, [], [])
    else
      var s := SplitLoop(cityName, fs[..|fs| - 1]);
      var f := fs[|fs| - 1];
      if IsCityFeatureFor(cityName, f.properties) && s.cityFeature.None? then
        var c := WithProps(f, CityLabel(f.properties, cityName));
        Split(Some(c), s.countyFeatures, s.features + [c])
      else
        var g := WithProps(f, SubLabel(f.properties));
        Split(s.cityFeature, s.countyFeatures + [g], s.features + [g])
  }

  /**
   * The split in `loadBoundaries` for city `cityKey`, features in file order.
   * When no feature passes the city test, features[0] is relabelled as the
   * city; it is the same object as the first county feature and the first
   * feature, so those show the city labels as well.
   */
  function SplitCityFeatures(cityKey: string, fs: seq<Feature>): Split {
    var cityName := cityKey + "市";
    var s := SplitLoop(cityName, fs);
    if s.cityFeature.None? && |fs| > 0 then
      var c := WithProps(fs[0], CityLabel(fs[0].properties, cityName));
      Split(Some(c), [c] + s.countyFeatures[1..], [c] + s.features[1..])
    else s
  }

  /** The first feature that passes the city test (|fs| when none does). */
  function FirstCity(cityName: string, fs: seq<Feature>): (i: nat)
    ensures i <= |fs|
    ensures i < |fs| ==> IsCityFeatureFor(cityName, fs[i].properties)
    ensures forall k :: 0 <= k < i ==> !IsCityFeatureFor(cityName, fs[k].properties)
    decreases |fs|
  {
    if |fs| == 0 then 0
    else
      var j := FirstCity(cityName, fs[..|fs| - 1]);
      if j < |fs| - 1 then j
      else if IsCityFeatureFor(cityName, fs[|fs| - 1].properties) then |fs| - 1
      else |fs|
  }

  /** The other features, labelled by remainder, in order. */
  function SubLabelAll(fs: seq<Feature>): (gs: seq<Feature>)
    ensures |gs| == |fs|
    ensures forall k :: 0 <= k < |fs| ==> gs[k] == WithProps(fs[k], SubLabel(fs[k].properties))
    decreases |fs|
  {
    if |fs| == 0 then []
    else SubLabelAll(fs[..|fs| - 1]) + [WithProps(fs[|fs| - 1], SubLabel(fs[|fs| - 1].properties))]
  }

  lemma {:induction false} SubLabelAllAppend(a: seq<Feature>, b: seq<Feature>)
    ensures SubLabelAll(a + b) == SubLabelAll(a) + SubLabelAll(b)
    decreases |b|
  {
    if |b| == 0 {
      assert a + b == a;
    } else {
      assert (a + b)[..|a + b| - 1] == a + b[..|b| - 1];
      SubLabelAllAppend(a, b[..|b| - 1]);
    }
  }

  /** The split with feature i as the city and every other feature labelled by remainder. */
  function SplitAt(cityName: string, fs: seq<Feature>, i: nat): Split
    requires i < |fs|
  {
    var c := WithProps(fs[i], CityLabel(fs[i].properties, cityName));
    Split(Some(c), SubLabelAll(fs[..i]) + SubLabelAll(fs[i + 1..]), SubLabelAll(fs[..i]) + [c] + SubLabelAll(fs[i + 1..]))
  }

  /**
   * The loop picks the first passing feature as the city and labels every
   * other feature by remainder, keeping their order; with no passing feature
   * every feature is labelled by remainder.
   */
  lemma {:induction false} SplitLoopSpec(cityName: string, fs: seq<Feature>)
    ensures FirstCity(cityName, fs) == |fs| ==>
      SplitLoop(cityName, fs) == Split(None, SubLabelAll(fs), SubLabelAll(fs))
    ensures FirstCity(cityName, fs) < |fs| ==>
      SplitLoop(cityName, fs) == SplitAt(cityName, fs, FirstCity(cityName, fs))
    decreases |fs|
  {
    if |fs| > 0 {
      var fs' := fs[..|fs| - 1];
      SplitLoopSpec(cityName, fs');
      var j := FirstCity(cityName, fs');
      if j < |fs'| {
        SplitAtSnoc(cityName, fs, j);
      } else if FirstCity(cityName, fs) == |fs| - 1 {
        SplitLoopHere(cityName, fs);
      } else {
        SplitLoopNone(cityName, fs);
      }
    }
  }

  /** The first passing feature is the last one: it becomes the city, after the others labelled by remainder. */
  lemma SplitLoopHere(cityName: string, fs: seq<Feature>)
    requires |fs| > 0 && FirstCity(cityName, fs) == |fs| - 1
    requires var fs' := fs[..|fs| - 1]; SplitLoop(cityName, fs') == Split(None, SubLabelAll(fs'), SubLabelAll(fs'))
    ensures SplitLoop(cityName, fs) == SplitAt(cityName, fs, |fs| - 1)
  {
    assert fs[|fs|..] == [];
  }

  /** No feature passes: one more feature is labelled by remainder. */
  lemma SplitLoopNone(cityName: string, fs: seq<Feature>)
    requires |fs| > 0 && FirstCity(cityName, fs) == |fs|
    requires var fs' := fs[..|fs| - 1]; SplitLoop(cityName, fs') == Split(None, SubLabelAll(fs'), SubLabelAll(fs'))
    ensures SplitLoop(cityName, fs) == Split(None, SubLabelAll(fs), SubLabelAll(fs))
  {
    assert !IsCityFeatureFor(cityName, fs[|fs| - 1].properties);
  }

  /** Appending a feature after the city label labels it by remainder. */
  lemma SplitAtSnoc(cityName: string, fs: seq<Feature>, i: nat)
    requires i < |fs| - 1
    ensures var a := SplitAt(cityName, fs[..|fs| - 1], i);
      var g := WithProps(fs[|fs| - 1], SubLabel(fs[|fs| - 1].properties));
      SplitAt(cityName, fs, i) == Split(a.cityFeature, a.countyFeatures + [g], a.features + [g])
  {
    var fs' := fs[..|fs| - 1];
    var f := fs[|fs| - 1];
    assert fs'[..i] == fs[..i];
    assert fs'[i] == fs[i];
    assert fs[i + 1..] == fs'[i + 1..] + [f];
    SubLabelAllAppend(fs'[i + 1..], [f]);
  }

  /** Relabelling as the city after labelling by remainder is relabelling as the city. */
  lemma CityLabelAbsorbs(p: Props, cityName: string)
    ensures CityLabel(SubLabel(p), cityName) == CityLabel(p, cityName)
  {
  }

  /** The fallback split: features[0] relabelled as the city, first among the county features too. */
  function FallbackSplit(cityName: string, fs: seq<Feature>): Split
    requires |fs| > 0
  {
    var c := WithProps(fs[0], CityLabel(fs[0].properties, cityName));
    Split(Some(c), [c] + SubLabelAll(fs[1..]), [c] + SubLabelAll(fs[1..]))
  }

  /**
   * `loadBoundaries` for one city: there is a city feature exactly when the
   * city has features; it is the first feature passing the city test, with the
   * city labels, and otherwise features[0] with the city labels, which then
   * also stays first among the county features.
   */
  lemma SplitCityFeaturesSpec(cityKey: string, fs: seq<Feature>)
    ensures SplitCityFeatures(cityKey, fs).cityFeature.Some? <==> |fs| > 0
    ensures |SplitCityFeatures(cityKey, fs).features| == |fs|
    ensures FirstCity(cityKey + "市", fs) < |fs| ==>
      SplitCityFeatures(cityKey, fs) == SplitAt(cityKey + "市", fs, FirstCity(cityKey + "市", fs))
    ensures FirstCity(cityKey + "市", fs) == |fs| && |fs| > 0 ==>
      SplitCityFeatures(cityKey, fs) == FallbackSplit(cityKey + "市", fs)
  {
    var cityName := cityKey + "市";
    SplitLoopSpec(cityName, fs);
    if FirstCity(cityName, fs) == |fs| && |fs| > 0 {
      assert fs == [fs[0]] + fs[1..];
      SubLabelAllAppend([fs[0]], fs[1..]);
      assert SubLabelAll([fs[0]]) == [WithProps(fs[0], SubLabel(fs[0].properties))];
    }
  }

  /** Relabelling never touches a geometry: the split of drawable features is drawable. */
  lemma {:induction false} SplitLoopDrawable(cityName: string, fs: seq<Feature>)
    requires forall k :: 0 <= k < |fs| ==> Drawable(fs[k])
    ensures var s := SplitLoop(cityName, fs);
      (s.cityFeature.Some? ==> Drawable(s.cityFeature.value)) &&
      (forall k :: 0 <= k < |s.countyFeatures| ==> Drawable(s.countyFeatures[k])) &&
      (forall k :: 0 <= k < |s.features| ==> Drawable(s.features[k]))
    decreases |fs|
  {
    if |fs| > 0 {
      SplitLoopDrawable(cityName, fs[..|fs| - 1]);
    }
  }

  /** The city feature, the county features and the relabelled list of drawable features are drawable. */
  lemma SplitDrawable(cityKey: string, fs: seq<Feature>)
    requires forall k :: 0 <= k < |fs| ==> Drawable(fs[k])
    ensures var s := SplitCityFeatures(cityKey, fs);
      (s.cityFeature.Some? ==> Drawable(s.cityFeature.value)) &&
      (forall k :: 0 <= k < |s.countyFeatures| ==> Drawable(s.countyFeatures[k])) &&
      (forall k :: 0 <= k < |s.features| ==> Drawable(s.features[k]))
  {
    SplitLoopDrawable(cityKey + "市", fs);
  }

  /** Labelling by remainder twice is labelling once: the adcode it reads is not changed. */
  lemma SubLabelIdempotent(p: Props)
    ensures SubLabel(SubLabel(p)) == SubLabel(p)
  {
  }

  /** `adcode % 100 === 0 && adcode % 10000 !== 0`, the test `loadCityBoundaries` uses to skip a feature. */
  predicate IsRealCityBoundary(p: Props) {
    IsCityCode(p.adcode)
  }

  /** The labelling in `loadCityBoundaries` of a feature that is kept. */
  function DetailLabel(p: Props): (q: Props)
    ensures q.adcode == p.adcode && q.isCityBoundary == p.isCityBoundary
  {
    var r := JsRem(p.adcode, 100);
    var name := p.name;
    if r != 0 then
      if 2 <= r <= 19 then
        var d := District(p);
        if !Text.EndsWith(name, "区") && !Text.EndsWith(name, "县") then d.(name := Text.ReplaceFirst(name, '市', '区'))
        else d
      else if 21 <= r <= 29 then County(p)
      else if Text.Contains(name, "区") then District(p)
      else if Text.Contains(name, "县") then County(p)
      else p
    else p
  }

  /** The county/district features `loadCityBoundaries` reads from a city file. */
  function DetailFeatures(fs: seq<Feature>): (gs: seq<Feature>)
    ensures |gs| <= |fs|
    decreases |fs|
  {
    if |fs| == 0 then []
    else
      var f := fs[|fs| - 1];
      DetailFeatures(fs[..|fs| - 1]) +
        (if IsRealCityBoundary(f.properties) then [] else [WithProps(f, DetailLabel(f.properties))])
  }

  /** `loadCityBoundaries` keeps a feature iff it is not a real city boundary. */
  predicate KeptInDetail(f: Feature) {
    !IsRealCityBoundary(f.properties)
  }

  /** A kept feature after the in-place relabelling: same geometry, same adcode. */
  function DetailRelabel(f: Feature): (g: Feature)
    ensures g.geometry == f.geometry && g.properties.adcode == f.properties.adcode
    ensures g.properties == DetailLabel(f.properties)
  {
    WithProps(f, DetailLabel(f.properties))
  }

  /**
   * The county/district list of a city file is the file filtered by the
   * real-city test, each kept feature relabelled, in file order.
   */
  lemma {:induction false} DetailFeaturesSpec(fs: seq<Feature>)
    ensures DetailFeatures(fs) == Seqs.Map(Seqs.Filter(fs, KeptInDetail), DetailRelabel)
    decreases |fs|
  {
    if |fs| > 0 {
      var fs' := fs[..|fs| - 1];
      var f := fs[|fs| - 1];
      DetailFeaturesSpec(fs');
      if KeptInDetail(f) {
        Seqs.MapSnoc(Seqs.Filter(fs', KeptInDetail), f, DetailRelabel);
      }
    }
  }

  /**
   * Both directions of membership: every feature of the file that is not a
   * real city boundary appears relabelled, and every listed feature is such
   * a feature relabelled, with its geometry and adcode.
   */
  lemma DetailFeaturesMembers(fs: seq<Feature>)
    ensures forall k :: 0 <= k < |fs| && KeptInDetail(fs[k]) ==> DetailRelabel(fs[k]) in DetailFeatures(fs)
    ensures forall g :: g in DetailFeatures(fs) ==>
      exists k :: 0 <= k < |fs| && KeptInDetail(fs[k]) && g == DetailRelabel(fs[k])
  {
    DetailFeaturesSpec(fs);
    var kept := Seqs.Filter(fs, KeptInDetail);
    var gs := DetailFeatures(fs);
    forall k | 0 <= k < |fs| && KeptInDetail(fs[k])
      ensures DetailRelabel(fs[k]) in gs
    {
      assert fs[k] in kept;
      var j :| 0 <= j < |kept| && kept[j] == fs[k];
      assert gs[j] == DetailRelabel(fs[k]);
    }
    forall g | g in gs
      ensures exists k :: 0 <= k < |fs| && KeptInDetail(fs[k]) && g == DetailRelabel(fs[k])
    {
      var j :| 0 <= j < |gs| && gs[j] == g;
      assert kept[j] in fs && KeptInDetail(kept[j]);
      var k :| 0 <= k < |fs| && fs[k] == kept[j];
      assert g == DetailRelabel(fs[k]);
    }
  }

  /**
   * No kept feature is a real city boundary; a file without one keeps every
   * feature with its geometry, and a file with one gets shorter.
   */
  lemma {:induction false} DetailFeaturesKeep(fs: seq<Feature>)
    ensures var gs := DetailFeatures(fs);
      forall k :: 0 <= k < |gs| ==> !IsRealCityBoundary(gs[k].properties)
    ensures var gs := DetailFeatures(fs);
      |gs| == |fs| ==> forall k :: 0 <= k < |fs| ==> gs[k].geometry == fs[k].geometry
    ensures (forall k :: 0 <= k < |fs| ==> !IsRealCityBoundary(fs[k].properties)) ==> |DetailFeatures(fs)| == |fs|
    ensures (exists k :: 0 <= k < |fs| && IsRealCityBoundary(fs[k].properties)) ==> |DetailFeatures(fs)| < |fs|
    decreases |fs|
  {
    if |fs| > 0 {
      var fs' := fs[..|fs| - 1];
      DetailFeaturesKeep(fs');
      if exists k :: 0 <= k < |fs| && IsRealCityBoundary(fs[k].properties) {
        var k :| 0 <= k < |fs| && IsRealCityBoundary(fs[k].properties);
        if k < |fs| - 1 {
          assert fs'[k] == fs[k];
        }
      }
      if (forall k :: 0 <= k < |fs| ==> !IsRealCityBoundary(fs[k].properties)) {
        assert forall k :: 0 <= k < |fs'| ==> !IsRealCityBoundary(fs'[k].properties) by {
          forall k | 0 <= k < |fs'| ensures !IsRealCityBoundary(fs'[k].properties) {
            assert fs'[k] == fs[k];
          }
        }
      }
    }
  }

  /**
   * What `loadCityBoundaries` makes a kept feature: the remainder decides
   * first (02..19 district, 21..29 county); any other non-zero remainder lets
   * the name decide, 区 before 县; remainder 0 (a missing adcode included)
   * changes nothing.
   */
  lemma DetailLabelLevels(p: Props)
    ensures var r := JsRem(p.adcode, 100); var q := DetailLabel(p);
      (2 <= r <= 19 ==> q.level == "district" && q.kind == "district" && q.levelZh == "区") &&
      (21 <= r <= 29 ==> q == County(p)) &&
      (r != 0 && !(2 <= r <= 19) && !(21 <= r <= 29) && Text.Contains(p.name, "区") ==> q == District(p)) &&
      (r != 0 && !(2 <= r <= 19) && !(21 <= r <= 29) && !Text.Contains(p.name, "区") && Text.Contains(p.name, "县") ==> q == County(p)) &&
      (r == 0 ==> q == p)
  {
  }

  /**
   * A district by code keeps a name ending in 区 or 县; otherwise its first 市
   * becomes 区, so a name that had a 市 now contains 区.
   */
  lemma DistrictRename(p: Props)
    requires 2 <= JsRem(p.adcode, 100) <= 19
    ensures Text.EndsWith(p.name, "区") || Text.EndsWith(p.name, "县") ==> DetailLabel(p).name == p.name
    ensures !Text.EndsWith(p.name, "区") && !Text.EndsWith(p.name, "县") && '市' in p.name ==>
      '区' in DetailLabel(p).name && |DetailLabel(p).name| == |p.name|
    ensures '市' !in p.name ==> DetailLabel(p).name == p.name
  {
    if !Text.EndsWith(p.name, "区") && !Text.EndsWith(p.name, "县") && '市' in p.name {
      var i := Text.FirstIndexOf(p.name, '市');
      assert DetailLabel(p).name[i] == '区';
    }
  }
}
