/**
 * The count-to-bucket classifier of the choropleth: the fixed table
 * COLOR_RANGES, scanned top-down, where an entry without `max` matches
 * `count >= min` and every other entry matches `min <= count < max`; when
 * no entry matches, the last entry is used.
 */
module ColorScale {
  import opened Wrappers

  datatype ColorRange = ColorRange(min: int, max: Option<int>, color: string, labelText: string)

  /** The table of map-canvas.js (the first entry has no upper bound). */
  const COLOR_RANGES: seq<ColorRange> := [
    ColorRange(150, None, "#FFD700", "150件以上"),
    ColorRange(120, Some(150), "#FFA500", "120-150件"),
    ColorRange(90, Some(120), "#FF6347", "90-120件"),
    ColorRange(60, Some(90), "#FF69B4", "60-90件"),
    ColorRange(30, Some(60), "#9370DB", "30-60件"),
    ColorRange(0, Some(30), "#87CEEB", "30件以下")
  ]

  /** Whether an entry's range holds the count. */
  predicate Covers(r: ColorRange, count: int) {
    match r.max
    case None => count >= r.min
    case Some(max) => r.min <= count < max
  }

  /** Index of the first entry of `table` (from `from` on) that covers the count. */
  function FirstCovering(table: seq<ColorRange>, count: int, from: nat): (i: Option<nat>)
    requires from <= |table|
    ensures i.Some? ==> from <= i.value < |table| && Covers(table[i.value], count)
    ensures i.Some? ==> forall k :: from <= k < i.value ==> !Covers(table[k], count)
    ensures i.None? ==> forall k :: from <= k < |table| ==> !Covers(table[k], count)
    decreases |table| - from
  {
    if from == |table| then None
    else if Covers(table[from], count) then Some(from)
    else FirstCovering(table, count, from + 1)
  }

  /** The entry the scan returns: the first covering one, otherwise the last. */
  function Classify(table: seq<ColorRange>, count: int): (r: ColorRange)
    requires |table| > 0
    ensures r in table
  {
    match FirstCovering(table, count, 0)
    case Some(i) => table[i]
    case None => table[|table| - 1]
  }

  /** `getColorByCount(count)` */
  function GetColorByCount(count: int): (color: string)
    ensures count >= 150 ==> color == "#FFD700"
    ensures count < 0 ==> color == COLOR_RANGES[|COLOR_RANGES| - 1].color
    ensures forall k :: 0 <= k < |COLOR_RANGES| && Covers(COLOR_RANGES[k], count) ==> color == COLOR_RANGES[k].color
  {
    OnlyOneCovers(count);
    Classify(COLOR_RANGES, count).color
  }

  /** `getRangeLabel(count)` */
  function GetRangeLabel(count: int): (text: string)
    ensures count < 0 ==> text == COLOR_RANGES[|COLOR_RANGES| - 1].labelText
    ensures forall k :: 0 <= k < |COLOR_RANGES| && Covers(COLOR_RANGES[k], count) ==> text == COLOR_RANGES[k].labelText
  {
    OnlyOneCovers(count);
    Classify(COLOR_RANGES, count).labelText
  }

  /** No two entries of the table cover the same count. */
  lemma OnlyOneCovers(count: int)
    ensures forall i, j ::
      (0 <= i < |COLOR_RANGES| && 0 <= j < |COLOR_RANGES| &&
       Covers(COLOR_RANGES[i], count) && Covers(COLOR_RANGES[j], count)) ==> i == j
  {
  }

  /**
   * The entries partition the non-negative counts into half-open buckets: every
   * count >= 0 is covered by exactly one entry, and an edge (30, 60, 90, 120, 150)
   * belongs to the bucket above it.
   */
  lemma {:induction false} BucketsPartition(count: int)
    requires count >= 0
    ensures exists k :: 0 <= k < |COLOR_RANGES| && Covers(COLOR_RANGES[k], count)
    ensures forall i, j ::
      (0 <= i < |COLOR_RANGES| && 0 <= j < |COLOR_RANGES| &&
       Covers(COLOR_RANGES[i], count) && Covers(COLOR_RANGES[j], count)) ==> i == j
    ensures count in {30, 60, 90, 120, 150} ==> COLOR_RANGES[BucketIndex(count)].min == count
  {
    OnlyOneCovers(count);
    assert Covers(COLOR_RANGES[BucketIndex(count)], count);
  }

  /** A reference definition by thresholds: 0 for >= 150, ..., 5 for < 30. */
  function BucketIndex(count: int): (k: nat)
    ensures k < 6
  {
    if count >= 150 then 0
    else if count >= 120 then 1
    else if count >= 90 then 2
    else if count >= 60 then 3
    else if count >= 30 then 4
    else 5
  }

  /** The color and the label always come from the same entry, the one BucketIndex names. */
  lemma {:induction false} ColorAndLabelAgree(count: int)
    ensures GetColorByCount(count) == COLOR_RANGES[BucketIndex(count)].color
    ensures GetRangeLabel(count) == COLOR_RANGES[BucketIndex(count)].labelText
  {
    if count >= 0 {
      assert Covers(COLOR_RANGES[BucketIndex(count)], count);
    }
  }
}
