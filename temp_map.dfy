/**
 * The ECharts province map of temp_map.js: `getData(n)` keeps the rows of the
 * data table that match the set filters (item in column 1, type in column 2,
 * city in column 5), counts the kept rows by the value of column n, and
 * replaces `seriesData` with one `{ name, value }` entry per non-empty value,
 * in the order the values were first seen; for the city column the name
 * loses its first '市'.
 */
module TempMap {
  import opened Wrappers
  import Seqs
  import Text

  /** One row of the table `d`: its cells as text. */
  type Row = seq<string>

  /** `d[i][k]`; None past the end of the row (undefined). */
  function Cell(row: Row, k: nat): Option<string> {
    if k < |row| then Some(row[k]) else None
  }

  /** `req`: the three filters, "" when unset. */
  datatype Request = Request(item: string, kind: string, city: string)

  /** None of the `continue` tests fires: every set filter equals its column. */
  predicate Matches(req: Request, row: Row) {
    (req.item == "" || Cell(row, 1) == Some(req.item)) &&
    (req.kind == "" || Cell(row, 2) == Some(req.kind)) &&
    (req.city == "" || Cell(row, 5) == Some(req.city))
  }

  function MatchPred(req: Request): Row -> bool {
    row => Matches(req, row)
  }

  /** The property key `arr[i][n]` becomes: the cell, or "undefined" for a missing one. */
  function KeyOf(row: Row, n: nat): string {
    if n < |row| then row[n] else "undefined"
  }

  function KeyIs(n: nat, key: string): Row -> bool {
    row => KeyOf(row, n) == key
  }

  function NonEmptyKey(n: nat): Row -> bool {
    row => KeyOf(row, n) != ""
  }

  /** `name` after the counting loop. */
  function Counts(rows: seq<Row>, n: nat): map<string, nat>
    decreases |rows|
  {
    if |rows| == 0 then map[]
    else
      var m := Counts(rows[..|rows| - 1], n);
      var key := KeyOf(rows[|rows| - 1], n);
      m[key := if key in m then m[key] + 1 else 1]
  }

  /** The keys of `name` in insertion order: each value where it is first seen. */
  function KeyOrder(rows: seq<Row>, n: nat): seq<string>
    decreases |rows|
  {
    if |rows| == 0 then []
    else
      var ks := KeyOrder(rows[..|rows| - 1], n);
      var key := KeyOf(rows[|rows| - 1], n);
      if key in ks then ks else ks + [key]
  }

  /** The keys are listed once each. */
  lemma {:induction false} KeyOrderDistinct(rows: seq<Row>, n: nat)
    ensures Seqs.Distinct(KeyOrder(rows, n))
    decreases |rows|
  {
    if |rows| > 0 {
      KeyOrderDistinct(rows[..|rows| - 1], n);
    }
  }

  /** The listed keys are exactly the keys of the counts. */
  lemma {:induction false} KeyOrderKeys(rows: seq<Row>, n: nat)
    ensures forall key :: key in KeyOrder(rows, n) <==> key in Counts(rows, n)
    decreases |rows|
  {
    if |rows| > 0 {
      KeyOrderKeys(rows[..|rows| - 1], n);
    }
  }

  /** The count of a key is the number of rows carrying it; a key never seen has no row. */
  lemma {:induction false} CountsAreCounts(rows: seq<Row>, n: nat, key: string)
    ensures key in Counts(rows, n) ==> Counts(rows, n)[key] == Seqs.CountWhere(rows, KeyIs(n, key))
    ensures key !in Counts(rows, n) ==> Seqs.CountWhere(rows, KeyIs(n, key)) == 0
    decreases |rows|
  {
    if |rows| > 0 {
      CountsAreCounts(rows[..|rows| - 1], n, key);
    }
  }

  /**
   * The counts are the numbers of rows carrying each value, and the keys, in
   * first-seen order, are exactly the values seen, each once.
   */
  lemma CountsSpec(rows: seq<Row>, n: nat)
    ensures Seqs.Distinct(KeyOrder(rows, n))
    ensures forall key :: key in KeyOrder(rows, n) <==> key in Counts(rows, n)
    ensures forall key :: key in Counts(rows, n) ==> Counts(rows, n)[key] == Seqs.CountWhere(rows, KeyIs(n, key))
    ensures forall key :: key !in Counts(rows, n) ==> Seqs.CountWhere(rows, KeyIs(n, key)) == 0
  {
    KeyOrderDistinct(rows, n);
    KeyOrderKeys(rows, n);
    forall key ensures key in Counts(rows, n) ==> Counts(rows, n)[key] == Seqs.CountWhere(rows, KeyIs(n, key)) {
      CountsAreCounts(rows, n, key);
    }
    forall key ensures key !in Counts(rows, n) ==> Seqs.CountWhere(rows, KeyIs(n, key)) == 0 {
      CountsAreCounts(rows, n, key);
    }
  }

  /** `{ name, value }` */
  datatype NameValue = NameValue(name: string, value: nat)

  /** `key.replace('市', '')` for the city column, the key itself otherwise. */
  function DisplayName(key: string, n: nat): (name: string)
    ensures n != 5 ==> name == key
    ensures n == 5 && '市' in key ==> |name| == |key| - 1
  {
    if n == 5 then Text.RemoveFirst(key, '市') else key
  }

  /** The entries of the keys in order, the empty key skipped. */
  function Series(keys: seq<string>, counts: map<string, nat>, n: nat): seq<NameValue>
    requires forall k :: k in keys ==> k in counts
    decreases |keys|
  {
    if |keys| == 0 then []
    else
      var rest := Series(keys[..|keys| - 1], counts, n);
      var key := keys[|keys| - 1];
      if |key| == 0 then rest else rest + [NameValue(DisplayName(key, n), counts[key])]
  }

  /** Sum of the values of a series. */
  function Total(s: seq<NameValue>): nat
    decreases |s|
  {
    if |s| == 0 then 0 else Total(s[..|s| - 1]) + s[|s| - 1].value
  }

  /** Sum of the counts of the non-empty keys (a key without a count adds nothing). */
  function SumCounts(keys: seq<string>, counts: map<string, nat>): nat
    decreases |keys|
  {
    if |keys| == 0 then 0
    else
      var key := keys[|keys| - 1];
      SumCounts(keys[..|keys| - 1], counts) + (if key == "" || key !in counts then 0 else counts[key])
  }

  lemma {:induction false} SeriesTotal(keys: seq<string>, counts: map<string, nat>, n: nat)
    requires forall k :: k in keys ==> k in counts
    ensures Total(Series(keys, counts, n)) == SumCounts(keys, counts)
    decreases |keys|
  {
    if |keys| > 0 {
      SeriesTotal(keys[..|keys| - 1], counts, n);
      var rest := Series(keys[..|keys| - 1], counts, n);
      var key := keys[|keys| - 1];
      if key != "" {
        assert (rest + [NameValue(DisplayName(key, n), counts[key])])[..|rest|] == rest;
      }
    }
  }

  /** Adding one to the count of a key changes the sum over distinct keys by one exactly when the key is listed and not empty. */
  lemma {:induction false} SumCountsBump(keys: seq<string>, counts: map<string, nat>, key: string)
    requires key in counts && Seqs.Distinct(keys)
    ensures SumCounts(keys, counts[key := counts[key] + 1]) ==
      SumCounts(keys, counts) + (if key in keys && key != "" then 1 else 0)
    decreases |keys|
  {
    if |keys| > 0 {
      var ks := keys[..|keys| - 1];
      SumCountsBump(ks, counts, key);
      assert keys[|keys| - 1] == key ==> key !in ks;
      assert key in keys <==> key in ks || keys[|keys| - 1] == key;
    }
  }

  /** Counts only under keys that are listed do not matter to the sum. */
  lemma {:induction false} SumCountsFresh(keys: seq<string>, counts: map<string, nat>, key: string, v: nat)
    requires key !in keys
    ensures SumCounts(keys, counts[key := v]) == SumCounts(keys, counts)
    decreases |keys|
  {
    if |keys| > 0 {
      SumCountsFresh(keys[..|keys| - 1], counts, key, v);
    }
  }

  /** One more row with key `key`, listed before or not, adds one to the sum exactly when the key is not empty. */
  lemma SumCountsStep(ks: seq<string>, m: map<string, nat>, key: string)
    requires (key in ks <==> key in m) && Seqs.Distinct(ks)
    ensures var ks' := if key in ks then ks else ks + [key];
      var m' := m[key := if key in m then m[key] + 1 else 1];
      SumCounts(ks', m') == SumCounts(ks, m) + (if key != "" then 1 else 0)
  {
    if key in ks {
      SumCountsBump(ks, m, key);
    } else {
      SumCountsFresh(ks, m, key, 1);
      assert (ks + [key])[..|ks|] == ks;
    }
  }

  /** One more row adds one to the sum of the counts exactly when its key is not empty. */
  lemma SumCountsRow(rows: seq<Row>, n: nat)
    requires |rows| > 0
    ensures SumCounts(KeyOrder(rows, n), Counts(rows, n)) ==
      SumCounts(KeyOrder(rows[..|rows| - 1], n), Counts(rows[..|rows| - 1], n)) +
      (if KeyOf(rows[|rows| - 1], n) != "" then 1 else 0)
  {
    var rs := rows[..|rows| - 1];
    var ks, m, key := KeyOrder(rs, n), Counts(rs, n), KeyOf(rows[|rows| - 1], n);
    assert key in ks <==> key in m by {
      KeyOrderKeys(rs, n);
    }
    KeyOrderDistinct(rs, n);
    SumCountsStep(ks, m, key);
  }

  /** Over the keys in first-seen order, the counts of the non-empty keys add up to the rows with a non-empty key. */
  lemma {:induction false} SumCountsRows(rows: seq<Row>, n: nat)
    ensures SumCounts(KeyOrder(rows, n), Counts(rows, n)) == Seqs.CountWhere(rows, NonEmptyKey(n))
    decreases |rows|
  {
    if |rows| > 0 {
      SumCountsRows(rows[..|rows| - 1], n);
      SumCountsRow(rows, n);
    }
  }

  /** `seriesData` for the rows `arr` kept in a call with column n. */
  function SeriesOf(arr: seq<Row>, n: nat): seq<NameValue> {
    KeyOrderKeys(arr, n);
    Series(KeyOrder(arr, n), Counts(arr, n), n)
  }

  /**
   * The values of the series add up to the number of kept rows whose column
   * n is not empty: every such row is counted under exactly one entry.
   */
  lemma SeriesSumsRows(arr: seq<Row>, n: nat)
    ensures Total(SeriesOf(arr, n)) == |Seqs.Filter(arr, NonEmptyKey(n))|
  {
    KeyOrderKeys(arr, n);
    SeriesTotal(KeyOrder(arr, n), Counts(arr, n), n);
    SumCountsRows(arr, n);
  }

  /** Each entry is a distinct non-empty value with the number of kept rows carrying it. */
  lemma {:induction false} SeriesEntries(keys: seq<string>, counts: map<string, nat>, n: nat, i: nat)
    requires forall k :: k in keys ==> k in counts
    requires i < |Series(keys, counts, n)|
    ensures exists key :: (key in keys && key != "" &&
      Series(keys, counts, n)[i] == NameValue(DisplayName(key, n), counts[key]))
    decreases |keys|
  {
    var rest := Series(keys[..|keys| - 1], counts, n);
    var key := keys[|keys| - 1];
    if i < |rest| {
      SeriesEntries(keys[..|keys| - 1], counts, n, i);
      var k :| k in keys[..|keys| - 1] && k != "" && rest[i] == NameValue(DisplayName(k, n), counts[k]);
      assert k in keys;
    } else {
      assert key in keys;
    }
  }

  /** The first loop of `getData`: the rows passing the filters, in order. */
  method KeepRows(d: seq<Row>, req: Request) returns (arr: seq<Row>)
    ensures arr == Seqs.Filter(d, MatchPred(req))
  {
    arr := [];
    var i := 0;
    while i < |d|
      invariant 0 <= i <= |d|
      invariant arr == Seqs.Filter(d[..i], MatchPred(req))
    {
      assert d[..i + 1][..i] == d[..i];
      if Matches(req, d[i]) {
        arr := arr + [d[i]];
      }
      i := i + 1;
    }
    assert d[..i] == d;
  }

  /** The second loop: `name[arr[i][n]]` incremented from 1, with the keys in insertion order. */
  method CountRows(arr: seq<Row>, n: nat) returns (name: map<string, nat>, order: seq<string>)
    ensures name == Counts(arr, n) && order == KeyOrder(arr, n)
  {
    name := map[];
    order := [];
    var i := 0;
    while i < |arr|
      invariant 0 <= i <= |arr|
      invariant name == Counts(arr[..i], n) && order == KeyOrder(arr[..i], n)
    {
      assert arr[..i + 1][..i] == arr[..i];
      var key := KeyOf(arr[i], n);
      KeyOrderKeys(arr[..i], n);
      if key in name {
        name := name[key := name[key] + 1];
      } else {
        name := name[key := 1];
        order := order + [key];
      }
      i := i + 1;
    }
    assert arr[..i] == arr;
  }

  /** The `for (var key in name)` loop: one entry per non-empty key. */
  method BuildSeries(order: seq<string>, name: map<string, nat>, n: nat) returns (names: seq<NameValue>)
    requires forall k :: k in order ==> k in name
    ensures names == Series(order, name, n)
  {
    names := [];
    var i := 0;
    while i < |order|
      invariant 0 <= i <= |order|
      invariant names == Series(order[..i], name, n)
    {
      assert order[..i + 1][..i] == order[..i];
      var key := order[i];
      if |key| != 0 {
        names := names + [NameValue(DisplayName(key, n), name[key])];
      }
      i := i + 1;
    }
    assert order[..i] == order;
  }

  class TempMap {
    var seriesData: seq<NameValue>

    constructor ()
      ensures seriesData == []
    {
      seriesData := [];
    }

    /** `getData(n)` over the table d with the filters req: `seriesData` is replaced wholesale. */
    method GetData(d: seq<Row>, req: Request, n: nat)
      modifies this`seriesData
      ensures seriesData == SeriesOf(Seqs.Filter(d, MatchPred(req)), n)
    {
      var arr := KeepRows(d, req);
      var name, order := CountRows(arr, n);
      KeyOrderKeys(arr, n);
      var names := BuildSeries(order, name, n);
      seriesData := names;
    }
  }
}
