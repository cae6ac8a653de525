/**
 * The post-parse part of the Cypher extraction script: the index of nodes by
 * name, the resolution of name-based relationships into id pairs, the
 * per-dataset categories and summary, the combination of the datasets, and
 * the choice of one input file per dataset among its candidate names.
 */
module ExtractData {
  import opened Wrappers
  import Seqs
  import opened Graph

  // ----- Name index -----

  /** `build_node_map(nodes)`: each name to its nodes, in input order. */
  function NodeMapOf(nodes: seq<Node>): map<string, seq<Node>>
    decreases |nodes|
  {
    if |nodes| == 0 then map[]
    else
      var m := NodeMapOf(nodes[..|nodes| - 1]);
      var n := nodes[|nodes| - 1];
      match n.properties.name
      case None => m
      case Some(name) => m[name := (if name in m then m[name] else []) + [n]]
  }

  function NamedPred(name: string): Node -> bool {
    (n: Node) => n.properties.name == Some(name)
  }

  /**
   * The index has exactly the names that occur; a name's list is the nodes
   * carrying that name in input order, and it is never empty. Nodes without
   * a name are in no list.
   */
  lemma NodeMapSpec(nodes: seq<Node>)
    ensures forall name :: name in NodeMapOf(nodes) <==>
      exists i :: 0 <= i < |nodes| && nodes[i].properties.name == Some(name)
    ensures forall name :: name in NodeMapOf(nodes) ==>
      NodeMapOf(nodes)[name] == Seqs.Filter(nodes, NamedPred(name)) && |NodeMapOf(nodes)[name]| > 0
  {
    NodeMapKeys(nodes);
    NodeMapLists(nodes);
  }

  /** The index has exactly the names that occur. */
  lemma {:induction false} NodeMapKeys(nodes: seq<Node>)
    ensures forall name :: name in NodeMapOf(nodes) <==>
      exists i :: 0 <= i < |nodes| && nodes[i].properties.name == Some(name)
    decreases |nodes|
  {
    if |nodes| > 0 {
      var ns := nodes[..|nodes| - 1];
      var n := nodes[|nodes| - 1];
      NodeMapKeys(ns);
      forall name | name in NodeMapOf(nodes)
        ensures exists i :: 0 <= i < |nodes| && nodes[i].properties.name == Some(name)
      {
        if name in NodeMapOf(ns) {
          var i :| 0 <= i < |ns| && ns[i].properties.name == Some(name);
          assert nodes[i] == ns[i];
        } else {
          assert n.properties.name == Some(name);
        }
      }
      forall name | exists i :: 0 <= i < |nodes| && nodes[i].properties.name == Some(name)
        ensures name in NodeMapOf(nodes)
      {
        var i :| 0 <= i < |nodes| && nodes[i].properties.name == Some(name);
        if i < |ns| {
          assert ns[i] == nodes[i];
        }
      }
    }
  }

  /** A name's list is the nodes carrying that name, in input order, and is never empty. */
  lemma {:induction false} NodeMapLists(nodes: seq<Node>)
    ensures forall name :: name in NodeMapOf(nodes) ==>
      NodeMapOf(nodes)[name] == Seqs.Filter(nodes, NamedPred(name)) && |NodeMapOf(nodes)[name]| > 0
    decreases |nodes|
  {
    if |nodes| > 0 {
      var ns := nodes[..|nodes| - 1];
      NodeMapLists(ns);
      forall name | name in NodeMapOf(nodes)
        ensures NodeMapOf(nodes)[name] == Seqs.Filter(nodes, NamedPred(name))
      {
        if name !in NodeMapOf(ns) {
          var p := NamedPred(name);
          assert forall k :: 0 <= k < |ns| ==> !p(ns[k]) by {
            NodeMapKeys(ns);
          }
          Seqs.FilterNone(ns, p);
        }
      }
    }
  }

  /** The loop of `build_node_map`. */
  method BuildNodeMap(nodes: seq<Node>) returns (m: map<string, seq<Node>>)
    ensures m == NodeMapOf(nodes)
  {
    m := map[];
    var i := 0;
    while i < |nodes|
      invariant 0 <= i <= |nodes|
      invariant m == NodeMapOf(nodes[..i])
    {
      assert nodes[..i + 1][..i] == nodes[..i];
      var n := nodes[i];
      if n.properties.name.Some? {
        var name := n.properties.name.value;
        if name !in m {
          m := m[name := []];
        }
        m := m[name := m[name] + [n]];
      }
      i := i + 1;
    }
    assert nodes[..i] == nodes;
  }

  // ----- Relationship resolution -----

  /** A parsed relationship: the `name` of its source and target patterns (None when absent) and its type. */
  datatype RawRel = RawRel(sourceName: Option<string>, targetName: Option<string>, relType: string)

  /** `{ source, target, type, source_name, target_name }` */
  datatype Resolved = Resolved(source: string, target: string, relType: string, sourceName: string, targetName: string)

  function Link(s: Node, t: Node, r: RawRel, sn: string, tn: string): Resolved {
    Resolved(s.id, t.id, r.relType, sn, tn)
  }

  /** The inner loop: one source node against every target node. */
  function Row(s: Node, ts: seq<Node>, r: RawRel, sn: string, tn: string): (out: seq<Resolved>)
    ensures |out| == |ts| && forall j :: 0 <= j < |ts| ==> out[j] == Link(s, ts[j], r, sn, tn)
    decreases |ts|
  {
    if |ts| == 0 then []
    else Row(s, ts[..|ts| - 1], r, sn, tn) + [Link(s, ts[|ts| - 1], r, sn, tn)]
  }

  /** The two nested loops: every source node, source-major, against every target node. */
  function Cross(ss: seq<Node>, ts: seq<Node>, r: RawRel, sn: string, tn: string): seq<Resolved>
    decreases |ss|
  {
    if |ss| == 0 then []
    else Cross(ss[..|ss| - 1], ts, r, sn, tn) + Row(ss[|ss| - 1], ts, r, sn, tn)
  }

  lemma MulStep(i: nat, j: nat, a: nat, b: nat)
    requires i < a && j < b
    ensures i * b + j < a * b
  {
    assert (i + 1) * b <= a * b;
  }

  lemma {:induction false} CrossLength(ss: seq<Node>, ts: seq<Node>, r: RawRel, sn: string, tn: string)
    ensures |Cross(ss, ts, r, sn, tn)| == |ss| * |ts|
    decreases |ss|
  {
    if |ss| > 0 {
      CrossLength(ss[..|ss| - 1], ts, r, sn, tn);
      assert (|ss| - 1) * |ts| + |ts| == |ss| * |ts|;
    }
  }

  /** Entry i·|ts| + j links source i to target j. */
  lemma {:induction false} CrossAt(ss: seq<Node>, ts: seq<Node>, r: RawRel, sn: string, tn: string, i: nat, j: nat)
    requires i < |ss| && j < |ts|
    ensures i * |ts| + j < |Cross(ss, ts, r, sn, tn)|
    ensures Cross(ss, ts, r, sn, tn)[i * |ts| + j] == Link(ss[i], ts[j], r, sn, tn)
    decreases |ss|
  {
    var ss' := ss[..|ss| - 1];
    CrossLength(ss', ts, r, sn, tn);
    CrossLength(ss, ts, r, sn, tn);
    MulStep(i, j, |ss|, |ts|);
    if i < |ss'| {
      CrossAt(ss', ts, r, sn, tn, i, j);
      assert ss'[i] == ss[i];
    } else {
      assert i * |ts| == |Cross(ss', ts, r, sn, tn)|;
    }
  }

  /** Every pair links a node of the source list to a node of the target list. */
  lemma {:induction false} CrossMembers(ss: seq<Node>, ts: seq<Node>, r: RawRel, sn: string, tn: string)
    ensures forall x :: x in Cross(ss, ts, r, sn, tn) ==>
      x.sourceName == sn && x.targetName == tn && x.relType == r.relType &&
      (exists a :: a in ss && a.id == x.source) && (exists b :: b in ts && b.id == x.target)
    decreases |ss|
  {
    if |ss| > 0 {
      var ss' := ss[..|ss| - 1];
      CrossMembers(ss', ts, r, sn, tn);
      forall x | x in Cross(ss, ts, r, sn, tn)
        ensures (exists a :: a in ss && a.id == x.source) && (exists b :: b in ts && b.id == x.target)
      {
        if x in Cross(ss', ts, r, sn, tn) {
          var a :| a in ss' && a.id == x.source;
          assert a in ss;
        } else {
          var j :| 0 <= j < |ts| && Row(ss[|ss| - 1], ts, r, sn, tn)[j] == x;
          assert ts[j] in ts;
        }
      }
    }
  }

  /** `source_name and target_name`: both present and non-empty. */
  predicate NamesGiven(r: RawRel) {
    r.sourceName.Some? && r.sourceName.value != "" && r.targetName.Some? && r.targetName.value != ""
  }

  /** `node_map.get(name, [])` */
  function Lookup(m: map<string, seq<Node>>, name: string): seq<Node> {
    if name in m then m[name] else []
  }

  /** What one relationship resolves to. */
  function ResolveOne(m: map<string, seq<Node>>, r: RawRel): seq<Resolved> {
    if NamesGiven(r) then
      var sn := r.sourceName.value;
      var tn := r.targetName.value;
      var ss := Lookup(m, sn);
      var ts := Lookup(m, tn);
      if |ss| > 0 && |ts| > 0 then Cross(ss, ts, r, sn, tn) else []
    else []
  }

  function ResolveAll(m: map<string, seq<Node>>, rels: seq<RawRel>): seq<Resolved>
    decreases |rels|
  {
    if |rels| == 0 then []
    else ResolveAll(m, rels[..|rels| - 1]) + ResolveOne(m, rels[|rels| - 1])
  }

  /** `resolve_relationships(nodes, relationships)` */
  function Resolve(nodes: seq<Node>, rels: seq<RawRel>): seq<Resolved> {
    ResolveAll(NodeMapOf(nodes), rels)
  }

  /**
   * A relationship with both names given and found emits one entry per pair
   * of a node named like the source and a node named like the target;
   * otherwise it emits nothing.
   */
  lemma ResolveOneCount(nodes: seq<Node>, r: RawRel)
    ensures NamesGiven(r) && r.sourceName.value in NodeMapOf(nodes) && r.targetName.value in NodeMapOf(nodes) ==>
      |ResolveOne(NodeMapOf(nodes), r)| ==
        |Seqs.Filter(nodes, NamedPred(r.sourceName.value))| * |Seqs.Filter(nodes, NamedPred(r.targetName.value))|
    ensures !(NamesGiven(r) && r.sourceName.value in NodeMapOf(nodes) && r.targetName.value in NodeMapOf(nodes)) ==>
      ResolveOne(NodeMapOf(nodes), r) == []
  {
    var m := NodeMapOf(nodes);
    NodeMapSpec(nodes);
    if NamesGiven(r) {
      var sn := r.sourceName.value;
      var tn := r.targetName.value;
      if sn in m && tn in m {
        assert Lookup(m, sn) == Seqs.Filter(nodes, NamedPred(sn));
        assert Lookup(m, tn) == Seqs.Filter(nodes, NamedPred(tn));
        CrossLength(Lookup(m, sn), Lookup(m, tn), r, sn, tn);
      } else {
        assert |Lookup(m, sn)| == 0 || |Lookup(m, tn)| == 0;
      }
    }
  }

  /**
   * Every resolved entry links the id of a node named like its source name
   * to the id of a node named like its target name.
   */
  lemma {:induction false} ResolvedEndpoints(nodes: seq<Node>, rels: seq<RawRel>)
    ensures forall x :: x in Resolve(nodes, rels) ==>
      (exists a :: a in nodes && a.id == x.source && a.properties.name == Some(x.sourceName)) &&
      (exists b :: b in nodes && b.id == x.target && b.properties.name == Some(x.targetName))
    decreases |rels|
  {
    if |rels| > 0 {
      var m := NodeMapOf(nodes);
      ResolvedEndpoints(nodes, rels[..|rels| - 1]);
      var r := rels[|rels| - 1];
      assert Resolve(nodes, rels) == Resolve(nodes, rels[..|rels| - 1]) + ResolveOne(m, r);
      NodeMapSpec(nodes);
      if NamesGiven(r) {
        var sn := r.sourceName.value;
        var tn := r.targetName.value;
        var ss := Lookup(m, sn);
        var ts := Lookup(m, tn);
        CrossMembers(ss, ts, r, sn, tn);
        forall x | x in ResolveOne(m, r)
          ensures (exists a :: a in nodes && a.id == x.source && a.properties.name == Some(x.sourceName)) &&
            (exists b :: b in nodes && b.id == x.target && b.properties.name == Some(x.targetName))
        {
          var a :| a in ss && a.id == x.source;
          var b :| b in ts && b.id == x.target;
          assert NamedPred(sn)(a) && NamedPred(tn)(b);
        }
      }
    }
  }

  /** The innermost loop: one source node linked to each target node in turn. */
  method LinkRow(s: Node, ts: seq<Node>, r: RawRel, sn: string, tn: string) returns (out: seq<Resolved>)
    ensures out == Row(s, ts, r, sn, tn)
  {
    out := [];
    var b := 0;
    while b < |ts|
      invariant 0 <= b <= |ts|
      invariant out == Row(s, ts[..b], r, sn, tn)
    {
      assert ts[..b + 1][..b] == ts[..b];
      out := out + [Link(s, ts[b], r, sn, tn)];
      b := b + 1;
    }
    assert ts[..b] == ts;
  }

  /** The two inner loops: each source node in turn, linked to every target node. */
  method LinkCross(ss: seq<Node>, ts: seq<Node>, r: RawRel, sn: string, tn: string) returns (out: seq<Resolved>)
    ensures out == Cross(ss, ts, r, sn, tn)
  {
    out := [];
    var a := 0;
    while a < |ss|
      invariant 0 <= a <= |ss|
      invariant out == Cross(ss[..a], ts, r, sn, tn)
    {
      assert ss[..a + 1][..a] == ss[..a];
      var row := LinkRow(ss[a], ts, r, sn, tn);
      out := out + row;
      a := a + 1;
    }
    assert ss[..a] == ss;
  }

  /** The loops of `resolve_relationships`, over the relationships in order. */
  method ResolveRelationships(nodes: seq<Node>, rels: seq<RawRel>) returns (out: seq<Resolved>)
    ensures out == Resolve(nodes, rels)
  {
    var m := BuildNodeMap(nodes);
    out := [];
    var i := 0;
    while i < |rels|
      invariant 0 <= i <= |rels|
      invariant out == ResolveAll(m, rels[..i])
    {
      assert rels[..i + 1][..i] == rels[..i];
      var r := rels[i];
      if NamesGiven(r) {
        var sn := r.sourceName.value;
        var tn := r.targetName.value;
        var ss := Lookup(m, sn);
        var ts := Lookup(m, tn);
        if |ss| > 0 && |ts| > 0 {
          var pairs := LinkCross(ss, ts, r, sn, tn);
          out := out + pairs;
        }
      }
      i := i + 1;
    }
    assert rels[..i] == rels;
  }

  // ----- Datasets -----

  /** The dict `extract_data_from_file` returns. */
  datatype Dataset = Dataset(
    name: string,
    summary: Summary,
    nodes: seq<Node>,
    relationships: seq<Resolved>,
    events: seq<Node>,
    persons: seq<Node>,
    locations: seq<Node>,
    times: seq<Node>)

  /** The counts of a dataset agree with its lists. */
  predicate Counted(d: Dataset) {
    d.summary == Summary(|d.nodes|, |d.relationships|, |d.events|, |d.persons|, |d.locations|, |d.times|)
  }

  /**
   * `extract_data_from_file(path, name)` on the parsed file (None when it
   * does not exist): the relationships resolved, the four categories by
   * exact label membership, and the summary counting them.
   */
  function ExtractDataFromFile(parsed: Option<(seq<Node>, seq<RawRel>)>, name: string): (d: Option<Dataset>)
    ensures d.None? <==> parsed.None?
    ensures d.Some? ==> Counted(d.value) && d.value.nodes == parsed.value.0 && d.value.name == name
    ensures d.Some? ==> d.value.summary.totalRelationships == |Resolve(parsed.value.0, parsed.value.1)|
  {
    match parsed
    case None => None
    case Some((nodes, rels)) =>
      var resolved := Resolve(nodes, rels);
      var events := Seqs.Filter(nodes, HasLabelPred(EVENT_LABEL));
      var persons := Seqs.Filter(nodes, HasLabelPred(PERSON_LABEL));
      var locations := Seqs.Filter(nodes, HasLabelPred(LOCATION_LABEL));
      var times := Seqs.Filter(nodes, HasLabelPred(TIME_LABEL));
      Some(Dataset(name, Summary(|nodes|, |resolved|, |events|, |persons|, |locations|, |times|),
        nodes, resolved, events, persons, locations, times))
  }

  /** A category holds exactly the dataset's nodes that carry the label itself. */
  lemma CategoryExact(parsed: (seq<Node>, seq<RawRel>), name: string, x: Node)
    ensures var d := ExtractDataFromFile(Some(parsed), name).value;
      (x in d.events <==> x in parsed.0 && HasLabel(x, EVENT_LABEL)) &&
      (x in d.persons <==> x in parsed.0 && HasLabel(x, PERSON_LABEL)) &&
      (x in d.locations <==> x in parsed.0 && HasLabel(x, LOCATION_LABEL)) &&
      (x in d.times <==> x in parsed.0 && HasLabel(x, TIME_LABEL))
  {
    var nodes := parsed.0;
    if x in nodes {
      var i :| 0 <= i < |nodes| && nodes[i] == x;
      assert HasLabelPred(EVENT_LABEL)(nodes[i]) == HasLabel(x, EVENT_LABEL);
      assert HasLabelPred(PERSON_LABEL)(nodes[i]) == HasLabel(x, PERSON_LABEL);
      assert HasLabelPred(LOCATION_LABEL)(nodes[i]) == HasLabel(x, LOCATION_LABEL);
      assert HasLabelPred(TIME_LABEL)(nodes[i]) == HasLabel(x, TIME_LABEL);
    }
  }

  // ----- Combination -----

  /** `all_data['combined']` without its summary. */
  datatype Combined = Combined(
    nodes: seq<Node>,
    relationships: seq<Resolved>,
    events: seq<Node>,
    persons: seq<Node>,
    locations: seq<Node>,
    times: seq<Node>)

  const EMPTY_COMBINED := Combined([], [], [], [], [], [])

  /** The six `extend` calls for one dataset. */
  function Extend(c: Combined, d: Dataset): Combined {
    Combined(c.nodes + d.nodes, c.relationships + d.relationships, c.events + d.events,
      c.persons + d.persons, c.locations + d.locations, c.times + d.times)
  }

  /** The combined lists after the loop; a None (a missing file) is skipped. */
  function CombineAll(ds: seq<Option<Dataset>>): Combined
    decreases |ds|
  {
    if |ds| == 0 then EMPTY_COMBINED
    else
      var c := CombineAll(ds[..|ds| - 1]);
      match ds[|ds| - 1]
      case None => c
      case Some(d) => Extend(c, d)
  }

  /** `all_data['combined']['summary']` */
  function SummaryOf(c: Combined): Summary {
    Summary(|c.nodes|, |c.relationships|, |c.events|, |c.persons|, |c.locations|, |c.times|)
  }

  /** The summaries of the datasets that were found, added up. */
  function SumSummaries(ds: seq<Option<Dataset>>): Summary
    decreases |ds|
  {
    if |ds| == 0 then ZERO_SUMMARY
    else
      var s := SumSummaries(ds[..|ds| - 1]);
      match ds[|ds| - 1]
      case None => s
      case Some(d) => AddSummary(s, d.summary)
  }

  /** The combined summary is the sum of the per-dataset summaries. */
  lemma {:induction false} CombinedSummarySum(ds: seq<Option<Dataset>>)
    requires forall k :: 0 <= k < |ds| && ds[k].Some? ==> Counted(ds[k].value)
    ensures SummaryOf(CombineAll(ds)) == SumSummaries(ds)
    decreases |ds|
  {
    if |ds| > 0 {
      CombinedSummarySum(ds[..|ds| - 1]);
    }
  }

  /** `all_data['datasets']`: the datasets that were found, in order. */
  function Present(ds: seq<Option<Dataset>>): (r: seq<Dataset>)
    ensures |r| <= |ds|
    decreases |ds|
  {
    if |ds| == 0 then []
    else
      var r := Present(ds[..|ds| - 1]);
      match ds[|ds| - 1]
      case None => r
      case Some(d) => r + [d]
  }

  /** A dataset is listed iff it was found; one None per missing file is dropped. */
  lemma {:induction false} PresentMembers(ds: seq<Option<Dataset>>)
    ensures forall d :: d in Present(ds) <==> Some(d) in ds
    ensures |Present(ds)| == |ds| - |Seqs.Filter(ds, (o: Option<Dataset>) => o.None?)|
    decreases |ds|
  {
    if |ds| > 0 {
      var ds' := ds[..|ds| - 1];
      PresentMembers(ds');
      assert ds == ds' + [ds[|ds| - 1]];
    }
  }

  /** The loop of `main` over the datasets, then the combined summary. */
  method CombineDatasets(ds: seq<Option<Dataset>>) returns (found: seq<Dataset>, c: Combined, s: Summary)
    ensures c == CombineAll(ds) && s == SummaryOf(c)
    ensures found == Present(ds)
    ensures |found| <= |ds| && forall k :: 0 <= k < |found| ==> Some(found[k]) in ds
  {
    found := [];
    c := EMPTY_COMBINED;
    var i := 0;
    while i < |ds|
      invariant 0 <= i <= |ds|
      invariant c == CombineAll(ds[..i])
      invariant found == Present(ds[..i])
      invariant |found| <= i && forall k :: 0 <= k < |found| ==> Some(found[k]) in ds
    {
      assert ds[..i + 1][..i] == ds[..i];
      if ds[i].Some? {
        found := found + [ds[i].value];
        c := Extend(c, ds[i].value);
      }
      i := i + 1;
    }
    assert ds[..i] == ds;
    s := SummaryOf(c);
  }

  // ----- Input files -----

  /** The first candidate file that exists, if any. */
  function FirstPresent(candidates: seq<string>, present: set<string>): Option<string>
    decreases |candidates|
  {
    if |candidates| == 0 then None
    else if candidates[0] in present then Some(candidates[0])
    else FirstPresent(candidates[1..], present)
  }

  /**
   * The `for … if os.path.exists(…): append; break` search: at most one
   * file, the first candidate that exists.
   */
  method FirstExisting(candidates: seq<string>, present: set<string>) returns (r: Option<string>)
    ensures r.Some? ==> exists i :: (0 <= i < |candidates| && candidates[i] == r.value && r.value in present &&
      forall j :: 0 <= j < i ==> candidates[j] !in present)
    ensures r.None? ==> forall j :: 0 <= j < |candidates| ==> candidates[j] !in present
    ensures r == FirstPresent(candidates, present)
  {
    r := None;
    var i := 0;
    while i < |candidates|
      invariant 0 <= i <= |candidates|
      invariant forall j :: 0 <= j < i ==> candidates[j] !in present
      invariant FirstPresent(candidates, present) == FirstPresent(candidates[i..], present)
    {
      if candidates[i] in present {
        r := Some(candidates[i]);
        return;
      }
      assert candidates[i..][1..] == candidates[i + 1..];
      i := i + 1;
    }
  }

  const HUAYUAN_FILE := "花园口决堤_Neo4j导入脚本_最终版.cypher"
  const FEISHUI_FILES := ["淝水之战_节点导入_历史校验.cypher", "淝水之战_节点导入.cypher"]
  const HUAIHAI_FILES := ["淮海战役_双堆集战争_节点导入.cypher", "淮海战役_双堆集战争_节点导入_UTF8.cypher", "双堆集战争_节点导入.cypher"]

  /** `{ name, file }` */
  datatype DatasetFile = DatasetFile(name: string, file: string)

  function Opt(name: string, f: Option<string>): seq<DatasetFile> {
    if f.Some? then [DatasetFile(name, f.value)] else []
  }

  /** The `datasets` list of `main`: each of the three datasets once at most, in this order. */
  method FindDatasets(present: set<string>) returns (ds: seq<DatasetFile>)
    ensures ds == Opt("花园口决堤", if HUAYUAN_FILE in present then Some(HUAYUAN_FILE) else None) +
      Opt("淝水之战", FirstPresent(FEISHUI_FILES, present)) +
      Opt("双堆集战争", FirstPresent(HUAIHAI_FILES, present))
    ensures |ds| <= 3 && forall i, j :: 0 <= i < j < |ds| ==> ds[i].name != ds[j].name
    ensures forall k :: 0 <= k < |ds| ==> ds[k].file in present
  {
    ds := [];
    if HUAYUAN_FILE in present {
      ds := ds + [DatasetFile("花园口决堤", HUAYUAN_FILE)];
    }
    var f := FirstExisting(FEISHUI_FILES, present);
    ds := ds + Opt("淝水之战", f);
    var h := FirstExisting(HUAIHAI_FILES, present);
    ds := ds + Opt("双堆集战争", h);
  }
}
