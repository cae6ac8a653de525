/**
 * The data-organising script: the two graph exports (淝水 and 双堆集) turned
 * into nodes deduplicated by their Neo4j identity and relationships between
 * prefixed ids, the three CSV node tables, and the combined lists with their
 * substring-label categories and summary.
 */
module OrganizeData {
  import opened Wrappers
  import Seqs
  import Decimal
  import Text
  import ExtractData
  import opened Graph

  /** A node of a graph export: `identity`, `labels` ([] when absent) and `properties` (defaults when absent). */
  datatype RawNode = RawNode(identity: int, labels: seq<string>, properties: NodeProps)

  /** `{ source, target, type, data_source }` of an emitted relationship. */
  datatype Edge = Edge(source: string, target: string, relType: string, dataSource: string)

  const FEISHUI_PREFIX := "feishui_"
  const FEISHUI_SOURCE := "淝水.json"
  const SHUANGDUIJI_PREFIX := "shuangduiji_"
  const SHUANGDUIJI_SOURCE := "双堆集.json"

  /** `f"{prefix}{identity}"` */
  function NodeId(prefix: string, identity: int): string {
    prefix + Decimal.IntToString(identity)
  }

  /** Under one prefix, different identities give different ids. */
  lemma NodeIdInjective(prefix: string, a: int, b: int)
    requires NodeId(prefix, a) == NodeId(prefix, b)
    ensures a == b
  {
    assert NodeId(prefix, a)[|prefix|..] == Decimal.IntToString(a);
    assert NodeId(prefix, b)[|prefix|..] == Decimal.IntToString(b);
    Decimal.IntToStringInjective(a, b);
  }

  /** The emitted node: the prefixed id, the labels, and the properties with `data_source` set. */
  function MakeNode(prefix: string, source: string, n: RawNode): Node {
    Node(NodeId(prefix, n.identity), n.labels, n.properties.(dataSource := source))
  }

  // ----- Deduplication by identity -----

  /** `node_map` (identity to node) and the `nodes` list. */
  datatype Index = Index(seen: map<int, Node>, nodes: seq<Node>)

  const EMPTY_INDEX := Index(map[], [])

  /** `if node['identity'] not in node_map: …; node_map[identity] = node; nodes.append(node)` */
  function Admit(x: Index, prefix: string, source: string, n: RawNode): Index {
    if n.identity in x.seen then x
    else
      var node := MakeNode(prefix, source, n);
      Index(x.seen[n.identity := node], x.nodes + [node])
  }

  /** The nodes offered one after the other. */
  function Dedup(es: seq<RawNode>, prefix: string, source: string): Index
    decreases |es|
  {
    if |es| == 0 then EMPTY_INDEX
    else Admit(Dedup(es[..|es| - 1], prefix, source), prefix, source, es[|es| - 1])
  }

  /** Position p holds the first occurrence of its identity. */
  predicate FirstOccurrence(es: seq<RawNode>, p: nat)
    requires p < |es|
  {
    forall q :: 0 <= q < p ==> es[q].identity != es[p].identity
  }

  /** The index has exactly the identities that occur in `es`. */
  ghost predicate KeysOk(x: Index, es: seq<RawNode>) {
    forall k :: k in x.seen <==> exists p :: 0 <= p < |es| && es[p].identity == k
  }

  /** Each identity is mapped to the node made from its first occurrence. */
  ghost predicate FirstOk(x: Index, es: seq<RawNode>, prefix: string, source: string) {
    forall k :: k in x.seen ==> exists p :: (0 <= p < |es| && es[p].identity == k && FirstOccurrence(es, p) &&
      x.seen[k] == MakeNode(prefix, source, es[p]))
  }

  /** The list holds exactly the mapped nodes, each with the id of its identity. */
  ghost predicate ListOk(x: Index, prefix: string) {
    (forall i :: 0 <= i < |x.nodes| ==> exists k :: k in x.seen && x.seen[k] == x.nodes[i]) &&
    (forall k :: k in x.seen ==> x.seen[k] in x.nodes && x.seen[k].id == NodeId(prefix, k))
  }

  predicate UniqueIds(nodes: seq<Node>) {
    forall i, j :: 0 <= i < j < |nodes| ==> nodes[i].id != nodes[j].id
  }

  /**
   * What the index holds after the nodes `es` were offered: exactly the
   * identities that occur, each mapped to the node made from its first
   * occurrence; the list holds exactly the mapped nodes, with pairwise
   * distinct ids.
   */
  ghost predicate IndexOk(x: Index, es: seq<RawNode>, prefix: string, source: string) {
    KeysOk(x, es) && FirstOk(x, es, prefix, source) && ListOk(x, prefix) && UniqueIds(x.nodes)
  }

  lemma AdmitKeys(x: Index, es: seq<RawNode>, n: RawNode, prefix: string, source: string)
    requires KeysOk(x, es)
    ensures KeysOk(Admit(x, prefix, source, n), es + [n])
  {
    var es' := es + [n];
    var y := Admit(x, prefix, source, n);
    forall k ensures k in y.seen <==> exists p :: 0 <= p < |es'| && es'[p].identity == k {
      if k in x.seen {
        var p :| 0 <= p < |es| && es[p].identity == k;
        assert es'[p] == es[p];
      }
      if exists p :: 0 <= p < |es'| && es'[p].identity == k {
        var p :| 0 <= p < |es'| && es'[p].identity == k;
        if p < |es| {
          assert es[p] == es'[p];
        }
      }
      if k == n.identity {
        assert es'[|es|] == n;
      }
    }
  }

  lemma AdmitFirst(x: Index, es: seq<RawNode>, n: RawNode, prefix: string, source: string)
    requires KeysOk(x, es) && FirstOk(x, es, prefix, source)
    ensures FirstOk(Admit(x, prefix, source, n), es + [n], prefix, source)
  {
    var es' := es + [n];
    var y := Admit(x, prefix, source, n);
    forall k | k in y.seen
      ensures exists p :: (0 <= p < |es'| && es'[p].identity == k && FirstOccurrence(es', p) &&
        y.seen[k] == MakeNode(prefix, source, es'[p]))
    {
      if k in x.seen {
        var p :| 0 <= p < |es| && es[p].identity == k && FirstOccurrence(es, p) && x.seen[k] == MakeNode(prefix, source, es[p]);
        assert es'[p] == es[p];
        assert FirstOccurrence(es', p) by {
          forall q | 0 <= q < p ensures es'[q].identity != es'[p].identity {
            assert es'[q] == es[q];
          }
        }
      } else {
        assert k == n.identity && es'[|es|] == n;
        assert FirstOccurrence(es', |es|) by {
          forall q | 0 <= q < |es| ensures es'[q].identity != n.identity {
            assert es'[q] == es[q];
          }
        }
      }
    }
  }

  lemma AdmitList(x: Index, n: RawNode, prefix: string, source: string)
    requires ListOk(x, prefix)
    ensures ListOk(Admit(x, prefix, source, n), prefix)
  {
    var y := Admit(x, prefix, source, n);
    if n.identity !in x.seen {
      forall i | 0 <= i < |y.nodes| ensures exists k :: k in y.seen && y.seen[k] == y.nodes[i] {
        if i < |x.nodes| {
          assert x.nodes[i] in x.nodes;
          var k :| k in x.seen && x.seen[k] == x.nodes[i];
          assert y.seen[k] == y.nodes[i];
        } else {
          assert y.seen[n.identity] == y.nodes[i];
        }
      }
    }
  }

  lemma AdmitUnique(x: Index, n: RawNode, prefix: string, source: string)
    requires ListOk(x, prefix) && UniqueIds(x.nodes)
    ensures UniqueIds(Admit(x, prefix, source, n).nodes)
  {
    if n.identity !in x.seen {
      var node := MakeNode(prefix, source, n);
      forall i | 0 <= i < |x.nodes| ensures x.nodes[i].id != node.id {
        assert x.nodes[i] in x.nodes;
        var k :| k in x.seen && x.seen[k] == x.nodes[i];
        if x.nodes[i].id == node.id {
          NodeIdInjective(prefix, k, n.identity);
        }
      }
      assert Admit(x, prefix, source, n).nodes == x.nodes + [node];
    }
  }

  /** After deduplication the index maps exactly the identities that occur. */
  lemma {:induction false} DedupKeys(es: seq<RawNode>, prefix: string, source: string)
    ensures KeysOk(Dedup(es, prefix, source), es)
    decreases |es|
  {
    if |es| > 0 {
      var es', n := es[..|es| - 1], es[|es| - 1];
      DedupKeys(es', prefix, source);
      assert es' + [n] == es;
      AdmitKeys(Dedup(es', prefix, source), es', n, prefix, source);
    }
  }

  /** After deduplication each identity maps to the node of its first occurrence. */
  lemma {:induction false} DedupFirst(es: seq<RawNode>, prefix: string, source: string)
    ensures FirstOk(Dedup(es, prefix, source), es, prefix, source)
    decreases |es|
  {
    if |es| > 0 {
      var es', n := es[..|es| - 1], es[|es| - 1];
      DedupFirst(es', prefix, source);
      DedupKeys(es', prefix, source);
      assert es' + [n] == es;
      AdmitFirst(Dedup(es', prefix, source), es', n, prefix, source);
    }
  }

  /** After deduplication the list and the map hold the same nodes, with their ids unique. */
  lemma {:induction false} DedupList(es: seq<RawNode>, prefix: string, source: string)
    ensures ListOk(Dedup(es, prefix, source), prefix)
    ensures UniqueIds(Dedup(es, prefix, source).nodes)
    decreases |es|
  {
    if |es| > 0 {
      var es', n := es[..|es| - 1], es[|es| - 1];
      DedupList(es', prefix, source);
      AdmitList(Dedup(es', prefix, source), n, prefix, source);
      AdmitUnique(Dedup(es', prefix, source), n, prefix, source);
    }
  }

  /** Deduplication keeps the first node of each identity, once, with distinct ids. */
  lemma DedupSpec(es: seq<RawNode>, prefix: string, source: string)
    ensures IndexOk(Dedup(es, prefix, source), es, prefix, source)
  {
    DedupKeys(es, prefix, source);
    DedupFirst(es, prefix, source);
    DedupList(es, prefix, source);
  }

  /** Offering two nodes one after the other. */
  lemma DedupTwo(es: seq<RawNode>, a: RawNode, b: RawNode, prefix: string, source: string)
    ensures Dedup(es + [a, b], prefix, source) ==
      Admit(Admit(Dedup(es, prefix, source), prefix, source, a), prefix, source, b)
  {
    var e2 := es + [a, b];
    assert e2[..|e2| - 1] == es + [a];
    assert (es + [a])[..|es|] == es;
  }

  lemma DedupOne(es: seq<RawNode>, a: RawNode, prefix: string, source: string)
    ensures Dedup(es + [a], prefix, source) == Admit(Dedup(es, prefix, source), prefix, source, a)
  {
    assert (es + [a])[..|es|] == es;
  }

  /** The index and the relationships built from an export. */
  datatype Extracted = Extracted(index: Index, rels: seq<Edge>)

  /**
   * Every relationship links the ids of two identities that have a node:
   * the relationships point at emitted nodes only.
   */
  predicate Closed(x: Extracted, prefix: string) {
    forall r :: r in x.rels ==>
      (exists k :: k in x.index.seen && NodeId(prefix, k) == r.source) &&
      (exists k :: k in x.index.seen && NodeId(prefix, k) == r.target)
  }

  lemma AdmitGrows(x: Index, prefix: string, source: string, n: RawNode)
    ensures x.seen.Keys + {n.identity} == Admit(x, prefix, source, n).seen.Keys
  {
  }

  /** A closed export names, as endpoints, only ids of emitted nodes. */
  lemma ClosedEndpoints(x: Extracted, prefix: string)
    requires Closed(x, prefix) && ListOk(x.index, prefix)
    ensures forall r :: r in x.rels ==>
      (exists i :: 0 <= i < |x.index.nodes| && x.index.nodes[i].id == r.source) &&
      (exists j :: 0 <= j < |x.index.nodes| && x.index.nodes[j].id == r.target)
  {
    forall r | r in x.rels
      ensures (exists i :: 0 <= i < |x.index.nodes| && x.index.nodes[i].id == r.source) &&
        (exists j :: 0 <= j < |x.index.nodes| && x.index.nodes[j].id == r.target)
    {
      var a :| a in x.index.seen && NodeId(prefix, a) == r.source;
      var b :| b in x.index.seen && NodeId(prefix, b) == r.target;
      ListedId(x.index, prefix, a);
      ListedId(x.index, prefix, b);
    }
  }

  /** A mapped identity has a node with its id in the list. */
  lemma ListedId(x: Index, prefix: string, k: int)
    requires ListOk(x, prefix) && k in x.seen
    ensures exists i :: 0 <= i < |x.nodes| && x.nodes[i].id == NodeId(prefix, k)
  {
    var i :| 0 <= i < |x.nodes| && x.nodes[i] == x.seen[k];
  }

  // ----- The 淝水 export -----

  /**
   * An element of the 淝水 export: a path `p` with its start and end nodes
   * and the relationship type of each of its segments ('' when a type is
   * absent; no segments when the key is absent), or anything else.
   */
  datatype FeishuiItem = PathItem(start: RawNode, end: RawNode, segments: seq<string>) | OtherItem

  /** The relationship of a path with segments: start to end, typed by the first segment. */
  function PathEdge(item: FeishuiItem): Edge
    requires item.PathItem? && |item.segments| > 0
  {
    Edge(NodeId(FEISHUI_PREFIX, item.start.identity), NodeId(FEISHUI_PREFIX, item.end.identity),
      item.segments[0], FEISHUI_SOURCE)
  }

  /** One element of the `for item in json_data` loop of `process_feishui_json`. */
  function FeishuiStep(x: Extracted, item: FeishuiItem): Extracted {
    match item
    case OtherItem => x
    case PathItem(s, e, segs) =>
      var idx := Admit(Admit(x.index, FEISHUI_PREFIX, FEISHUI_SOURCE, s), FEISHUI_PREFIX, FEISHUI_SOURCE, e);
      Extracted(idx, if |segs| > 0 then x.rels + [PathEdge(item)] else x.rels)
  }

  function Feishui(items: seq<FeishuiItem>): Extracted
    decreases |items|
  {
    if |items| == 0 then Extracted(EMPTY_INDEX, [])
    else FeishuiStep(Feishui(items[..|items| - 1]), items[|items| - 1])
  }

  /** The endpoints of the paths in order, start before end. */
  function FeishuiEndpoints(items: seq<FeishuiItem>): seq<RawNode>
    decreases |items|
  {
    if |items| == 0 then []
    else
      var item := items[|items| - 1];
      FeishuiEndpoints(items[..|items| - 1]) + (if item.PathItem? then [item.start, item.end] else [])
  }

  function SegmentsPred(): FeishuiItem -> bool {
    (item: FeishuiItem) => item.PathItem? && |item.segments| > 0
  }

  /**
   * The nodes of the 淝水 export are the path endpoints deduplicated by
   * identity in first-seen order, start before end.
   */
  lemma {:induction false} FeishuiIndex(items: seq<FeishuiItem>)
    ensures Feishui(items).index == Dedup(FeishuiEndpoints(items), FEISHUI_PREFIX, FEISHUI_SOURCE)
    decreases |items|
  {
    if |items| > 0 {
      var pre := items[..|items| - 1];
      var item := items[|items| - 1];
      FeishuiIndex(pre);
      if item.PathItem? {
        DedupTwo(FeishuiEndpoints(pre), item.start, item.end, FEISHUI_PREFIX, FEISHUI_SOURCE);
        assert FeishuiEndpoints(items) == FeishuiEndpoints(pre) + [item.start, item.end];
      } else {
        assert FeishuiEndpoints(items) == FeishuiEndpoints(pre) + [];
        assert FeishuiEndpoints(pre) + [] == FeishuiEndpoints(pre);
      }
    }
  }

  /** Each 淝水 relationship joins two identities that have a node. */
  lemma {:induction false} FeishuiClosed(items: seq<FeishuiItem>)
    ensures Closed(Feishui(items), FEISHUI_PREFIX)
    decreases |items|
  {
    if |items| > 0 {
      var pre := items[..|items| - 1];
      var item := items[|items| - 1];
      FeishuiClosed(pre);
      if item.PathItem? {
        var x := Feishui(pre);
        var i1 := Admit(x.index, FEISHUI_PREFIX, FEISHUI_SOURCE, item.start);
        var i2 := Admit(i1, FEISHUI_PREFIX, FEISHUI_SOURCE, item.end);
        AdmitGrows(x.index, FEISHUI_PREFIX, FEISHUI_SOURCE, item.start);
        AdmitGrows(i1, FEISHUI_PREFIX, FEISHUI_SOURCE, item.end);
        var y := Feishui(items);
        assert y.index == i2;
        forall r | r in y.rels
          ensures (exists k :: k in i2.seen && NodeId(FEISHUI_PREFIX, k) == r.source) &&
            (exists k :: k in i2.seen && NodeId(FEISHUI_PREFIX, k) == r.target)
        {
          if r in x.rels {
            var a :| a in x.index.seen && NodeId(FEISHUI_PREFIX, a) == r.source;
            var b :| b in x.index.seen && NodeId(FEISHUI_PREFIX, b) == r.target;
            assert a in i2.seen && b in i2.seen;
          } else {
            assert r == PathEdge(item);
            assert item.start.identity in i2.seen && item.end.identity in i2.seen;
          }
        }
      }
    }
  }

  /**
   * The 淝水 nodes are deduplicated by identity, the first occurrence wins,
   * the ids are distinct, and every relationship end is the id of an
   * emitted node.
   */
  lemma FeishuiNodes(items: seq<FeishuiItem>)
    ensures IndexOk(Feishui(items).index, FeishuiEndpoints(items), FEISHUI_PREFIX, FEISHUI_SOURCE)
    ensures var x := Feishui(items);
      forall r :: r in x.rels ==>
        (exists i :: 0 <= i < |x.index.nodes| && x.index.nodes[i].id == r.source) &&
        (exists j :: 0 <= j < |x.index.nodes| && x.index.nodes[j].id == r.target)
  {
    FeishuiIndex(items);
    DedupSpec(FeishuiEndpoints(items), FEISHUI_PREFIX, FEISHUI_SOURCE);
    FeishuiClosed(items);
    ClosedEndpoints(Feishui(items), FEISHUI_PREFIX);
  }

  /**
   * One relationship per path with segments, in order: the relationships are
   * the path edges of exactly those items.
   */
  lemma {:induction false} FeishuiRels(items: seq<FeishuiItem>)
    ensures var ps := Seqs.Filter(items, SegmentsPred());
      |Feishui(items).rels| == |ps| &&
      forall k :: 0 <= k < |ps| ==> ps[k].PathItem? && |ps[k].segments| > 0 && Feishui(items).rels[k] == PathEdge(ps[k])
    decreases |items|
  {
    if |items| > 0 {
      FeishuiRels(items[..|items| - 1]);
    }
  }

  /** `process_feishui_json(json_data)` */
  method ProcessFeishuiJson(items: seq<FeishuiItem>) returns (nodes: seq<Node>, rels: seq<Edge>)
    ensures nodes == Feishui(items).index.nodes && rels == Feishui(items).rels
    ensures forall i, j :: 0 <= i < j < |nodes| ==> nodes[i].id != nodes[j].id
    ensures forall r :: r in rels ==>
      (exists i :: 0 <= i < |nodes| && nodes[i].id == r.source) &&
      (exists j :: 0 <= j < |nodes| && nodes[j].id == r.target)
  {
    var nodeMap: map<int, Node> := map[];
    nodes, rels := [], [];
    var i := 0;
    while i < |items|
      invariant 0 <= i <= |items|
      invariant Extracted(Index(nodeMap, nodes), rels) == Feishui(items[..i])
    {
      assert items[..i + 1][..i] == items[..i];
      var item := items[i];
      if item.PathItem? {
        var s, e := item.start, item.end;
        if s.identity !in nodeMap {
          var node := MakeNode(FEISHUI_PREFIX, FEISHUI_SOURCE, s);
          nodeMap := nodeMap[s.identity := node];
          nodes := nodes + [node];
        }
        if e.identity !in nodeMap {
          var node := MakeNode(FEISHUI_PREFIX, FEISHUI_SOURCE, e);
          nodeMap := nodeMap[e.identity := node];
          nodes := nodes + [node];
        }
        if |item.segments| > 0 {
          rels := rels + [Edge(NodeId(FEISHUI_PREFIX, s.identity), NodeId(FEISHUI_PREFIX, e.identity),
            item.segments[0], FEISHUI_SOURCE)];
        }
      }
      i := i + 1;
    }
    assert items[..i] == items;
    FeishuiNodes(items);
  }

  // ----- The 双堆集 export -----

  /** The `r` part of an element: its `start` and `end` identities and its type ('' when absent). */
  datatype RawRel = RawRel(start: int, end: int, relType: string)

  /** An element of the 双堆集 export: its `n`, `m` and `r` parts, each possibly absent. */
  datatype ShuangduijiItem = ShuangduijiItem(n: Option<RawNode>, m: Option<RawNode>, r: Option<RawRel>)

  function AdmitOpt(x: Index, o: Option<RawNode>): Index {
    if o.Some? then Admit(x, SHUANGDUIJI_PREFIX, SHUANGDUIJI_SOURCE, o.value) else x
  }

  /** The relationship of an `r` part: unchecked prefixed ids of its start and end. */
  function RelEdge(r: RawRel): Edge {
    Edge(NodeId(SHUANGDUIJI_PREFIX, r.start), NodeId(SHUANGDUIJI_PREFIX, r.end), r.relType, SHUANGDUIJI_SOURCE)
  }

  /** One element of the loop of `process_shuangduiji_json`: `n`, then `m`, then `r`. */
  function ShuangduijiStep(x: Extracted, item: ShuangduijiItem): Extracted {
    Extracted(AdmitOpt(AdmitOpt(x.index, item.n), item.m),
      x.rels + (if item.r.Some? then [RelEdge(item.r.value)] else []))
  }

  function Shuangduiji(items: seq<ShuangduijiItem>): Extracted
    decreases |items|
  {
    if |items| == 0 then Extracted(EMPTY_INDEX, [])
    else ShuangduijiStep(Shuangduiji(items[..|items| - 1]), items[|items| - 1])
  }

  function OptSeq<T>(o: Option<T>): seq<T> {
    if o.Some? then [o.value] else []
  }

  /** The `n` and `m` nodes in order. */
  function ShuangduijiEndpoints(items: seq<ShuangduijiItem>): seq<RawNode>
    decreases |items|
  {
    if |items| == 0 then []
    else
      var item := items[|items| - 1];
      ShuangduijiEndpoints(items[..|items| - 1]) + OptSeq(item.n) + OptSeq(item.m)
  }

  function HasRelPred(): ShuangduijiItem -> bool {
    (item: ShuangduijiItem) => item.r.Some?
  }

  /** The nodes of the 双堆集 export are its `n` and `m` nodes deduplicated by identity in first-seen order. */
  lemma {:induction false} ShuangduijiIndex(items: seq<ShuangduijiItem>)
    ensures Shuangduiji(items).index == Dedup(ShuangduijiEndpoints(items), SHUANGDUIJI_PREFIX, SHUANGDUIJI_SOURCE)
    decreases |items|
  {
    if |items| > 0 {
      var pre := items[..|items| - 1];
      var item := items[|items| - 1];
      ShuangduijiIndex(pre);
      var es := ShuangduijiEndpoints(pre);
      var e1 := es + OptSeq(item.n);
      var x := Shuangduiji(pre).index;
      if item.n.Some? {
        DedupOne(es, item.n.value, SHUANGDUIJI_PREFIX, SHUANGDUIJI_SOURCE);
      } else {
        assert e1 == es;
      }
      assert Dedup(e1, SHUANGDUIJI_PREFIX, SHUANGDUIJI_SOURCE) == AdmitOpt(x, item.n);
      var e2 := e1 + OptSeq(item.m);
      if item.m.Some? {
        DedupOne(e1, item.m.value, SHUANGDUIJI_PREFIX, SHUANGDUIJI_SOURCE);
      } else {
        assert e2 == e1;
      }
      assert Dedup(e2, SHUANGDUIJI_PREFIX, SHUANGDUIJI_SOURCE) == AdmitOpt(AdmitOpt(x, item.n), item.m);
      assert e2 == ShuangduijiEndpoints(items);
    }
  }

  /** One relationship per element with an `r` part, in order. */
  lemma {:induction false} ShuangduijiRels(items: seq<ShuangduijiItem>)
    ensures var rs := Seqs.Filter(items, HasRelPred());
      |Shuangduiji(items).rels| == |rs| &&
      forall k :: 0 <= k < |rs| ==> rs[k].r.Some? && Shuangduiji(items).rels[k] == RelEdge(rs[k].r.value)
    decreases |items|
  {
    if |items| > 0 {
      ShuangduijiRels(items[..|items| - 1]);
    }
  }

  /** The 双堆集 nodes are deduplicated by identity, the first occurrence wins, and the ids are distinct. */
  lemma ShuangduijiNodes(items: seq<ShuangduijiItem>)
    ensures IndexOk(Shuangduiji(items).index, ShuangduijiEndpoints(items), SHUANGDUIJI_PREFIX, SHUANGDUIJI_SOURCE)
  {
    ShuangduijiIndex(items);
    DedupSpec(ShuangduijiEndpoints(items), SHUANGDUIJI_PREFIX, SHUANGDUIJI_SOURCE);
  }

  /**
   * Relationships are not checked against the emitted nodes: an element with
   * only an `r` part yields a relationship between ids no node carries.
   */
  lemma ShuangduijiDangling()
    ensures var x := Shuangduiji([ShuangduijiItem(None, None, Some(RawRel(1, 2, "")))]);
      x.index.nodes == [] && x.rels == [Edge("shuangduiji_1", "shuangduiji_2", "", SHUANGDUIJI_SOURCE)] &&
      !Closed(x, SHUANGDUIJI_PREFIX)
  {
    var items := [ShuangduijiItem(None, None, Some(RawRel(1, 2, "")))];
    assert items[..0] == [];
    assert Decimal.IntToString(1) == "1";
    assert Decimal.IntToString(2) == "2";
    assert NodeId(SHUANGDUIJI_PREFIX, 1) == "shuangduiji_1";
    assert NodeId(SHUANGDUIJI_PREFIX, 2) == "shuangduiji_2";
    var x := Shuangduiji(items);
    assert x == Extracted(EMPTY_INDEX, [RelEdge(RawRel(1, 2, ""))]);
  }

  /** `process_shuangduiji_json(json_data)` */
  method ProcessShuangduijiJson(items: seq<ShuangduijiItem>) returns (nodes: seq<Node>, rels: seq<Edge>)
    ensures nodes == Shuangduiji(items).index.nodes && rels == Shuangduiji(items).rels
    ensures forall i, j :: 0 <= i < j < |nodes| ==> nodes[i].id != nodes[j].id
  {
    var nodeMap: map<int, Node> := map[];
    nodes, rels := [], [];
    var i := 0;
    while i < |items|
      invariant 0 <= i <= |items|
      invariant Extracted(Index(nodeMap, nodes), rels) == Shuangduiji(items[..i])
    {
      assert items[..i + 1][..i] == items[..i];
      var item := items[i];
      assert Shuangduiji(items[..i + 1]) == ShuangduijiStep(Shuangduiji(items[..i]), item);
      ghost var x0 := Index(nodeMap, nodes);
      if item.n.Some? && item.n.value.identity !in nodeMap {
        var node := MakeNode(SHUANGDUIJI_PREFIX, SHUANGDUIJI_SOURCE, item.n.value);
        nodeMap := nodeMap[item.n.value.identity := node];
        nodes := nodes + [node];
      }
      assert Index(nodeMap, nodes) == AdmitOpt(x0, item.n);
      ghost var x1 := Index(nodeMap, nodes);
      if item.m.Some? && item.m.value.identity !in nodeMap {
        var node := MakeNode(SHUANGDUIJI_PREFIX, SHUANGDUIJI_SOURCE, item.m.value);
        nodeMap := nodeMap[item.m.value.identity := node];
        nodes := nodes + [node];
      }
      assert Index(nodeMap, nodes) == AdmitOpt(x1, item.m);
      if item.r.Some? {
        rels := rels + [RelEdge(item.r.value)];
      }
      i := i + 1;
    }
    assert items[..i] == items;
    ShuangduijiNodes(items);
  }

  // ----- CSV node tables -----

  /** A CSV row: the value of the table's id column (None when the column is absent) and its properties. */
  datatype CsvRow = CsvRow(key: Option<string>, properties: NodeProps)

  /** A node table: the fallback id prefix, the one label and the `data_source`. */
  datatype CsvTable = CsvTable(prefix: string, tag: string, source: string)

  /** `事件ID` / `event_`, `人物序号` / `person_`, `LocationID` / `location_`. */
  const EVENTS_TABLE := CsvTable("event_", EVENT_LABEL, "events.csv")
  const PERSONS_TABLE := CsvTable("person_", PERSON_LABEL, "persons.csv")
  const LOCATIONS_TABLE := CsvTable("location_", LOCATION_LABEL, "geo_coords.csv")

  /** The id of row i: its id column, else the prefix and the row index (`len(nodes)` before the append). */
  function CsvId(row: CsvRow, i: nat, t: CsvTable): string {
    if row.key.Some? then row.key.value else t.prefix + Decimal.NatToString(i)
  }

  function CsvNode(row: CsvRow, i: nat, t: CsvTable): Node {
    Node(CsvId(row, i, t), [t.tag], row.properties.(dataSource := t.source))
  }

  /** `process_csv_events` / `process_csv_persons` / `process_csv_locations` over the parsed rows. */
  method ProcessCsv(rows: seq<CsvRow>, t: CsvTable) returns (nodes: seq<Node>)
    ensures |nodes| == |rows|
    ensures forall i :: 0 <= i < |rows| ==> nodes[i] == CsvNode(rows[i], i, t)
  {
    nodes := [];
    var i := 0;
    while i < |rows|
      invariant 0 <= i <= |rows| && |nodes| == i
      invariant forall k :: 0 <= k < i ==> nodes[k] == CsvNode(rows[k], k, t)
    {
      var id := if rows[i].key.Some? then rows[i].key.value else t.prefix + Decimal.NatToString(|nodes|);
      nodes := nodes + [Node(id, [t.tag], rows[i].properties.(dataSource := t.source))];
      i := i + 1;
    }
  }

  /** Rows without an id column get distinct ids: the index makes them unique within a table. */
  lemma CsvFallbackDistinct(rows: seq<CsvRow>, t: CsvTable, i: nat, j: nat)
    requires i < j < |rows| && rows[i].key.None? && rows[j].key.None?
    ensures CsvId(rows[i], i, t) != CsvId(rows[j], j, t)
  {
    if CsvId(rows[i], i, t) == CsvId(rows[j], j, t) {
      assert CsvId(rows[i], i, t)[|t.prefix|..] == Decimal.NatToString(i);
      assert CsvId(rows[j], j, t)[|t.prefix|..] == Decimal.NatToString(j);
      Decimal.NatToStringInjective(i, j);
    }
  }

  function CsvNodes(rows: Option<seq<CsvRow>>, t: CsvTable): (ns: seq<Node>)
    ensures rows.Some? ==> |ns| == |rows.value| && forall i :: 0 <= i < |ns| ==> ns[i] == CsvNode(rows.value[i], i, t)
    ensures rows.None? ==> ns == []
  {
    if rows.None? then []
    else seq(|rows.value|, i requires 0 <= i < |rows.value| => CsvNode(rows.value[i], i, t))
  }

  // ----- Combination -----

  /** A relationship of the combined lists: a parsed Cypher one, or one from a graph export. */
  datatype Relationship = CypherRel(raw: ExtractData.RawRel) | GraphRel(edge: Edge)

  function GraphRels(es: seq<Edge>): (rs: seq<Relationship>)
    ensures |rs| == |es| && forall i :: 0 <= i < |es| ==> rs[i] == GraphRel(es[i])
  {
    seq(|es|, i requires 0 <= i < |es| => GraphRel(es[i]))
  }

  function CypherRels(raw: seq<ExtractData.RawRel>): (rs: seq<Relationship>)
    ensures |rs| == |raw| && forall i :: 0 <= i < |raw| ==> rs[i] == CypherRel(raw[i])
  {
    seq(|raw|, i requires 0 <= i < |raw| => CypherRel(raw[i]))
  }

  /** An entry of `datasets`: its name, its summary by exact label membership, its nodes and relationships. */
  datatype DatasetEntry = DatasetEntry(name: string, summary: Summary, nodes: seq<Node>,
    relationships: seq<Relationship>, dataSource: string)

  /** The per-dataset summary: `'事件' in n['labels']` and the like, and the raw relationship count. */
  function ExactSummary(nodes: seq<Node>, rels: seq<Relationship>): Summary {
    Summary(|nodes|, |rels|,
      |Seqs.Filter(nodes, HasLabelPred(EVENT_LABEL))|, |Seqs.Filter(nodes, HasLabelPred(PERSON_LABEL))|,
      |Seqs.Filter(nodes, HasLabelPred(LOCATION_LABEL))|, |Seqs.Filter(nodes, HasLabelPred(TIME_LABEL))|)
  }

  function Entry(name: string, nodes: seq<Node>, rels: seq<Relationship>, source: string): DatasetEntry {
    DatasetEntry(name, ExactSummary(nodes, rels), nodes, rels, source)
  }

  /**
   * The parsed inputs of `main`, None for a file that does not exist: the
   * 花园口 Cypher script (its nodes and raw relationships), the two graph
   * exports and the three CSV node tables.
   */
  datatype Inputs = Inputs(
    huayuan: Option<(seq<Node>, seq<ExtractData.RawRel>)>,
    feishui: Option<seq<FeishuiItem>>,
    shuangduiji: Option<seq<ShuangduijiItem>>,
    events: Option<seq<CsvRow>>,
    persons: Option<seq<CsvRow>>,
    locations: Option<seq<CsvRow>>)

  const HUAYUAN_SOURCE := "花园口决堤_Neo4j导入脚本_最终版.cypher"

  /** The `datasets` list: the three graph datasets that exist, in this order. */
  function Datasets(inp: Inputs): seq<DatasetEntry> {
    (if inp.huayuan.Some? then
       [Entry("花园口决堤", inp.huayuan.value.0, CypherRels(inp.huayuan.value.1), HUAYUAN_SOURCE)] else []) +
    (if inp.feishui.Some? then
       var x := Feishui(inp.feishui.value);
       [Entry("淝水之战", x.index.nodes, GraphRels(x.rels), FEISHUI_SOURCE)] else []) +
    (if inp.shuangduiji.Some? then
       var x := Shuangduiji(inp.shuangduiji.value);
       [Entry("双堆集战争", x.index.nodes, GraphRels(x.rels), SHUANGDUIJI_SOURCE)] else [])
  }

  function DatasetNodes(ds: seq<DatasetEntry>): seq<Node>
    decreases |ds|
  {
    if |ds| == 0 then [] else DatasetNodes(ds[..|ds| - 1]) + ds[|ds| - 1].nodes
  }

  function DatasetRels(ds: seq<DatasetEntry>): seq<Relationship>
    decreases |ds|
  {
    if |ds| == 0 then [] else DatasetRels(ds[..|ds| - 1]) + ds[|ds| - 1].relationships
  }

  /** `combined['nodes']`: the dataset nodes in order, then the CSV events, persons and locations. */
  function AllNodes(inp: Inputs): seq<Node> {
    DatasetNodes(Datasets(inp)) + CsvNodes(inp.events, EVENTS_TABLE) +
      CsvNodes(inp.persons, PERSONS_TABLE) + CsvNodes(inp.locations, LOCATIONS_TABLE)
  }

  /** `all_datasets['combined']` */
  datatype Combined = Combined(nodes: seq<Node>, relationships: seq<Relationship>, events: seq<Node>,
    persons: seq<Node>, locations: seq<Node>, times: seq<Node>, summary: Summary)

  /** The four categories of the combined nodes: some label contains the category word. */
  function Categorise(nodes: seq<Node>, rels: seq<Relationship>): Combined {
    var ev := Seqs.Filter(nodes, LabelContainsPred(EVENT_LABEL));
    var pe := Seqs.Filter(nodes, LabelContainsPred(PERSON_LABEL));
    var lo := Seqs.Filter(nodes, LabelContainsPred(LOCATION_LABEL));
    var ti := Seqs.Filter(nodes, LabelContainsPred(TIME_LABEL));
    Combined(nodes, rels, ev, pe, lo, ti, Summary(|nodes|, |rels|, |ev|, |pe|, |lo|, |ti|))
  }

  /** `None`-skipping `extend` of the combined node list by one dataset. */
  method ExtendBy(cNodes: seq<Node>, cRels: seq<Relationship>, datasets: seq<DatasetEntry>, d: DatasetEntry)
    returns (cNodes': seq<Node>, cRels': seq<Relationship>, datasets': seq<DatasetEntry>)
    ensures cNodes' == cNodes + d.nodes && cRels' == cRels + d.relationships && datasets' == datasets + [d]
  {
    datasets' := datasets + [d];
    cNodes' := cNodes + d.nodes;
    cRels' := cRels + d.relationships;
  }

  lemma DatasetsAppend(ds: seq<DatasetEntry>, d: DatasetEntry)
    ensures DatasetNodes(ds + [d]) == DatasetNodes(ds) + d.nodes
    ensures DatasetRels(ds + [d]) == DatasetRels(ds) + d.relationships
  {
    assert (ds + [d])[..|ds|] == ds;
  }

  /** Steps 1-3 of `main`: the three graph datasets, each appended and its lists extended. */
  method CollectDatasets(inp: Inputs) returns (datasets: seq<DatasetEntry>, cNodes: seq<Node>, cRels: seq<Relationship>)
    ensures datasets == Datasets(inp)
    ensures cNodes == DatasetNodes(datasets) && cRels == DatasetRels(datasets)
  {
    datasets, cNodes, cRels := [], [], [];
    if inp.huayuan.Some? {
      var (nodes, rels) := inp.huayuan.value;
      var d := Entry("花园口决堤", nodes, CypherRels(rels), HUAYUAN_SOURCE);
      DatasetsAppend(datasets, d);
      cNodes, cRels, datasets := ExtendBy(cNodes, cRels, datasets, d);
    }
    ghost var d1 := datasets;
    if inp.feishui.Some? {
      var nodes, rels := ProcessFeishuiJson(inp.feishui.value);
      var d := Entry("淝水之战", nodes, GraphRels(rels), FEISHUI_SOURCE);
      DatasetsAppend(datasets, d);
      cNodes, cRels, datasets := ExtendBy(cNodes, cRels, datasets, d);
    }
    ghost var d2 := datasets;
    if inp.shuangduiji.Some? {
      var nodes, rels := ProcessShuangduijiJson(inp.shuangduiji.value);
      var d := Entry("双堆集战争", nodes, GraphRels(rels), SHUANGDUIJI_SOURCE);
      DatasetsAppend(datasets, d);
      cNodes, cRels, datasets := ExtendBy(cNodes, cRels, datasets, d);
    }
  }

  /** Step 4 of `main` for one table: when the file exists, its nodes extend the combined nodes. */
  method ExtendByTable(cNodes: seq<Node>, rows: Option<seq<CsvRow>>, t: CsvTable) returns (cNodes': seq<Node>, added: seq<Node>)
    ensures added == CsvNodes(rows, t) && cNodes' == cNodes + added
  {
    cNodes', added := cNodes, [];
    if rows.Some? {
      added := ProcessCsv(rows.value, t);
      cNodes' := cNodes + added;
    }
  }

  /** `main` from the parsed inputs up to the combined summary. */
  method Organize(inp: Inputs) returns (datasets: seq<DatasetEntry>, combined: Combined)
    ensures datasets == Datasets(inp)
    ensures combined == Categorise(AllNodes(inp), DatasetRels(datasets))
  {
    var cNodes, cRels;
    datasets, cNodes, cRels := CollectDatasets(inp);
    var csvEvents, csvPersons, csvLocations;
    cNodes, csvEvents := ExtendByTable(cNodes, inp.events, EVENTS_TABLE);
    var cEvents := csvEvents;
    cNodes, csvPersons := ExtendByTable(cNodes, inp.persons, PERSONS_TABLE);
    cNodes, csvLocations := ExtendByTable(cNodes, inp.locations, LOCATIONS_TABLE);
    cEvents := Seqs.Filter(cNodes, LabelContainsPred(EVENT_LABEL));
    var cPersons := Seqs.Filter(cNodes, LabelContainsPred(PERSON_LABEL));
    var cLocations := Seqs.Filter(cNodes, LabelContainsPred(LOCATION_LABEL));
    var cTimes := Seqs.Filter(cNodes, LabelContainsPred(TIME_LABEL));
    combined := Combined(cNodes, cRels, cEvents, cPersons, cLocations, cTimes,
      Summary(|cNodes|, |cRels|, |cEvents|, |cPersons|, |cLocations|, |cTimes|));
  }

  /**
   * The combined categories hold exactly the combined nodes with a label
   * containing the category word, and the summary counts the four lists, the
   * nodes and the relationships.
   */
  lemma CategoriseSpec(nodes: seq<Node>, rels: seq<Relationship>, x: Node)
    ensures var c := Categorise(nodes, rels);
      (x in c.events <==> x in nodes && LabelContains(x, EVENT_LABEL)) &&
      (x in c.persons <==> x in nodes && LabelContains(x, PERSON_LABEL)) &&
      (x in c.locations <==> x in nodes && LabelContains(x, LOCATION_LABEL)) &&
      (x in c.times <==> x in nodes && LabelContains(x, TIME_LABEL)) &&
      c.summary == Summary(|c.nodes|, |c.relationships|, |c.events|, |c.persons|, |c.locations|, |c.times|)
  {
    if x in nodes {
      var i :| 0 <= i < |nodes| && nodes[i] == x;
      assert LabelContainsPred(EVENT_LABEL)(nodes[i]) == LabelContains(x, EVENT_LABEL);
      assert LabelContainsPred(PERSON_LABEL)(nodes[i]) == LabelContains(x, PERSON_LABEL);
      assert LabelContainsPred(LOCATION_LABEL)(nodes[i]) == LabelContains(x, LOCATION_LABEL);
      assert LabelContainsPred(TIME_LABEL)(nodes[i]) == LabelContains(x, TIME_LABEL);
    }
  }

  /** A node whose labels are 事件 and 人物 is counted both as an event and as a person. */
  lemma SeveralCategories(props: NodeProps)
    ensures var x := Node("n", [EVENT_LABEL, PERSON_LABEL], props);
      var c := Categorise([x], []);
      c.events == [x] && c.persons == [x] && c.locations == [] && c.summary.totalNodes == 1 &&
      c.summary.events + c.summary.persons == 2
  {
    var x := Node("n", [EVENT_LABEL, PERSON_LABEL], props);
    Graph.ExactImpliesContains(x, EVENT_LABEL);
    Graph.ExactImpliesContains(x, PERSON_LABEL);
    assert !LabelContains(x, LOCATION_LABEL) by {
      forall k | 0 <= k < |x.labels| ensures !Text.Contains(x.labels[k], LOCATION_LABEL) {
        Text.ContainsChar(x.labels[k], LOCATION_LABEL[0]);
      }
    }
    assert [x][..0] == [];
  }

  /**
   * The substring categories include the exact ones: a node of a dataset
   * counted as an event in that dataset's summary is a combined event, and so
   * is every CSV event row.
   */
  lemma ExactNodesCategorised(inp: Inputs, x: Node)
    requires x in AllNodes(inp) && HasLabel(x, EVENT_LABEL)
    ensures x in Categorise(AllNodes(inp), DatasetRels(Datasets(inp))).events
  {
    Graph.ExactImpliesContains(x, EVENT_LABEL);
    CategoriseSpec(AllNodes(inp), DatasetRels(Datasets(inp)), x);
  }

  lemma CsvEventsCategorised(inp: Inputs, i: nat)
    requires inp.events.Some? && i < |inp.events.value|
    ensures CsvNode(inp.events.value[i], i, EVENTS_TABLE) in Categorise(AllNodes(inp), DatasetRels(Datasets(inp))).events
  {
    var x := CsvNode(inp.events.value[i], i, EVENTS_TABLE);
    var ev := CsvNodes(inp.events, EVENTS_TABLE);
    assert ev[i] == x;
    var a := DatasetNodes(Datasets(inp));
    assert x in AllNodes(inp) by {
      assert AllNodes(inp) == a + ev + CsvNodes(inp.persons, PERSONS_TABLE) + CsvNodes(inp.locations, LOCATIONS_TABLE);
      assert (a + ev)[|a| + i] == x;
    }
    assert x.labels[0] == EVENT_LABEL;
    ExactNodesCategorised(inp, x);
  }
}
