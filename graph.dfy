/**
 * The knowledge-graph records the data scripts produce and the pages read:
 * nodes with an id, a list of labels and the properties the scripts look
 * at (name, data_source, lat/纬度, lng/经度), and the per-dataset summary
 * of counts.
 */
module Graph {
  import opened Wrappers
  import Text
  import Seqs

  /**
   * Node properties: `name` (None when the key is absent), `data_source`
   * ("" when absent) and the coordinates lat, 纬度 (latZh), lng, 经度 (lngZh),
   * 0 when absent.
   */
  datatype NodeProps = NodeProps(
    name: Option<string>,
    dataSource: string,
    lat: real,
    latZh: real,
    lng: real,
    lngZh: real)

  /** `{ id, labels, properties }` */
  datatype Node = Node(id: string, labels: seq<string>, properties: NodeProps)

  /** The four categories of the summaries. */
  const EVENT_LABEL := "事件"
  const PERSON_LABEL := "人物"
  const LOCATION_LABEL := "地点"
  const TIME_LABEL := "时间"

  /** `label in n['labels']`: exact membership. */
  predicate HasLabel(n: Node, tag: string) {
    tag in n.labels
  }

  /** `any(text in l for l in n['labels'])` / `n.labels.some(l => l.includes(text))` */
  predicate LabelContains(n: Node, text: string) {
    exists k :: 0 <= k < |n.labels| && Text.Contains(n.labels[k], text)
  }

  function HasLabelPred(tag: string): Node -> bool {
    n => HasLabel(n, tag)
  }

  function LabelContainsPred(text: string): Node -> bool {
    n => LabelContains(n, text)
  }

  /** A label equal to the text contains it: the exact test implies the substring test. */
  lemma ExactImpliesContains(n: Node, tag: string)
    requires HasLabel(n, tag)
    ensures LabelContains(n, tag)
  {
    var k :| 0 <= k < |n.labels| && n.labels[k] == tag;
    Text.StartsWithContains(n.labels[k], tag);
  }

  /** `{ total_nodes, total_relationships, events, persons, locations, times }` */
  datatype Summary = Summary(
    totalNodes: nat,
    totalRelationships: nat,
    events: nat,
    persons: nat,
    locations: nat,
    times: nat)

  /** Field-wise sum of two summaries. */
  function AddSummary(a: Summary, b: Summary): Summary {
    Summary(a.totalNodes + b.totalNodes, a.totalRelationships + b.totalRelationships,
      a.events + b.events, a.persons + b.persons, a.locations + b.locations, a.times + b.times)
  }

  const ZERO_SUMMARY := Summary(0, 0, 0, 0, 0, 0)
}
