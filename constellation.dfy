/** The tag constellation: tag frequencies over all journal entries, one
    node per distinct non-empty tag, an edge for every unordered pair of
    nodes and a radius per node. Node coordinates are random floating-point
    positions and are not part of this model. */
module Constellation {
  import opened JsString
  import opened Journal

  /** How often `t` occurs across the tag lists of all entries: the reference
      definition the counting loop is proved against. */
  function Occurrences(entries: seq<JournalEntry>, t: string): nat {
    if entries == [] then 0
    else Occurrences(entries[..|entries| - 1], t) + Count(entries[|entries| - 1].tags, t)
  }

  /** A newly saved entry, put in front of the journal, adds exactly its own
      tag occurrences to every count. */
  lemma {:induction false} OccurrencesPrepend(e: JournalEntry, entries: seq<JournalEntry>, t: string)
    ensures Occurrences([e] + entries, t) == Count(e.tags, t) + Occurrences(entries, t)
    decreases |entries|
  {
    if entries != [] {
      assert ([e] + entries)[..|entries|] == [e] + entries[..|entries| - 1];
      OccurrencesPrepend(e, entries[..|entries| - 1], t);
    }
  }

  /** An entry saved with a blank tags field changes no tag count. */
  lemma BlankTagsAddNothing(e: JournalEntry, entries: seq<JournalEntry>, field: string, t: string)
    requires IsBlank(field) && e.tags == ParseTags(field) && t != ""
    ensures Occurrences([e] + entries, t) == Occurrences(entries, t)
  {
    BlankTagsField(field);
    OccurrencesPrepend(e, entries, t);
    assert Count([""], t) == Count([], t) + 0 by { assert [""][..0] == []; }
  }

  /** The frequency map of `updateConstellation`: each non-empty tag that
      occurs is a key and its value is its number of occurrences. */
  method CountTags(entries: seq<JournalEntry>) returns (counts: map<string, nat>)
    ensures forall t :: t in counts <==> t != "" && Occurrences(entries, t) > 0
    ensures forall t :: t in counts ==> counts[t] == Occurrences(entries, t)
  {
    counts := map[];
    var i := 0;
    while i < |entries|
      invariant 0 <= i <= |entries|
      invariant forall t :: t in counts <==> t != "" && Occurrences(entries[..i], t) > 0
      invariant forall t :: t in counts ==> counts[t] == Occurrences(entries[..i], t)
    {
      var tags := entries[i].tags;
      var j := 0;
      while j < |tags|
        invariant 0 <= j <= |tags|
        invariant forall t :: t in counts <==> t != "" && Occurrences(entries[..i], t) + Count(tags[..j], t) > 0
        invariant forall t :: t in counts ==> counts[t] == Occurrences(entries[..i], t) + Count(tags[..j], t)
      {
        var t := tags[j];
        if t != "" {
          counts := counts[t := (if t in counts then counts[t] else 0) + 1];
        }
        assert tags[..j + 1][..j] == tags[..j];
        j := j + 1;
      }
      assert tags[..j] == tags;
      assert entries[..i + 1][..i] == entries[..i];
      i := i + 1;
    }
    assert entries[..i] == entries;
  }

  /** A node before layout: its tag and its count. */
  datatype Node = Node(tag: string, weight: nat)

  function TagSet(nodes: seq<Node>): set<string> {
    set k | 0 <= k < |nodes| :: nodes[k].tag
  }

  lemma TagSetAppend(nodes: seq<Node>, x: Node)
    ensures TagSet(nodes + [x]) == TagSet(nodes) + {x.tag}
  {
    var ext := nodes + [x];
    forall t | t in TagSet(ext) ensures t in TagSet(nodes) + {x.tag} {
      var k :| 0 <= k < |ext| && ext[k].tag == t;
      if k < |nodes| { assert nodes[k] == ext[k]; }
    }
    forall t | t in TagSet(nodes) ensures t in TagSet(ext) {
      var k :| 0 <= k < |nodes| && nodes[k].tag == t;
      assert ext[k] == nodes[k];
    }
    assert ext[|nodes|] == x;
  }

  predicate DistinctTags(nodes: seq<Node>) {
    forall i, j :: 0 <= i < j < |nodes| ==> nodes[i].tag != nodes[j].tag
  }

  /** One node per key of the frequency map, carrying that key's count, in
      the (unspecified) order in which the keys are enumerated. */
  method BuildNodes(counts: map<string, nat>) returns (nodes: seq<Node>)
    ensures |nodes| == |counts|
    ensures TagSet(nodes) == counts.Keys && DistinctTags(nodes)
    ensures forall k :: 0 <= k < |nodes| ==> nodes[k].tag in counts && nodes[k].weight == counts[nodes[k].tag]
  {
    nodes := [];
    var remaining := counts.Keys;
    assert |remaining| == |counts|;
    while remaining != {}
      invariant remaining <= counts.Keys
      invariant TagSet(nodes) == counts.Keys - remaining && DistinctTags(nodes)
      invariant forall k :: 0 <= k < |nodes| ==> nodes[k].tag in counts && nodes[k].weight == counts[nodes[k].tag]
      invariant |nodes| + |remaining| == |counts|
      decreases remaining
    {
      var t :| t in remaining;
      TagSetAppend(nodes, Node(t, counts[t]));
      nodes := nodes + [Node(t, counts[t])];
      remaining := remaining - {t};
    }
  }

  /** The drawn radius `max(10, min(weight * 5, 40))`. */
  function Radius(weight: nat): (r: int)
    ensures 10 <= r <= 40
    ensures 10 <= 5 * weight <= 40 ==> r == 5 * weight
    ensures weight <= 2 ==> r == 10
    ensures weight >= 8 ==> r == 40
  {
    var scaled := weight * 5;
    var capped := if scaled < 40 then scaled else 40;
    if 10 > capped then 10 else capped
  }

  /** A heavier tag is never drawn smaller. */
  lemma RadiusMonotone(w1: nat, w2: nat)
    requires w1 <= w2
    ensures Radius(w1) <= Radius(w2)
  {
  }

  /** An edge between the nodes at two indices. */
  datatype Edge = Edge(from: nat, to: nat)

  predicate LexLess(a: Edge, b: Edge) {
    a.from < b.from || (a.from == b.from && a.to < b.to)
  }

  /** The nested `i`/`j` loops: every pair `i < j` of node indices, each
      exactly once, in lexicographic order; `n * (n - 1) / 2` edges. */
  method EdgePairs(n: nat) returns (edges: seq<Edge>)
    ensures forall e :: e in edges <==> e.from < e.to < n
    ensures forall a, b :: 0 <= a < b < |edges| ==> LexLess(edges[a], edges[b])
    ensures |edges| == n * (n - 1) / 2
  {
    edges := [];
    var i := 0;
    while i < n
      invariant 0 <= i <= n
      invariant forall e :: e in edges <==> e.from < i && e.from < e.to < n
      invariant forall a, b :: 0 <= a < b < |edges| ==> LexLess(edges[a], edges[b])
      invariant 2 * |edges| == i * (2 * n - i - 1)
    {
      var j := i + 1;
      while j < n
        invariant i + 1 <= j <= n
        invariant forall e :: e in edges <==> (e.from < i && e.from < e.to < n) || (e.from == i && i < e.to < j)
        invariant forall a, b :: 0 <= a < b < |edges| ==> LexLess(edges[a], edges[b])
        invariant 2 * |edges| == i * (2 * n - i - 1) + 2 * (j - i - 1)
      {
        edges := edges + [Edge(i, j)];
        j := j + 1;
      }
      i := i + 1;
    }
  }

  /** Ordered edges are pairwise distinct: no pair is drawn twice. */
  lemma OrderedEdgesDistinct(edges: seq<Edge>)
    requires forall a, b :: 0 <= a < b < |edges| ==> LexLess(edges[a], edges[b])
    ensures forall a, b :: 0 <= a < b < |edges| ==> edges[a] != edges[b]
  {
  }

  /** What one redraw shows: the placeholder text, or the graph. */
  datatype Scene =
    | Placeholder
    | Graph(nodes: seq<Node>, edges: seq<Edge>, radii: seq<int>)

  /** `updateConstellation` over the stored journal. */
  method Render(entries: seq<JournalEntry>) returns (scene: Scene)
    ensures scene.Placeholder? <==> forall t :: t != "" ==> Occurrences(entries, t) == 0
    ensures scene.Graph? ==>
      && DistinctTags(scene.nodes)
      && (forall t :: t in TagSet(scene.nodes) <==> t != "" && Occurrences(entries, t) > 0)
      && (forall k :: 0 <= k < |scene.nodes| ==> scene.nodes[k].weight == Occurrences(entries, scene.nodes[k].tag))
      && (forall e :: e in scene.edges <==> e.from < e.to < |scene.nodes|)
      && |scene.edges| == |scene.nodes| * (|scene.nodes| - 1) / 2
      && |scene.radii| == |scene.nodes|
      && (forall k :: 0 <= k < |scene.nodes| ==> scene.radii[k] == Radius(scene.nodes[k].weight))
  {
    var counts := CountTags(entries);
    if |counts| == 0 {
      forall t | t != "" ensures Occurrences(entries, t) == 0 {
        assert t !in counts;
      }
      return Placeholder;
    }
    var t0 :| t0 in counts;
    assert t0 != "" && Occurrences(entries, t0) != 0;
    var nodes := BuildNodes(counts);
    var edges := EdgePairs(|nodes|);
    var radii := [];
    for k := 0 to |nodes|
      invariant |radii| == k
      invariant forall m :: 0 <= m < k ==> radii[m] == Radius(nodes[m].weight)
    {
      radii := radii + [Radius(nodes[k].weight)];
    }
    scene := Graph(nodes, edges, radii);
  }

  /** The canvas takes the container's size, with 400 as the height when
      the container reports none. */
  function SurfaceSize(clientWidth: nat, clientHeight: nat): (size: (nat, nat))
    ensures size.0 == clientWidth && size.1 > 0
    ensures clientHeight > 0 ==> size.1 == clientHeight
    ensures clientHeight == 0 ==> size.1 == 400
  {
    (clientWidth, if clientHeight != 0 then clientHeight else 400)
  }
}
