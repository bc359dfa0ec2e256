/**
 * The abstract state of a dynamic scene graph, the serialized document, and
 * the reconstruction of a graph from a document.
 *
 * A graph has a list of static layer ids, a global node table recording each
 * node's owning layer, a set of undirected edges (intra- or inter-layer) and,
 * per (layer, category) pair, a dynamic layer whose nodes are numbered
 * `NodeSymbol(category, 0)`, `NodeSymbol(category, 1)`, ... in insertion order.
 */
module GraphModel {
  import opened Wrappers
  import Json

  type LayerId = nat

  /** A node id: a plain number, or `NodeSymbol(category, index)`. */
  datatype NodeId = Raw(value: nat) | Symbol(category: char, index: nat)

  /** A dynamic layer is identified by its layer id and its node category. */
  datatype DynamicKey = DynamicKey(layer: LayerId, category: char)

  /** The layer a node belongs to. */
  datatype Owner = Static(layer: LayerId) | Dynamic(key: DynamicKey)

  /** What the graph keeps of a node; `attrs` is the node's attribute record, opaque here. */
  datatype NodeInfo = NodeInfo(owner: Owner, timestamp: Option<nat>, attrs: Json.Value)

  /** An edge as inserted; lookups ignore its direction. */
  datatype Edge = Edge(source: NodeId, target: NodeId)

  /** The whole graph; `dynamicLayers` maps each dynamic layer to its next sequence number. */
  datatype Graph = Graph(
    layerIds: seq<LayerId>,
    nodes: map<NodeId, NodeInfo>,
    edges: set<Edge>,
    dynamicLayers: map<DynamicKey, nat>)

  /** Outcome of a mutating call. */
  datatype Status = Ok | UnknownLayer | DuplicateNode | NodeNotFound | InvalidEdge | DuplicateEdge

  /** A node lives in a listed layer, or is `NodeSymbol(category, i)` below its dynamic layer's counter. */
  ghost predicate NodePlaced(g: Graph, id: NodeId)
    requires id in g.nodes
  {
    match g.nodes[id].owner
    case Static(l) => l in g.layerIds
    case Dynamic(k) =>
      && k in g.dynamicLayers
      && id.Symbol? && id.category == k.category && id.index < g.dynamicLayers[k]
  }

  /** A dynamic layer's counter is one past its last node, which is present. */
  ghost predicate CounterAnchored(g: Graph, k: DynamicKey)
    requires k in g.dynamicLayers
  {
    && g.dynamicLayers[k] > 0
    && Symbol(k.category, g.dynamicLayers[k] - 1) in g.nodes
    && g.nodes[Symbol(k.category, g.dynamicLayers[k] - 1)].owner == Dynamic(k)
  }

  /** An edge joins two distinct present nodes, and its reverse is not stored too. */
  ghost predicate EdgeProper(g: Graph, e: Edge) {
    && e.source in g.nodes && e.target in g.nodes
    && e.source != e.target
    && Edge(e.target, e.source) !in g.edges
  }

  /** The graph invariant. */
  ghost predicate Valid(g: Graph) {
    && (forall id {:trigger NodePlaced(g, id)} :: id in g.nodes ==> NodePlaced(g, id))
    && (forall k {:trigger CounterAnchored(g, k)} :: k in g.dynamicLayers ==> CounterAnchored(g, k))
    && (forall e {:trigger EdgeProper(g, e)} :: e in g.edges ==> EdgeProper(g, e))
  }

  /** A graph over the given layer ids with no nodes. */
  function Empty(layerIds: seq<LayerId>): (g: Graph)
    ensures Valid(g)
  {
    Graph(layerIds, map[], {}, map[])
  }

  predicate HasNode(g: Graph, id: NodeId) {
    id in g.nodes
  }

  predicate HasEdge(g: Graph, a: NodeId, b: NodeId) {
    Edge(a, b) in g.edges || Edge(b, a) in g.edges
  }

  predicate HasLayer(g: Graph, layer: LayerId) {
    layer in g.layerIds
  }

  predicate HasDynamicLayer(g: Graph, layer: LayerId, category: char) {
    DynamicKey(layer, category) in g.dynamicLayers
  }

  function NumNodes(g: Graph): nat {
    |g.nodes|
  }

  function NumEdges(g: Graph): nat {
    |g.edges|
  }

  /** The static layers that hold at least one node. */
  function StaticLayersInUse(g: Graph): set<LayerId> {
    set id | id in g.nodes && g.nodes[id].owner.Static? :: g.nodes[id].owner.layer
  }

  /** Static layers holding a node, plus every dynamic layer. */
  function NumLayers(g: Graph): nat {
    |StaticLayersInUse(g)| + |g.dynamicLayers|
  }

  lemma HasEdgeSymmetric(g: Graph, a: NodeId, b: NodeId)
    ensures HasEdge(g, a, b) == HasEdge(g, b, a)
  {
  }

  /** Every edge of a valid graph joins two nodes of the graph, each counted once. */
  lemma EdgeEndpointsPresent(g: Graph, a: NodeId, b: NodeId)
    requires Valid(g) && HasEdge(g, a, b)
    ensures HasNode(g, a) && HasNode(g, b) && a != b
  {
    if Edge(a, b) in g.edges {
      assert EdgeProper(g, Edge(a, b));
    } else {
      assert EdgeProper(g, Edge(b, a));
    }
  }

  /** The sequence number the next node of a dynamic layer receives. */
  function NextIndex(g: Graph, k: DynamicKey): nat {
    if k in g.dynamicLayers then g.dynamicLayers[k] else 0
  }

  // ---------------------------------------------------------------------------
  // Mutations
  // ---------------------------------------------------------------------------

  /** `emplaceNode(layer, id, attrs)` on a static layer: the layer must be listed, the id new. */
  function EmplaceStatus(g: Graph, layer: LayerId, id: NodeId): Status {
    if layer !in g.layerIds then UnknownLayer
    else if id in g.nodes then DuplicateNode
    else Ok
  }

  /** The graph after a successful static emplace. */
  function WithStaticNode(g: Graph, layer: LayerId, id: NodeId, attrs: Json.Value): Graph {
    g.(nodes := g.nodes[id := NodeInfo(Static(layer), None, attrs)])
  }

  /** The id a dynamic emplace into layer `k` assigns: the next symbol of its category. */
  function DynamicId(g: Graph, k: DynamicKey): NodeId {
    Symbol(k.category, NextIndex(g, k))
  }

  /** A dynamic emplace fails only if its new id is already in the graph. */
  function EmplaceDynamicStatus(g: Graph, k: DynamicKey): Status {
    if DynamicId(g, k) in g.nodes then DuplicateNode else Ok
  }

  /**
   * The graph after a successful dynamic emplace: the new node, the counter
   * advanced, and, when asked for and a predecessor exists, an edge from the
   * predecessor to the new node.
   */
  function WithDynamicNode(g: Graph, k: DynamicKey, timestamp: nat, attrs: Json.Value, connectToPrevious: bool): Graph {
    var n := NextIndex(g, k);
    var id := Symbol(k.category, n);
    g.(nodes := g.nodes[id := NodeInfo(Dynamic(k), Some(timestamp), attrs)],
       dynamicLayers := g.dynamicLayers[k := n + 1],
       edges := if connectToPrevious && n > 0 then g.edges + {Edge(Symbol(k.category, n - 1), id)} else g.edges)
  }

  /** `insertEdge(source, target)`: both ends must exist, differ, and not be joined yet. */
  function InsertEdgeStatus(g: Graph, source: NodeId, target: NodeId): Status {
    if source !in g.nodes || target !in g.nodes then NodeNotFound
    else if source == target then InvalidEdge
    else if HasEdge(g, source, target) then DuplicateEdge
    else Ok
  }

  /** The graph after a successful edge insertion. */
  function WithEdge(g: Graph, source: NodeId, target: NodeId): Graph {
    g.(edges := g.edges + {Edge(source, target)})
  }

  /** No edge of a valid graph touches an id that is not a node. */
  lemma NoEdgeAtMissingNode(g: Graph, id: NodeId, other: NodeId)
    requires Valid(g) && id !in g.nodes
    ensures !HasEdge(g, id, other) && !HasEdge(g, other, id)
  {
    assert Edge(id, other) in g.edges ==> EdgeProper(g, Edge(id, other));
    assert Edge(other, id) in g.edges ==> EdgeProper(g, Edge(other, id));
  }

  /** A static emplace keeps the graph valid, adds one node and no edge. */
  lemma WithStaticNodeValid(g: Graph, layer: LayerId, id: NodeId, attrs: Json.Value)
    requires Valid(g) && EmplaceStatus(g, layer, id) == Ok
    ensures Valid(WithStaticNode(g, layer, id, attrs))
    ensures NumNodes(WithStaticNode(g, layer, id, attrs)) == NumNodes(g) + 1
    ensures HasNode(WithStaticNode(g, layer, id, attrs), id)
  {
    var g' := WithStaticNode(g, layer, id, attrs);
    forall n | n in g'.nodes ensures NodePlaced(g', n) {
      if n != id {
        assert NodePlaced(g, n);
      }
    }
    forall k | k in g'.dynamicLayers ensures CounterAnchored(g', k) {
      assert CounterAnchored(g, k);
    }
    forall e | e in g'.edges ensures EdgeProper(g', e) {
      assert EdgeProper(g, e);
    }
  }

  /** A dynamic emplace keeps the graph valid and adds exactly the node `DynamicId(g, k)`. */
  lemma WithDynamicNodeValid(g: Graph, k: DynamicKey, timestamp: nat, attrs: Json.Value, connectToPrevious: bool)
    requires Valid(g) && EmplaceDynamicStatus(g, k) == Ok
    ensures Valid(WithDynamicNode(g, k, timestamp, attrs, connectToPrevious))
    ensures NumNodes(WithDynamicNode(g, k, timestamp, attrs, connectToPrevious)) == NumNodes(g) + 1
    ensures HasNode(WithDynamicNode(g, k, timestamp, attrs, connectToPrevious), DynamicId(g, k))
    ensures NextIndex(WithDynamicNode(g, k, timestamp, attrs, connectToPrevious), k) == NextIndex(g, k) + 1
    ensures forall k' :: k' != k ==>
      NextIndex(WithDynamicNode(g, k, timestamp, attrs, connectToPrevious), k') == NextIndex(g, k')
  {
    var g' := WithDynamicNode(g, k, timestamp, attrs, connectToPrevious);
    var n := NextIndex(g, k);
    var id := Symbol(k.category, n);
    forall m | m in g'.nodes ensures NodePlaced(g', m) {
      if m != id {
        assert NodePlaced(g, m);
      }
    }
    forall k' | k' in g'.dynamicLayers ensures CounterAnchored(g', k') {
      if k' != k {
        assert CounterAnchored(g, k');
      }
    }
    forall e | e in g'.edges ensures EdgeProper(g', e) {
      if e in g.edges {
        assert EdgeProper(g, e);
      } else {
        assert CounterAnchored(g, k);
        NoEdgeAtMissingNode(g, id, Symbol(k.category, n - 1));
      }
    }
  }

  /**
   * A linked dynamic emplace joins the new node to the layer's previous node,
   * `NodeSymbol(category, n - 1)`, which is in the graph, and adds no other edge.
   */
  lemma DynamicEmplaceLinksPrevious(g: Graph, k: DynamicKey, timestamp: nat, attrs: Json.Value)
    requires Valid(g) && EmplaceDynamicStatus(g, k) == Ok && NextIndex(g, k) > 0
    ensures var g' := WithDynamicNode(g, k, timestamp, attrs, true);
      && HasNode(g, Symbol(k.category, NextIndex(g, k) - 1))
      && HasEdge(g', Symbol(k.category, NextIndex(g, k) - 1), DynamicId(g, k))
      && NumEdges(g') == NumEdges(g) + 1
  {
    assert CounterAnchored(g, k);
    NoEdgeAtMissingNode(g, DynamicId(g, k), Symbol(k.category, NextIndex(g, k) - 1));
  }

  /** An unlinked dynamic emplace adds no edge; the new node touches no edge. */
  lemma DynamicEmplaceUnlinked(g: Graph, k: DynamicKey, timestamp: nat, attrs: Json.Value, other: NodeId)
    requires Valid(g) && EmplaceDynamicStatus(g, k) == Ok
    ensures var g' := WithDynamicNode(g, k, timestamp, attrs, false);
      && NumEdges(g') == NumEdges(g)
      && !HasEdge(g', other, DynamicId(g, k))
  {
    NoEdgeAtMissingNode(g, DynamicId(g, k), other);
  }

  /**
   * The node added without a link is still the predecessor of the next one:
   * the following linked emplace joins it to the newer node, while it stays
   * unjoined from its own predecessor.
   */
  lemma {:induction false} LinkedAfterUnlinked(g: Graph, k: DynamicKey, t1: nat, a1: Json.Value, t2: nat, a2: Json.Value)
    requires Valid(g) && NextIndex(g, k) > 0
    requires EmplaceDynamicStatus(g, k) == Ok
    requires EmplaceDynamicStatus(WithDynamicNode(g, k, t1, a1, false), k) == Ok
    ensures var n := NextIndex(g, k);
      var g2 := WithDynamicNode(WithDynamicNode(g, k, t1, a1, false), k, t2, a2, true);
      && HasEdge(g2, Symbol(k.category, n), Symbol(k.category, n + 1))
      && !HasEdge(g2, Symbol(k.category, n - 1), Symbol(k.category, n))
  {
    var n := NextIndex(g, k);
    var g1 := WithDynamicNode(g, k, t1, a1, false);
    DynamicEmplaceUnlinked(g, k, t1, a1, Symbol(k.category, n - 1));
    WithDynamicNodeValid(g, k, t1, a1, false);
    assert NextIndex(g1, k) == n + 1 && DynamicId(g1, k) == Symbol(k.category, n + 1);
    DynamicEmplaceLinksPrevious(g1, k, t2, a2);
    var g2 := WithDynamicNode(g1, k, t2, a2, true);
    assert g2.edges == g1.edges + {Edge(Symbol(k.category, n), Symbol(k.category, n + 1))};
  }

  /** An accepted edge keeps the graph valid. */
  lemma InsertEdgeValid(g: Graph, source: NodeId, target: NodeId)
    requires Valid(g) && InsertEdgeStatus(g, source, target) == Ok
    ensures Valid(WithEdge(g, source, target))
    ensures HasEdge(WithEdge(g, source, target), target, source)
    ensures NumEdges(WithEdge(g, source, target)) == NumEdges(g) + 1
  {
    var g' := WithEdge(g, source, target);
    forall id | id in g'.nodes ensures NodePlaced(g', id) {
      assert NodePlaced(g, id);
    }
    forall k | k in g'.dynamicLayers ensures CounterAnchored(g', k) {
      assert CounterAnchored(g, k);
    }
    forall e | e in g'.edges ensures EdgeProper(g', e) {
      if e != Edge(source, target) {
        assert EdgeProper(g, e);
      }
    }
  }

  // ---------------------------------------------------------------------------
  // The serialized document
  // ---------------------------------------------------------------------------

  /** One node of the document: its id, its layer, its timestamp and its attribute record. */
  datatype NodeRecord = NodeRecord(id: NodeId, info: NodeInfo)

  /** The document: layer ids, node records and edge records. */
  datatype Document = Document(layerIds: seq<LayerId>, nodes: seq<NodeRecord>, edges: seq<Edge>)

  /** `recs` lists every node of `nodes` exactly once, with its information. */
  ghost predicate ListsNodes(nodes: map<NodeId, NodeInfo>, recs: seq<NodeRecord>) {
    && (forall i, j :: 0 <= i < j < |recs| ==> recs[i].id != recs[j].id)
    && (forall i :: 0 <= i < |recs| ==> recs[i].id in nodes && nodes[recs[i].id] == recs[i].info)
    && (forall id :: id in nodes ==> exists i :: 0 <= i < |recs| && recs[i].id == id)
  }

  /** `es` lists every edge of `edges` exactly once. */
  ghost predicate ListsEdges(edges: set<Edge>, es: seq<Edge>) {
    && (forall i, j :: 0 <= i < j < |es| ==> es[i] != es[j])
    && (forall i :: 0 <= i < |es| ==> es[i] in edges)
    && (forall e :: e in edges ==> exists i :: 0 <= i < |es| && es[i] == e)
  }

  /** `doc` is a serialization of `g`: same layer ids, every node and every edge once, in any order. */
  ghost predicate Serializes(g: Graph, doc: Document) {
    doc.layerIds == g.layerIds && ListsNodes(g.nodes, doc.nodes) && ListsEdges(g.edges, doc.edges)
  }

  // ---------------------------------------------------------------------------
  // Reconstruction: layers first, then nodes, then edges
  // ---------------------------------------------------------------------------

  /**
   * Adds one node record. A static node needs a listed layer; a dynamic node
   * must be a symbol of its layer's category and raises that layer's counter
   * past its own number. A repeated id is a corrupt document.
   */
  function RestoreNode(g: Graph, r: NodeRecord): Option<Graph> {
    if r.id in g.nodes then None
    else match r.info.owner
      case Static(l) =>
        if l in g.layerIds then Some(g.(nodes := g.nodes[r.id := r.info])) else None
      case Dynamic(k) =>
        if r.id.Symbol? && r.id.category == k.category then
          var next := if NextIndex(g, k) <= r.id.index then r.id.index + 1 else NextIndex(g, k);
          Some(g.(nodes := g.nodes[r.id := r.info], dynamicLayers := g.dynamicLayers[k := next]))
        else None
  }

  function RestoreNodes(g: Graph, recs: seq<NodeRecord>): Option<Graph>
    decreases |recs|
  {
    if recs == [] then Some(g)
    else match RestoreNode(g, recs[0])
      case None => None
      case Some(g') => RestoreNodes(g', recs[1..])
  }

  /** Adds the edges in order, each by the rules of `insertEdge`. */
  function RestoreEdges(g: Graph, es: seq<Edge>): Option<Graph>
    decreases |es|
  {
    if es == [] then Some(g)
    else if InsertEdgeStatus(g, es[0].source, es[0].target) != Ok then None
    else RestoreEdges(WithEdge(g, es[0].source, es[0].target), es[1..])
  }

  /** `deserialize(doc)`: the graph the document describes, or `None` for a corrupt document. */
  function Restore(doc: Document): Option<Graph> {
    match RestoreNodes(Empty(doc.layerIds), doc.nodes)
    case None => None
    case Some(g) => RestoreEdges(g, doc.edges)
  }

  /** Adding a node record keeps the graph valid and adds exactly that node. */
  lemma RestoreNodeValid(g: Graph, r: NodeRecord)
    requires Valid(g) && RestoreNode(g, r).Some?
    ensures Valid(RestoreNode(g, r).value)
    ensures RestoreNode(g, r).value.nodes == g.nodes[r.id := r.info]
    ensures RestoreNode(g, r).value.edges == g.edges && RestoreNode(g, r).value.layerIds == g.layerIds
  {
    var g' := RestoreNode(g, r).value;
    assert g'.nodes == g.nodes[r.id := r.info];
    forall id | id in g'.nodes
      ensures NodePlaced(g', id)
    {
      if id != r.id {
        assert NodePlaced(g, id);
        if g.nodes[id].owner.Dynamic? {
          var k := g.nodes[id].owner.key;
          assert NextIndex(g, k) <= NextIndex(g', k);
        }
      }
    }
    forall k | k in g'.dynamicLayers
      ensures CounterAnchored(g', k)
    {
      if k in g.dynamicLayers {
        assert CounterAnchored(g, k);
      }
    }
    forall e | e in g'.edges
      ensures EdgeProper(g', e)
    {
      assert EdgeProper(g, e);
    }
  }

  /** Adding edges keeps the graph valid. */
  lemma {:induction false} RestoreEdgesValid(g: Graph, es: seq<Edge>)
    requires Valid(g) && RestoreEdges(g, es).Some?
    ensures Valid(RestoreEdges(g, es).value)
    ensures RestoreEdges(g, es).value.nodes == g.nodes
    decreases |es|
  {
    if es != [] {
      InsertEdgeValid(g, es[0].source, es[0].target);
      RestoreEdgesValid(WithEdge(g, es[0].source, es[0].target), es[1..]);
    }
  }

  lemma {:induction false} RestoreNodesValid(g: Graph, recs: seq<NodeRecord>)
    requires Valid(g) && RestoreNodes(g, recs).Some?
    ensures Valid(RestoreNodes(g, recs).value)
    decreases |recs|
  {
    if recs != [] {
      RestoreNodeValid(g, recs[0]);
      RestoreNodesValid(RestoreNode(g, recs[0]).value, recs[1..]);
    }
  }

  /** Whatever a document restores to is a valid graph. */
  lemma RestoreValid(doc: Document)
    requires Restore(doc).Some?
    ensures Valid(Restore(doc).value)
  {
    RestoreNodesValid(Empty(doc.layerIds), doc.nodes);
    RestoreEdgesValid(RestoreNodes(Empty(doc.layerIds), doc.nodes).value, doc.edges);
  }

  /**
   * Replaying the not-yet-restored node records of a valid graph `s` on top of
   * a valid partial graph `acc` (a sub-table of `s`'s nodes, no edges yet)
   * yields `s` without its edges; in particular, each dynamic layer's counter
   * is recovered from its highest-numbered node.
   */
  lemma {:induction false} RestoreListedNodes(s: Graph, acc: Graph, recs: seq<NodeRecord>)
    requires Valid(s) && Valid(acc)
    requires acc.layerIds == s.layerIds && acc.edges == {}
    requires forall id :: id in acc.nodes ==> id in s.nodes && acc.nodes[id] == s.nodes[id]
    requires forall i :: 0 <= i < |recs| ==>
      recs[i].id in s.nodes && s.nodes[recs[i].id] == recs[i].info && recs[i].id !in acc.nodes
    requires forall i, j :: 0 <= i < j < |recs| ==> recs[i].id != recs[j].id
    requires forall id :: id in s.nodes ==> id in acc.nodes || exists i :: 0 <= i < |recs| && recs[i].id == id
    ensures RestoreNodes(acc, recs) == Some(s.(edges := {}))
    decreases |recs|
  {
    if recs == [] {
      assert acc.nodes == s.nodes;
      forall k | k in s.dynamicLayers
        ensures k in acc.dynamicLayers && acc.dynamicLayers[k] == s.dynamicLayers[k]
      {
        assert CounterAnchored(s, k);
        var last := Symbol(k.category, s.dynamicLayers[k] - 1);
        assert NodePlaced(acc, last);
        assert CounterAnchored(acc, k);
        var lastAcc := Symbol(k.category, acc.dynamicLayers[k] - 1);
        assert NodePlaced(s, lastAcc);
      }
      forall k | k in acc.dynamicLayers
        ensures k in s.dynamicLayers
      {
        assert CounterAnchored(acc, k);
        var lastAcc := Symbol(k.category, acc.dynamicLayers[k] - 1);
        assert NodePlaced(s, lastAcc);
      }
      assert acc.dynamicLayers == s.dynamicLayers;
    } else {
      var r := recs[0];
      assert NodePlaced(s, r.id);
      assert RestoreNode(acc, r).Some?;
      RestoreNodeValid(acc, r);
      var acc' := RestoreNode(acc, r).value;
      forall id | id in s.nodes
        ensures id in acc'.nodes || exists i :: 0 <= i < |recs[1..]| && recs[1..][i].id == id
      {
        if id !in acc.nodes {
          var i :| 0 <= i < |recs| && recs[i].id == id;
          if i > 0 {
            assert recs[1..][i - 1].id == id;
          }
        }
      }
      RestoreListedNodes(s, acc', recs[1..]);
    }
  }

  /**
   * Replaying the not-yet-restored edges of a valid graph `s` on top of `s`
   * with a subset of its edges yields `s`.
   */
  lemma {:induction false} RestoreListedEdges(s: Graph, done: set<Edge>, es: seq<Edge>)
    requires Valid(s) && done <= s.edges
    requires forall i :: 0 <= i < |es| ==> es[i] in s.edges && es[i] !in done
    requires forall i, j :: 0 <= i < j < |es| ==> es[i] != es[j]
    requires forall e :: e in s.edges ==> e in done || exists i :: 0 <= i < |es| && es[i] == e
    ensures RestoreEdges(s.(edges := done), es) == Some(s)
    decreases |es|
  {
    if es == [] {
      assert done == s.edges;
    } else {
      var e := es[0];
      assert EdgeProper(s, e);
      assert Edge(e.target, e.source) !in done;
      forall e' | e' in s.edges
        ensures e' in done + {e} || exists i :: 0 <= i < |es[1..]| && es[1..][i] == e'
      {
        if e' !in done + {e} {
          var i :| 0 <= i < |es| && es[i] == e';
          assert es[1..][i - 1] == e';
        }
      }
      RestoreListedEdges(s, done + {e}, es[1..]);
    }
  }

  /** Round trip: restoring any serialization of a valid graph gives back that graph. */
  lemma RoundTrip(g: Graph, doc: Document)
    requires Valid(g) && Serializes(g, doc)
    ensures Restore(doc) == Some(g)
  {
    RestoreListedNodes(g, Empty(g.layerIds), doc.nodes);
    RestoreListedEdges(g, {}, doc.edges);
  }

  /** Consequence of the round trip: every query the tests ask has the same answer afterwards. */
  lemma RoundTripPreservesQueries(g: Graph, doc: Document)
    requires Valid(g) && Serializes(g, doc)
    ensures Restore(doc).Some?
    ensures NumNodes(Restore(doc).value) == NumNodes(g)
    ensures NumEdges(Restore(doc).value) == NumEdges(g)
    ensures NumLayers(Restore(doc).value) == NumLayers(g)
    ensures Restore(doc).value.layerIds == g.layerIds
    ensures forall id :: HasNode(Restore(doc).value, id) == HasNode(g, id)
    ensures forall a, b :: HasEdge(Restore(doc).value, a, b) == HasEdge(g, a, b)
    ensures forall l :: HasLayer(Restore(doc).value, l) == HasLayer(g, l)
    ensures forall l, c :: HasDynamicLayer(Restore(doc).value, l, c) == HasDynamicLayer(g, l, c)
  {
    RoundTrip(g, doc);
  }
}
