/**
 * `DynamicSceneGraph` as the serialization tests drive it: an object whose
 * methods add nodes and edges in place, its queries, and its conversion to
 * and from a document.
 */
module SceneGraph {
  import opened Wrappers
  import Json
  import opened GraphModel

  class DynamicSceneGraph {
    /** The static layer ids the graph was created with (`layer_ids`). */
    var layerIds: seq<LayerId>
    /** The global node table: id to owning layer, timestamp and attributes. */
    var nodes: map<NodeId, NodeInfo>
    /** Intra- and inter-layer edges, one per unordered pair. */
    var edges: set<Edge>
    /** Next sequence number of each (layer, category) dynamic layer. */
    var dynamicLayers: map<DynamicKey, nat>

    /** The graph as a value. */
    function State(): Graph
      reads this
    {
      Graph(layerIds, nodes, edges, dynamicLayers)
    }

    ghost predicate Valid()
      reads this
    {
      GraphModel.Valid(State())
    }

    /** `DynamicSceneGraph(layer_ids, ...)`: the given static layers, no nodes, no dynamic layers. */
    constructor(layerIds: seq<LayerId>)
      ensures Valid() && State() == Empty(layerIds)
    {
      this.layerIds := layerIds;
      nodes := map[];
      edges := {};
      dynamicLayers := map[];
    }

    function HasNode(id: NodeId): bool
      reads this
    {
      GraphModel.HasNode(State(), id)
    }

    function HasEdge(a: NodeId, b: NodeId): bool
      reads this
    {
      GraphModel.HasEdge(State(), a, b)
    }

    function HasLayer(layer: LayerId): bool
      reads this
    {
      GraphModel.HasLayer(State(), layer)
    }

    /** `hasLayer(layer, category)`: whether that dynamic layer exists. */
    function HasDynamicLayer(layer: LayerId, category: char): bool
      reads this
    {
      GraphModel.HasDynamicLayer(State(), layer, category)
    }

    function NumNodes(): nat
      reads this
    {
      GraphModel.NumNodes(State())
    }

    function NumEdges(): nat
      reads this
    {
      GraphModel.NumEdges(State())
    }

    function NumLayers(): nat
      reads this
    {
      GraphModel.NumLayers(State())
    }

    /**
     * `emplaceNode(layer, id, attrs)`: adds a node to a static layer. Fails for
     * a layer the graph was not created with, then for an id already used
     * anywhere in the graph; a failed call changes nothing.
     */
    method EmplaceNode(layer: LayerId, id: NodeId, attrs: Json.Value) returns (status: Status)
      requires Valid()
      modifies this
      ensures Valid()
      ensures status == EmplaceStatus(old(State()), layer, id)
      ensures State() == if status == Ok then WithStaticNode(old(State()), layer, id, attrs) else old(State())
    {
      status := EmplaceStatus(State(), layer, id);
      if status == Ok {
        WithStaticNodeValid(State(), layer, id, attrs);
        nodes := nodes[id := NodeInfo(Static(layer), None, attrs)];
      }
    }

    /**
     * `emplaceNode(layer, category, timestamp, attrs, connectToPrevious)`: adds
     * the next node `NodeSymbol(category, n)` of the dynamic layer
     * (layer, category), creating that layer on first use. When
     * `connectToPrevious` holds and the layer already has a node, the new node
     * is joined to `NodeSymbol(category, n - 1)`. The counter advances in either
     * case. Fails, changing nothing, if the new id is already in the graph.
     */
    method EmplaceDynamicNode(layer: LayerId, category: char, timestamp: nat, attrs: Json.Value,
                              connectToPrevious: bool) returns (status: Status)
      requires Valid()
      modifies this
      ensures Valid()
      ensures status == EmplaceDynamicStatus(old(State()), DynamicKey(layer, category))
      ensures State() == if status == Ok
        then WithDynamicNode(old(State()), DynamicKey(layer, category), timestamp, attrs, connectToPrevious)
        else old(State())
    {
      var k := DynamicKey(layer, category);
      var next := if k in dynamicLayers then dynamicLayers[k] else 0;
      var id := Symbol(category, next);
      if id in nodes {
        return DuplicateNode;
      }
      ghost var g := State();
      WithDynamicNodeValid(g, k, timestamp, attrs, connectToPrevious);
      nodes := nodes[id := NodeInfo(Dynamic(k), Some(timestamp), attrs)];
      dynamicLayers := dynamicLayers[k := next + 1];
      if connectToPrevious && next > 0 {
        edges := edges + {Edge(Symbol(category, next - 1), id)};
      }
      status := Ok;
    }

    /**
     * `insertEdge(source, target)`: joins two existing, distinct nodes not yet
     * joined, whatever their layers. A failed call changes nothing.
     */
    method InsertEdge(source: NodeId, target: NodeId) returns (status: Status)
      requires Valid()
      modifies this
      ensures Valid()
      ensures status == InsertEdgeStatus(old(State()), source, target)
      ensures State() == if status == Ok then WithEdge(old(State()), source, target) else old(State())
    {
      status := InsertEdgeStatus(State(), source, target);
      if status == Ok {
        InsertEdgeValid(State(), source, target);
        edges := edges + {Edge(source, target)};
      }
    }

    /** Restores one node record of a document (see `GraphModel.RestoreNode`). */
    method RestoreNodeRecord(r: NodeRecord) returns (ok: bool)
      requires Valid()
      modifies this
      ensures Valid()
      ensures ok == RestoreNode(old(State()), r).Some?
      ensures State() == if ok then RestoreNode(old(State()), r).value else old(State())
    {
      if r.id in nodes {
        return false;
      }
      match r.info.owner {
        case Static(l) =>
          if l !in layerIds {
            return false;
          }
          RestoreNodeValid(State(), r);
          nodes := nodes[r.id := r.info];
        case Dynamic(k) =>
          if !(r.id.Symbol? && r.id.category == k.category) {
            return false;
          }
          RestoreNodeValid(State(), r);
          var next := if k in dynamicLayers then dynamicLayers[k] else 0;
          if next <= r.id.index {
            next := r.id.index + 1;
          }
          nodes := nodes[r.id := r.info];
          dynamicLayers := dynamicLayers[k := next];
      }
      ok := true;
    }

    /**
     * `serialize()`: writes the layer ids, one record per node and one per edge;
     * the order of nodes and edges is the order the tables are walked in.
     */
    method Serialize() returns (doc: Document)
      ensures Serializes(State(), doc)
    {
      var records := NodeRecords();
      var written := EdgeRecords();
      doc := Document(layerIds, records, written);
    }

    /** Walks the node table, writing one record per node. */
    method NodeRecords() returns (records: seq<NodeRecord>)
      ensures ListsNodes(nodes, records)
    {
      records := [];
      var pending := nodes.Keys;
      while pending != {}
        invariant pending <= nodes.Keys
        invariant forall i, j :: 0 <= i < j < |records| ==> records[i].id != records[j].id
        invariant forall i :: 0 <= i < |records| ==>
          records[i].id in nodes && nodes[records[i].id] == records[i].info && records[i].id !in pending
        invariant forall id :: id in nodes && id !in pending ==>
          exists i :: 0 <= i < |records| && records[i].id == id
        decreases pending
      {
        var id :| id in pending;
        ghost var before := records;
        records := records + [NodeRecord(id, nodes[id])];
        pending := pending - {id};
        forall n | n in nodes && n !in pending
          ensures exists i :: 0 <= i < |records| && records[i].id == n
        {
          if n == id {
            assert records[|records| - 1].id == n;
          } else {
            var i :| 0 <= i < |before| && before[i].id == n;
            assert records[i].id == n;
          }
        }
      }
    }

    /** Walks the edge set, writing each edge once. */
    method EdgeRecords() returns (written: seq<Edge>)
      ensures ListsEdges(edges, written)
    {
      written := [];
      var left := edges;
      while left != {}
        invariant left <= edges
        invariant forall i, j :: 0 <= i < j < |written| ==> written[i] != written[j]
        invariant forall i :: 0 <= i < |written| ==> written[i] in edges && written[i] !in left
        invariant forall e :: e in edges && e !in left ==> exists i :: 0 <= i < |written| && written[i] == e
        decreases left
      {
        var e :| e in left;
        ghost var before := written;
        written := written + [e];
        left := left - {e};
        forall x | x in edges && x !in left
          ensures exists i :: 0 <= i < |written| && written[i] == x
        {
          if x == e {
            assert written[|written| - 1] == x;
          } else {
            var i :| 0 <= i < |before| && before[i] == x;
            assert written[i] == x;
          }
        }
      }
    }

    /**
     * `DynamicSceneGraph::deserialize(doc)`: a new graph over the document's
     * layer ids, then its nodes, then its edges; `null` if any record is
     * rejected.
     */
    static method Deserialize(doc: Document) returns (g: DynamicSceneGraph?)
      ensures g == null <==> Restore(doc).None?
      ensures g != null ==> fresh(g) && g.Valid() && g.State() == Restore(doc).value
    {
      var graph := new DynamicSceneGraph(doc.layerIds);
      var i := 0;
      while i < |doc.nodes|
        invariant 0 <= i <= |doc.nodes|
        invariant fresh(graph) && graph.Valid()
        invariant RestoreNodes(graph.State(), doc.nodes[i..]) == RestoreNodes(Empty(doc.layerIds), doc.nodes)
      {
        assert doc.nodes[i..][1..] == doc.nodes[i + 1..];
        var ok := graph.RestoreNodeRecord(doc.nodes[i]);
        if !ok {
          return null;
        }
        i := i + 1;
      }
      var j := 0;
      while j < |doc.edges|
        invariant 0 <= j <= |doc.edges|
        invariant fresh(graph) && graph.Valid()
        invariant RestoreEdges(graph.State(), doc.edges[j..]) == Restore(doc)
      {
        assert doc.edges[j..][1..] == doc.edges[j + 1..];
        var status := graph.InsertEdge(doc.edges[j].source, doc.edges[j].target);
        if status != Ok {
          return null;
        }
        j := j + 1;
      }
      g := graph;
    }
  }
}
