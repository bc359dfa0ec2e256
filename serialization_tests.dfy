/**
 * The JSON serialization test scenarios of the scene graph, each written as
 * the same sequence of calls on a `DynamicSceneGraph` followed by a
 * serialize/deserialize round trip, with the test's expectations as
 * postconditions. Node attributes are opaque records passed in by the caller.
 */
module SerializationTests {
  import Json
  import opened Wrappers
  import opened GraphModel
  import opened SceneGraph

  /** Serializes `expected` and reads it back; the copy answers every query as the original does. */
  method RoundTripCopy(expected: DynamicSceneGraph) returns (result: DynamicSceneGraph)
    requires expected.Valid()
    ensures result.State() == expected.State()
    ensures result.NumNodes() == expected.NumNodes()
    ensures result.NumEdges() == expected.NumEdges()
    ensures result.NumLayers() == expected.NumLayers()
    ensures result.layerIds == expected.layerIds
  {
    var doc := expected.Serialize();
    RoundTrip(expected.State(), doc);
    var copy := DynamicSceneGraph.Deserialize(doc);
    result := copy;
  }

  /** The graph the basic scenario builds. */
  function BasicGraph(attrs: Json.Value): Graph {
    Graph([1, 2, 3],
          map[Raw(0) := NodeInfo(Static(1), None, attrs),
              Raw(1) := NodeInfo(Static(1), None, attrs),
              Raw(2) := NodeInfo(Static(3), None, attrs)],
          {Edge(Raw(0), Raw(1)), Edge(Raw(1), Raw(2))},
          map[])
  }

  lemma BasicGraphCounts(attrs: Json.Value)
    ensures NumNodes(BasicGraph(attrs)) == 3
    ensures NumEdges(BasicGraph(attrs)) == 2
    ensures NumLayers(BasicGraph(attrs)) == 2
  {
    var g := BasicGraph(attrs);
    assert g.nodes.Keys == {Raw(0), Raw(1), Raw(2)};
    assert StaticLayersInUse(g) == {1, 3} by {
      assert g.nodes[Raw(0)].owner == Static(1);
      assert g.nodes[Raw(2)].owner == Static(3);
    }
  }

  /** The calls of the basic scenario; each one succeeds. */
  method BuildBasic(attrs: Json.Value) returns (g: DynamicSceneGraph)
    ensures g.Valid() && g.State() == BasicGraph(attrs)
  {
    g := new DynamicSceneGraph([1, 2, 3]);
    var s0 := g.EmplaceNode(1, Raw(0), attrs);
    var s1 := g.EmplaceNode(1, Raw(1), attrs);
    var s2 := g.EmplaceNode(3, Raw(2), attrs);
    LinkBasic(g, attrs);
  }

  /** The two edges of the basic scenario: one inside layer 1, one from layer 1 to layer 3. */
  method LinkBasic(g: DynamicSceneGraph, attrs: Json.Value)
    requires g.Valid() && g.State() == BasicGraph(attrs).(edges := {})
    modifies g
    ensures g.Valid() && g.State() == BasicGraph(attrs)
  {
    var e0 := g.InsertEdge(Raw(0), Raw(1));
    var e1 := g.InsertEdge(Raw(1), Raw(2));
  }

  /** Three plain nodes in layers 1, 1 and 3, an intra-layer and an inter-layer edge. */
  method SerializeDsgBasic(attrs: Json.Value) returns (expected: DynamicSceneGraph, result: DynamicSceneGraph)
    ensures expected.NumNodes() == 3 && result.NumNodes() == expected.NumNodes()
    ensures expected.NumEdges() == 2 && result.NumEdges() == expected.NumEdges()
    ensures expected.NumLayers() == 2 && result.NumLayers() == expected.NumLayers()
    ensures result.layerIds == expected.layerIds == [1, 2, 3]
    ensures result.HasNode(Raw(0)) && result.HasNode(Raw(1)) && result.HasNode(Raw(2))
    ensures result.HasEdge(Raw(0), Raw(1)) && result.HasEdge(Raw(1), Raw(2))
    ensures result.HasLayer(0) == expected.HasLayer(0)
  {
    expected := BuildBasic(attrs);
    BasicGraphCounts(attrs);
    result := RoundTripCopy(expected);
  }

  /** The graph the scenario with non-finite positions builds; the fourth node's attributes are opaque here. */
  function NaNGraph(attrs: Json.Value, badAttrs: Json.Value): Graph {
    Graph([1, 2, 3],
          map[Raw(0) := NodeInfo(Static(1), None, attrs),
              Raw(1) := NodeInfo(Static(1), None, attrs),
              Raw(2) := NodeInfo(Static(3), None, attrs),
              Raw(3) := NodeInfo(Static(3), None, badAttrs)],
          {Edge(Raw(0), Raw(1)), Edge(Raw(1), Raw(2)), Edge(Raw(2), Raw(3))},
          map[])
  }

  lemma NaNGraphCounts(attrs: Json.Value, badAttrs: Json.Value)
    ensures NumNodes(NaNGraph(attrs, badAttrs)) == 4
    ensures NumEdges(NaNGraph(attrs, badAttrs)) == 3
    ensures NumLayers(NaNGraph(attrs, badAttrs)) == 2
  {
    var g := NaNGraph(attrs, badAttrs);
    assert g.nodes.Keys == {Raw(0), Raw(1), Raw(2), Raw(3)};
    assert StaticLayersInUse(g) == {1, 3} by {
      assert g.nodes[Raw(0)].owner == Static(1);
      assert g.nodes[Raw(2)].owner == Static(3);
    }
  }

  /** The three edges of the scenario, added to its four nodes. */
  method LinkChain(g: DynamicSceneGraph, attrs: Json.Value, badAttrs: Json.Value)
    requires g.Valid() && g.State() == NaNGraph(attrs, badAttrs).(edges := {})
    modifies g
    ensures g.Valid() && g.State() == NaNGraph(attrs, badAttrs)
  {
    var e0 := g.InsertEdge(Raw(0), Raw(1));
    var e1 := g.InsertEdge(Raw(1), Raw(2));
    var e2 := g.InsertEdge(Raw(2), Raw(3));
  }

  method BuildWithNaNs(attrs: Json.Value, badAttrs: Json.Value) returns (g: DynamicSceneGraph)
    ensures g.Valid() && g.State() == NaNGraph(attrs, badAttrs)
  {
    g := new DynamicSceneGraph([1, 2, 3]);
    var s0 := g.EmplaceNode(1, Raw(0), attrs);
    var s1 := g.EmplaceNode(1, Raw(1), attrs);
    var s2 := g.EmplaceNode(3, Raw(2), attrs);
    var s3 := g.EmplaceNode(3, Raw(3), badAttrs);
    LinkChain(g, attrs, badAttrs);
  }

  /** Structure of the scenario with non-finite positions: four nodes, a chain of three edges. */
  method SerializeDsgWithNaNs(attrs: Json.Value, badAttrs: Json.Value) returns (expected: DynamicSceneGraph, result: DynamicSceneGraph)
    ensures expected.NumNodes() == 4 && result.NumNodes() == expected.NumNodes()
    ensures expected.NumEdges() == 3 && result.NumEdges() == expected.NumEdges()
    ensures result.NumLayers() == expected.NumLayers()
    ensures result.layerIds == expected.layerIds == [1, 2, 3]
    ensures result.HasNode(Raw(0)) && result.HasNode(Raw(1)) && result.HasNode(Raw(2)) && result.HasNode(Raw(3))
    ensures result.HasEdge(Raw(0), Raw(1)) && result.HasEdge(Raw(1), Raw(2)) && result.HasEdge(Raw(2), Raw(3))
    ensures result.HasLayer(0) == expected.HasLayer(0)
  {
    expected := BuildWithNaNs(attrs, badAttrs);
    NaNGraphCounts(attrs, badAttrs);
    result := RoundTripCopy(expected);
  }

  /** `NodeSymbol('a', i)`. */
  function A(i: nat): NodeId {
    Symbol('a', i)
  }

  /**
   * The graph the dynamic scenario builds: node 0 in layer 3, and four nodes
   * of category 'a' in layer 2 stamped 10, 20, 30, 40; the third was added
   * without linking to its predecessor.
   */
  function DynamicGraph(layerIds: seq<LayerId>, attrs: Json.Value): Graph {
    var k := DynamicKey(2, 'a');
    Graph(layerIds,
          map[Raw(0) := NodeInfo(Static(3), None, attrs),
              A(0) := NodeInfo(Dynamic(k), Some(10), attrs),
              A(1) := NodeInfo(Dynamic(k), Some(20), attrs),
              A(2) := NodeInfo(Dynamic(k), Some(30), attrs),
              A(3) := NodeInfo(Dynamic(k), Some(40), attrs)],
          {Edge(A(0), A(1)), Edge(A(2), A(3))},
          map[k := 4])
  }

  lemma DynamicGraphCounts(layerIds: seq<LayerId>, attrs: Json.Value)
    ensures NumNodes(DynamicGraph(layerIds, attrs)) == 5
    ensures NumEdges(DynamicGraph(layerIds, attrs)) == 2
    ensures NumLayers(DynamicGraph(layerIds, attrs)) == 2
  {
    var g := DynamicGraph(layerIds, attrs);
    assert g.nodes.Keys == {Raw(0), A(0), A(1), A(2), A(3)};
    assert StaticLayersInUse(g) == {3} by {
      assert g.nodes[Raw(0)].owner == Static(3);
    }
    assert g.dynamicLayers.Keys == {DynamicKey(2, 'a')};
  }

  /** The dynamic scenario after its first three calls. */
  function DynamicGraphSoFar(layerIds: seq<LayerId>, attrs: Json.Value): Graph {
    var k := DynamicKey(2, 'a');
    Graph(layerIds,
          map[Raw(0) := NodeInfo(Static(3), None, attrs),
              A(0) := NodeInfo(Dynamic(k), Some(10), attrs),
              A(1) := NodeInfo(Dynamic(k), Some(20), attrs)],
          {Edge(A(0), A(1))},
          map[k := 2])
  }

  /**
   * The first calls of the dynamic scenario: a static node, then the first two
   * nodes of category 'a', numbered 0 and 1 and linked.
   */
  method BuildDynamicStart(layerIds: seq<LayerId>, attrs: Json.Value) returns (g: DynamicSceneGraph)
    requires 3 in layerIds
    ensures fresh(g) && g.Valid() && g.State() == DynamicGraphSoFar(layerIds, attrs)
  {
    g := new DynamicSceneGraph(layerIds);
    var s0 := g.EmplaceNode(3, Raw(0), attrs);
    var s1 := g.EmplaceDynamicNode(2, 'a', 10, attrs, true);
    assert g.edges == {} && g.dynamicLayers == map[DynamicKey(2, 'a') := 1];
    var s2 := g.EmplaceDynamicNode(2, 'a', 20, attrs, true);
  }

  /**
   * The last two dynamic emplaces: node 2 added without a link to node 1, then
   * node 3 linked to node 2.
   */
  method FinishDynamic(g: DynamicSceneGraph, layerIds: seq<LayerId>, attrs: Json.Value)
    requires g.Valid() && g.State() == DynamicGraphSoFar(layerIds, attrs)
    modifies g
    ensures g.Valid() && g.State() == DynamicGraph(layerIds, attrs)
  {
    var s3 := g.EmplaceDynamicNode(2, 'a', 30, attrs, false);
    assert g.edges == {Edge(A(0), A(1))} && g.dynamicLayers == map[DynamicKey(2, 'a') := 3];
    var s4 := g.EmplaceDynamicNode(2, 'a', 40, attrs, true);
  }

  /** Dynamic emplaces: numbering, auto-linking, the unlinked node, and the round trip. */
  method SerializeDsgDynamic(layerIds: seq<LayerId>, attrs: Json.Value) returns (expected: DynamicSceneGraph, result: DynamicSceneGraph)
    requires 3 in layerIds
    ensures expected.NumNodes() == 5 && result.NumNodes() == expected.NumNodes()
    ensures expected.NumEdges() == 2 && result.NumEdges() == expected.NumEdges()
    ensures result.NumLayers() == expected.NumLayers()
    ensures result.layerIds == expected.layerIds
    ensures result.HasNode(Raw(0))
    ensures result.HasNode(A(0)) && result.HasNode(A(1)) && result.HasNode(A(2)) && result.HasNode(A(3))
    ensures !result.HasNode(A(4))
    ensures result.HasEdge(A(0), A(1)) && !result.HasEdge(A(1), A(2)) && result.HasEdge(A(2), A(3))
    ensures result.HasDynamicLayer(2, 'a')
  {
    expected := BuildDynamicStart(layerIds, attrs);
    FinishDynamic(expected, layerIds, attrs);
    DynamicGraphCounts(layerIds, attrs);
    result := RoundTripCopy(expected);
  }
}
