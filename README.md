# Kimera DSG: attribute factory and scene-graph serialization, in Dafny

This project models two parts of the Kimera dynamic scene graph (DSG) library.

1. **The attribute factory** `AttributeFactory<T>`. It is a registry that maps a type-tag
   string to a zero-argument constructor of a node-attribute (or edge-info) class.
   - `registerConstructor` writes into the registry.
   - `create(record)` reads the tag field `T::TYPE_KEY` of a JSON record and looks it up.
     It then builds a default instance and lets the instance fill itself from the record.
   - Every failure becomes a `std::domain_error` except two: a missing tag field, and any
     exception from `fillFromJson` that is not a type error.
   - The `REGISTER_ATTR_FACTORY` / `REGISTER_INFO_FACTORY` macros register a class under
     its own name.
2. **The `DynamicSceneGraph` behaviour that the JSON serialization tests fix.** This covers:
   - static and dynamic node emplacement, where a dynamic emplace links automatically to
     the previous node of its (layer, category) unless `connectToPrevious` is false;
   - edge insertion;
   - the `has*` / `num*` queries;
   - `serialize` / `deserialize` through an abstract JSON document, and their round trip.

   The three test scenarios (`SerializeDsgBasic`, `SerializeDsgWithNaNs`,
   `SerializeDsgDynamic`) are methods. Their postconditions are the test's expectations.

Files:

- `wrappers.dfy`: `Option` and `Result`.
- `json.dfy`: a small JSON value and the two nlohmann accessors `create` uses, `at` and
  `get<std::string>`. Each accessor keeps its own exception kind.
- `attribute_serialization.dfy`:
  - the pure `Create` function and its lemmas;
  - the class `AttributeFactory`, whose method updates its `factoryMap` field in place.
- `graph_model.dfy`: the scene graph as a value, which acts as the specification.
  - the invariant `Valid`;
  - each mutation as a function;
  - the serialized document;
  - `Restore` (deserialization), and the round-trip theorem `Restore(doc) == Some(g)` for
    every document that lists a valid graph.
- `dynamic_scene_graph.dfy`: the class `DynamicSceneGraph`. Its fields are changed in place
  by `EmplaceNode`, `EmplaceDynamicNode` and `InsertEdge`.
  - Each method is proved to produce exactly the state the matching `GraphModel` function
    describes.
  - `Serialize` and `Deserialize` are loops proved against `Serializes` and `Restore`.
- `serialization_tests.dfy`: the three test scenarios as method sequences.

The `DynamicSceneGraph` implementation is not modelled here, so the model makes the following design decisions:

- **Node ids.** `NodeId` is `Raw(n)` or `Symbol(category, index)`. Two different
  constructors never compare equal, and no bit layout is modelled.
- **Dynamic layers.** A (layer, category) dynamic layer is created on its first emplace. It
  holds the index of its next node. The new node is `Symbol(category, index)`. A linked
  emplace adds the edge from `Symbol(category, index - 1)` to the new node.
- **numLayers.** It counts the static layers that hold at least one node, plus the dynamic
  layers. This is the model's own definition. The tests assert only that each count is the
  same before and after the round trip, never a value. The layer counts that
  `BasicGraphCounts`, `NaNGraphCounts` and `DynamicGraphCounts` state (2 in each case)
  follow from this definition, not from the tests.
- **Status codes.** Failed operations return a `Status` and leave the graph unchanged.
  - Static emplace: an unlisted layer is `UnknownLayer`, checked before a duplicate id
    (`DuplicateNode`).
  - Dynamic emplace: it never reports `UnknownLayer`. Any layer id is accepted, listed in
    the layer ids or not. Its only failure is `DuplicateNode`, when the id it would assign
    is already a node.
  - Edge insertion: a missing end is `NodeNotFound`, checked before a self-loop
    (`InvalidEdge`), which is checked before an existing edge in either orientation
    (`DuplicateEdge`).
- **Deserialization.** It restores the layer ids, then every node, then every edge, with
  the same checks. Any rejected record makes the result `null`.
  - Dynamic node ids are read from the node records. They are not re-derived from the
    order of the records.
  - Each dynamic counter is set to one past the largest index seen in its layer.
  - A dynamic layer whose records come in any order, or have gaps, is therefore accepted.
    For example, a document holding only `a2` restores a layer with counter 3 and no `a0`
    or `a1`. This is why `RestoreListedNodes` and `RoundTrip` hold for node records in any
    order.
- **Type key.** `T::TYPE_KEY` is a constant of the attribute class. The model passes it to
  the factory's constructor instead.

## Model

| member | source | states |
|---|---|---|
| AttributeSerialization.Create | kimera_dsg/include/kimera_dsg/attribute_serialization.h:28-63 | On success, the tag was read as a string from the record, is registered with a non-null constructor of the same class, and the payload is exactly what that class's fill hook produced from the default instance and the record. A malformed tag (the record is not an object, or the tag is not a string) gives the domain error "when reading type" naming the record. A missing tag field in an object gives nlohmann's unwrapped out_of_range. |
| AttributeSerialization.CreateNotAnObject | kimera_dsg/include/kimera_dsg/attribute_serialization.h:30-38 | A record that is not a JSON object fails with the domain error that carries nlohmann's message "[json.exception.type_error.304] cannot use at() with <type>" and the record. |
| AttributeSerialization.CreateTagNotAString | kimera_dsg/include/kimera_dsg/attribute_serialization.h:30-38 | An object whose tag field is not a string fails with the domain error that carries "[json.exception.type_error.302] type must be string, but is <type>" and the record. |
| AttributeSerialization.CreateMissingTypeKey | kimera_dsg/include/kimera_dsg/attribute_serialization.h:31-34 | An object without the tag field fails with the out_of_range error "[json.exception.out_of_range.403] key '<key>' not found", which is not a domain error because only type_error is caught. |
| AttributeSerialization.CreateUnregistered | kimera_dsg/include/kimera_dsg/attribute_serialization.h:40-46 | A well-formed tag that is not a key of the registry fails with "Failed to find parser function" for that tag, whatever else is registered. |
| AttributeSerialization.CreateNullConstructor | kimera_dsg/include/kimera_dsg/attribute_serialization.h:48-52 | A tag registered with a null constructor fails with "invalid parser function" for that tag. |
| AttributeSerialization.CreateFill | kimera_dsg/include/kimera_dsg/attribute_serialization.h:54-62 | With a real constructor, a successful fill yields an instance of the registered class holding the filled payload. A type error during fill becomes the domain error "when converting" naming the record, any other exception passes through unchanged, and in both cases no instance is returned. |
| AttributeSerialization.CreateCheckOrder | kimera_dsg/include/kimera_dsg/attribute_serialization.h:30-62 | The failures come in the source's order: "parser not found" only after a well-formed tag, "invalid parser" only for a registered tag, and a conversion error only after a registered non-null constructor. |
| AttributeSerialization.CreateReadsOnlyTagEntry | kimera_dsg/include/kimera_dsg/attribute_serialization.h:40-54 | The outcome of create depends on the registry only through the entry for the record's tag: two registries that agree on that entry give the same result. |
| AttributeSerialization.RegisterThenCreate | kimera_dsg/include/kimera_dsg/attribute_serialization.h:24-62 | After registering constructor c under the record's tag, create returns c's class with c's fill result, whatever the registry held before. When the fill fails, a type error becomes the "when converting" domain error naming the record, and any other exception passes through unchanged. |
| AttributeSerialization.RegisteredClassRoundTrip | kimera_dsg/include/kimera_dsg/attribute_serialization.h:85-95 | A class registered under its own name, as the macros do, is the class that create builds for a record whose tag is that name. |
| AttributeSerialization.AttributeFactory.constructor | kimera_dsg/include/kimera_dsg/attribute_serialization.h:21 | A new factory has an empty registry. |
| AttributeSerialization.AttributeFactory.RegisterConstructor | kimera_dsg/include/kimera_dsg/attribute_serialization.h:24-26 | The registry afterwards maps the tag to the given constructor, possibly null. Re-registering overwrites silently, and every other entry is unchanged. |
| AttributeSerialization.AttributeFactory.RegisterClass | kimera_dsg/include/kimera_dsg/attribute_serialization.h:85-95 | The macros register a class's default constructor under the class name: the registry gains exactly that entry. |
| AttributeSerialization.AttributeFactory.CreateInstance | kimera_dsg/include/kimera_dsg/attribute_serialization.h:28-63 | The const member create, written out with the source's early exits: read the tag (wrapping only a type error), reject an unknown tag, then a null constructor, then build and fill (wrapping only a type error). It is proved to return exactly what the specification `Create` gives on the current registry, so the success case, the malformed-tag domain error, the unwrapped out_of_range, ParserNotFound, InvalidParser and the fill outcomes proved of `Create` all hold for it. |
| Json.At | kimera_dsg/include/kimera_dsg/attribute_serialization.h:33 | `record.at(key)` succeeds exactly on an object holding the key and returns that field. It throws a type error exactly when the value is not an object, and out_of_range exactly when the object lacks the key. |
| Json.GetString | kimera_dsg/include/kimera_dsg/attribute_serialization.h:33 | `get<std::string>()` succeeds exactly on a string and returns it; anything else is a type error. |
| GraphModel.Empty | kimera_dsg/tests/utest_json_serialization.cpp:10 | A freshly constructed graph, with its layer ids and no nodes, satisfies the graph invariant. |
| GraphModel.HasEdgeSymmetric | kimera_dsg/tests/utest_json_serialization.cpp:93-95 | hasEdge does not depend on the order of its two arguments. |
| GraphModel.EdgeEndpointsPresent | kimera_dsg/tests/utest_json_serialization.cpp:15-16 | In a valid graph, every reported edge joins two distinct nodes that are both present. |
| GraphModel.WithStaticNodeValid | kimera_dsg/tests/utest_json_serialization.cpp:11-13 | An accepted static emplace keeps the invariant, adds exactly one node, and makes hasNode true for the id. |
| GraphModel.WithDynamicNodeValid | kimera_dsg/tests/utest_json_serialization.cpp:74-77 | An accepted dynamic emplace keeps the invariant and adds exactly one node, `NodeSymbol(category, n)`, where n is the layer's next index. It advances that layer's index by one and leaves every other layer's index alone, so successive emplaces get 0, 1, 2, 3 in order. |
| GraphModel.DynamicEmplaceLinksPrevious | kimera_dsg/tests/utest_json_serialization.cpp:74-75 | When a dynamic layer already holds nodes, a default (linked) emplace joins the new node to `NodeSymbol(category, n - 1)`, which is present, and adds exactly one edge. |
| GraphModel.DynamicEmplaceUnlinked | kimera_dsg/tests/utest_json_serialization.cpp:76 | An emplace with `connectToPrevious = false` adds no edge, and the new node touches no edge. |
| GraphModel.LinkedAfterUnlinked | kimera_dsg/tests/utest_json_serialization.cpp:76-77 | After an unlinked emplace of node n, the next linked emplace joins n to n + 1, while n stays unjoined from n - 1. |
| GraphModel.InsertEdgeValid | kimera_dsg/tests/utest_json_serialization.cpp:15-16 | An accepted insertEdge keeps the invariant, including between nodes of different layers. It adds exactly one edge, which is reported in both orientations. |
| GraphModel.NoEdgeAtMissingNode | kimera_dsg/tests/utest_json_serialization.cpp:94 | In a valid graph, no edge touches an id that is not a node. |
| GraphModel.RestoreNodeValid | kimera_dsg/tests/utest_json_serialization.cpp:20 | Restoring one accepted node record keeps the invariant, adds exactly that node, and leaves the edges and layer ids unchanged. |
| GraphModel.RestoreNodesValid | kimera_dsg/tests/utest_json_serialization.cpp:20 | Restoring a list of node records, when accepted, keeps the invariant. |
| GraphModel.RestoreEdgesValid | kimera_dsg/tests/utest_json_serialization.cpp:20 | Restoring a list of edge records, when accepted, keeps the invariant and the node set. |
| GraphModel.RestoreValid | kimera_dsg/tests/utest_json_serialization.cpp:20 | Every graph that deserialize produces satisfies the invariant. |
| GraphModel.RestoreListedNodes | kimera_dsg/tests/utest_json_serialization.cpp:18-20 | Node records listing the nodes of a valid graph, in any order and without repeats, restore exactly those nodes with their dynamic layers and counters. |
| GraphModel.RestoreListedEdges | kimera_dsg/tests/utest_json_serialization.cpp:18-20 | Edge records listing the remaining edges of a valid graph, in any order and without repeats, are all accepted and restore exactly its edge set. |
| GraphModel.RoundTrip | kimera_dsg/tests/utest_json_serialization.cpp:18-20 | Deserializing any serialization of a valid graph gives back exactly that graph. |
| GraphModel.RoundTripPreservesQueries | kimera_dsg/tests/utest_json_serialization.cpp:22-32 | After the round trip, numNodes, numEdges, numLayers and the layer ids are unchanged. Every hasNode, hasEdge, hasLayer and dynamic hasLayer answer is also unchanged. |
| SceneGraph.DynamicSceneGraph.constructor | kimera_dsg/tests/utest_json_serialization.cpp:10 | The new graph holds the given layer ids and nothing else, and it satisfies the invariant. |
| SceneGraph.DynamicSceneGraph.EmplaceNode | kimera_dsg/tests/utest_json_serialization.cpp:11-13 | The static emplace reports UnknownLayer, DuplicateNode or Ok. On Ok the new state is the old one with the node added to that layer; otherwise the state is unchanged. The invariant is kept. |
| SceneGraph.DynamicSceneGraph.EmplaceDynamicNode | kimera_dsg/tests/utest_json_serialization.cpp:74-77 | The dynamic emplace adds `NodeSymbol(category, next)`, advances the counter, and adds the link to the predecessor exactly when `connectToPrevious` holds and a predecessor exists. Otherwise it reports DuplicateNode and changes nothing. |
| SceneGraph.DynamicSceneGraph.InsertEdge | kimera_dsg/tests/utest_json_serialization.cpp:15-16 | The edge insertion reports NodeNotFound, InvalidEdge, DuplicateEdge or Ok. On Ok exactly one edge is added; otherwise nothing changes. |
| SceneGraph.DynamicSceneGraph.RestoreNodeRecord | kimera_dsg/tests/utest_json_serialization.cpp:20 | Adding one deserialized node record succeeds exactly when the model accepts it, and then gives the model's restored state. Otherwise nothing changes. |
| SceneGraph.DynamicSceneGraph.NodeRecords | kimera_dsg/tests/utest_json_serialization.cpp:18 | The serialized node list holds every node once, with its info, and nothing else. |
| SceneGraph.DynamicSceneGraph.EdgeRecords | kimera_dsg/tests/utest_json_serialization.cpp:18 | The serialized edge list holds every edge once and nothing else. |
| SceneGraph.DynamicSceneGraph.Serialize | kimera_dsg/tests/utest_json_serialization.cpp:18 | The document carries the layer ids, every node and every edge exactly once. |
| SceneGraph.DynamicSceneGraph.Deserialize | kimera_dsg/tests/utest_json_serialization.cpp:20 | The result is null exactly when the document is rejected. Otherwise it is a new, valid graph whose state is the restored one. |
| SerializationTests.RoundTripCopy | kimera_dsg/tests/utest_json_serialization.cpp:18-25 | Serializing a valid graph and deserializing the output gives a graph with the same state, counts and layer ids. |
| SerializationTests.BasicGraphCounts | kimera_dsg/tests/utest_json_serialization.cpp:22-24 | The basic scenario's graph has 3 nodes, 2 edges and 2 layers. |
| SerializationTests.BuildBasic | kimera_dsg/tests/utest_json_serialization.cpp:10-16 | The three emplaces and two insertions of the basic scenario all succeed and build the expected graph. |
| SerializationTests.LinkBasic | kimera_dsg/tests/utest_json_serialization.cpp:15-16 | The two edge insertions succeed, including the inter-layer edge 1–2. |
| SerializationTests.SerializeDsgBasic | kimera_dsg/tests/utest_json_serialization.cpp:9-33 | Every expectation of the basic test holds after the round trip: the counts, the layer ids, nodes 0, 1 and 2, edges 0–1 and 1–2, and hasLayer(0). |
| SerializationTests.NaNGraphCounts | kimera_dsg/tests/utest_json_serialization.cpp:54-56 | The NaN scenario's graph has 4 nodes, 3 edges and 2 layers. |
| SerializationTests.BuildWithNaNs | kimera_dsg/tests/utest_json_serialization.cpp:36-48 | The four emplaces, one of them with different attributes, and the three insertions all succeed and build the expected graph. |
| SerializationTests.LinkChain | kimera_dsg/tests/utest_json_serialization.cpp:46-48 | The three chain edges are all accepted. |
| SerializationTests.SerializeDsgWithNaNs | kimera_dsg/tests/utest_json_serialization.cpp:35-67 | Every structural expectation of the NaN test holds after the round trip: the counts, the layer ids, nodes 0 to 3, edges 0–1, 1–2 and 2–3, and hasLayer(0). |
| SerializationTests.DynamicGraphCounts | kimera_dsg/tests/utest_json_serialization.cpp:83-85 | The dynamic scenario's graph has 5 nodes, 2 edges and 2 layers. |
| SerializationTests.BuildDynamicStart | kimera_dsg/tests/utest_json_serialization.cpp:71-75 | The static node and the first two linked dynamic emplaces succeed and give `a0`, `a1` and the edge between them. |
| SerializationTests.FinishDynamic | kimera_dsg/tests/utest_json_serialization.cpp:76-77 | The unlinked emplace of `a2` and the linked emplace of `a3` succeed and produce the expected graph. |
| SerializationTests.SerializeDsgDynamic | kimera_dsg/tests/utest_json_serialization.cpp:69-98 | Every expectation of the dynamic test holds after the round trip: the counts, the layer ids, node 0, and `a0` to `a3` (with no `a4`). Edges `a0–a1` and `a2–a3` are present, `a1–a2` is absent, and the dynamic layer (2, 'a') exists. |

## Left out

- `NodeAttributeFactory::Default` and `EdgeInfoFactory::Default`: their bodies are not
  part of this model, so the default registrations are not modelled.
- The `static_assert` base-class checks of the registration macros: these are
  compile-time C++ type checks.
- The text of the `domain_error` messages: the model keeps each message's kind, the tag and
  the record, but it does not render the record into a string. The library's own
  exception messages do carry their `what()` text, including the id prefix such as
  `[json.exception.type_error.304] `.
- nlohmann JSON parsing and rendering: a record is an abstract JSON value. Numbers are
  integers, because no double-valued field is read by the modelled code.
- `fillFromJson`: each registered class's hook is an arbitrary function that may fail with
  a type error. The attribute classes themselves are not part of this model.
- Registered constructors that misbehave: `create` calls the registered function pointer
  and uses its result without a check. A non-null `Ctor` always yields a default
  instance, so the model does not capture a constructor that returns a null pointer or
  throws.
- Edge attributes (`EdgeAttributes` in include/kimera_dsg/edge_attributes.h, with its
  `weighted` flag and its double `weight`): edges carry no payload.
- NaN positions and the JSON encoding of non-finite doubles: the NaN scenario keeps only
  its structure. The node with NaN coordinates is a node with different, opaque attributes.
- `save` / `load`, `TempFile` and the PCL mesh: file I/O and a foreign point-cloud library.
  The mesh layer id (the second constructor argument) is not modelled either.
- The default layer ids of `DynamicSceneGraph`'s default constructor: those ids are not
  part of this model. The dynamic scenario therefore takes the layer list as a parameter
  and requires only that it contains layer 3.
- Timestamps are stored but not checked for order. Out-of-order timestamps, node removal,
  merging and layer-level operations are not exercised by the modelled tests, and their
  implementation is not modelled here.
- The 64-bit width of node ids and symbol indices: indices are unbounded naturals.
- Memory ownership (`unique_ptr`) and exceptions: failures are status codes and `null`.
