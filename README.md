# Story graph editing model

A Dafny model of the editing logic behind the story-graph canvas. The editor
holds a list of typed story nodes (idea, prompt, development, structure,
output) and a list of directed edges. The user adds nodes, edits their
fields, connects them, sends a node's data one hop forward along its
outgoing edges, deletes the selected nodes, and asks an output node to
generate a story from the data it has received.

Modules:

- `GraphTypes` (`graph_types.dfy`): values, nodes, edges, and `find` by id.
- `GraphState` (`graph_state.dfy`): the graph-state hook. It covers one-hop
  propagation (`sendDataToNextNodes`), the edge built by `onConnect`, and
  `getId`.
- `NodeManagement` (`node_management.dfy`): the node-management hook. It
  covers default payloads, field setters, the snapshot sent forward, the
  batch delete and the generation request.
- `Store` (`store.dfy`): class `GraphStore` holds the node and edge lists,
  the flow-instance flag, the generated story and the preview flag. Each
  method replaces its lists by one of the functions above. Three client
  methods walk through the typical scenarios.

A node's `data` is a map from the eight editable fields to values
(`Undefined`, text, or a number), plus `received`, which stands for
`receivedData` (`None` is undefined). The callbacks that the source keeps
inside `data` are store methods here, and each takes the node id as a
parameter. A field setter is `SetField(id, field, value)`. Like the
source's `{ ...node.data, field }`, it patches every node with that id.

Behaviours of the code that the model keeps:

- `addNode` does not reject an id already present. `AppendKeepsUniqueIds`
  shows that ids stay unique exactly when the new id is fresh.
- `addNode` does not reject an unknown type. The `switch` has no `default`
  arm, so such a node is appended with an empty payload.
- A development node's snapshot carries `elementType` as well as `title` and
  `content` (`DevelopmentToOutputScenario`).
- `deleteSelected` decides each edge by the FIRST node with the endpoint's id
  in the list as it was before the delete. An endpoint that names no node
  keeps the edge.
- `sendDataForward` takes the snapshot's keys from the `switch` arm that
  built the callback, which is the owner's type. It reads the values from the
  first node in the list with the owner's id, whatever that node's type.
  `SharedIdForwardKeepsOwnerShape` shows this for an id shared by two nodes.

## Model

| member | source | states |
|---|---|---|
| GraphTypes.FindIndex | src/components/StoryGraph/hooks/useNodeManagement.tsx:40 | the index `find` stops at has the id and no earlier node has it; there is none iff no node has the id |
| GraphTypes.FindNode | src/components/StoryGraph/hooks/useNodeManagement.tsx:250-251 | a node is found iff some node has the id, and the found node is the first node in the list with that id |
| GraphTypes.FindUnique | src/components/StoryGraph/hooks/useNodeManagement.tsx:212 | with unique ids, looking a node up by its own id finds that very node |
| GraphState.IsTarget | src/components/StoryGraph/hooks/useGraphState.tsx:49 | true iff some outgoing edge has the node as its target |
| GraphState.Receive | src/components/StoryGraph/hooks/useGraphState.tsx:53-59 | the node's `receivedData` becomes the payload; its id, type, position, selection and own fields are unchanged |
| GraphState.Outgoing | src/components/StoryGraph/hooks/useGraphState.tsx:39 | an edge is kept iff it is in the list and its source is the sender |
| GraphState.Propagate | src/components/StoryGraph/hooks/useGraphState.tsx:46-62 | same length and order; id, type, position, selection and own fields unchanged on every node; `receivedData` becomes the payload exactly on nodes that are the target of an edge from the sender; every other node is returned unchanged |
| GraphState.NoOutgoingIsNoop | src/components/StoryGraph/hooks/useGraphState.tsx:42-47 | with no outgoing edge the node list is unchanged (a no-op, not an error) |
| GraphState.PropagateIdempotent | src/components/StoryGraph/hooks/useGraphState.tsx:46-62 | sending the same payload twice equals sending it once |
| GraphState.LastWriterWins | src/components/StoryGraph/hooks/useGraphState.tsx:53-58 | a second send from the same node overwrites the first everywhere; nothing is merged |
| GraphState.DuplicateEdgeWritesOnce | src/components/StoryGraph/hooks/useGraphState.tsx:49 | another copy of an existing edge does not change the result |
| GraphState.OneHopOnly | src/components/StoryGraph/hooks/useGraphState.tsx:34-64 | on a chain `from` -> `mid` -> `t` with no edge from `from` to `t`, a send from `from` leaves `t` unchanged, and a later send from `mid` reaches it: delivery is one hop |
| GraphState.MakeEdge | src/components/StoryGraph/hooks/useGraphState.tsx:20-28 | the built edge joins exactly the connection's endpoints and handles; the rest is animated, stroke width 2, closed arrow `#888` |
| GraphState.Substr | src/components/StoryGraph/hooks/useGraphState.tsx:66 | `substr` returns at most `count` characters, exactly `min(count, length - start)` of them (none past the end), each copied from position `start` onwards |
| GraphState.GetId | src/components/StoryGraph/hooks/useGraphState.tsx:66 | the id is "node_" followed by at most 9 characters, all base-36 digits when the random text has the `toString(36)` form |
| GraphState.IdTokenRoundTrip | src/components/StoryGraph/hooks/useGraphState.tsx:66 | the id carries up to nine random digits back unchanged |
| GraphState.IdDropsLaterDigits | src/components/StoryGraph/hooks/useGraphState.tsx:66 | digits after the ninth do not affect the id, so distinct draws can collide |
| NodeManagement.DefaultData | src/components/StoryGraph/hooks/useNodeManagement.tsx:22-233 | a new payload has `receivedData` undefined, and its fields are exactly the fields the type has setters for (none for an unknown type) |
| NodeManagement.DefaultPayloads | src/components/StoryGraph/hooks/useNodeManagement.tsx:24-233 | the default values: idea/prompt content ""; development "character", "", ""; structure "sequence", "", ""; output "medium", 5, "serious" |
| NodeManagement.NewNode | src/components/StoryGraph/hooks/useNodeManagement.tsx:235-240 | the new node has the given id, type and position, is not selected, has received nothing, and holds exactly the type's editable fields |
| NodeManagement.AppendKeepsUniqueIds | src/components/StoryGraph/hooks/useNodeManagement.tsx:235-242 | appending keeps ids unique iff they were unique and the new id is not yet present |
| NodeManagement.PatchField | src/components/StoryGraph/hooks/useNodeManagement.tsx:28-36 | same length and order; only field `f` of nodes with the id takes the new value; every other field, `receivedData`, id, type, position and every other node are unchanged |
| NodeManagement.PatchAbsentId | src/components/StoryGraph/hooks/useNodeManagement.tsx:84-113 | a setter for an id no node has leaves the list unchanged |
| NodeManagement.PatchOverwrites | src/components/StoryGraph/hooks/useNodeManagement.tsx:178-207 | a second set of the same field replaces the first (setting twice equals setting the last value) |
| NodeManagement.ForwardSnapshot | src/components/StoryGraph/hooks/useNodeManagement.tsx:38-168 | only the idea, prompt, development and structure arms send; the snapshot's keys are exactly the owner type's editable fields, each with the value the found node holds (undefined if it lacks it) |
| NodeManagement.SnapshotIgnoresReceived | src/components/StoryGraph/hooks/useNodeManagement.tsx:161-168 | the snapshot does not depend on `receivedData`, so inbound data is never re-sent |
| NodeManagement.ForwardRequest | src/components/StoryGraph/hooks/useNodeManagement.tsx:38-44 | nothing is sent when no node has the id; otherwise the snapshot has the owner type's keys and the values of the first node with the id |
| NodeManagement.FreshDevelopmentSnapshot | src/components/StoryGraph/hooks/useNodeManagement.tsx:79-124 | a new development node sends `{elementType: "character", title: "", content: ""}` |
| NodeManagement.SharedIdForwardKeepsOwnerShape | src/components/StoryGraph/hooks/useNodeManagement.tsx:161-168 | when an idea node precedes a development node with the same id, the development node's send has the development keys, with the idea node's `content` and undefined `elementType` and `title` |
| NodeManagement.KeepUnselected | src/components/StoryGraph/hooks/useNodeManagement.tsx:248 | a node survives iff it is in the list and not selected |
| NodeManagement.KeepUnselectedAppend | src/components/StoryGraph/hooks/useNodeManagement.tsx:248 | the filter distributes over concatenation, so the original order is kept |
| NodeManagement.KeepUnselectedNoSelection | src/components/StoryGraph/hooks/useNodeManagement.tsx:248 | with nothing selected every node stays in place |
| NodeManagement.EdgeSurvives | src/components/StoryGraph/hooks/useNodeManagement.tsx:250-252 | an edge whose endpoints name no node survives; with unique ids an edge survives iff no selected node is its source or target |
| NodeManagement.KeepEdges | src/components/StoryGraph/hooks/useNodeManagement.tsx:249-253 | an edge survives iff neither endpoint finds a selected node in the pre-deletion list |
| NodeManagement.DanglingEdgeKept | src/components/StoryGraph/hooks/useNodeManagement.tsx:250-252 | an edge whose endpoints name no node is kept |
| NodeManagement.FindAfterDelete | src/components/StoryGraph/hooks/useNodeManagement.tsx:247-253 | an id whose first node is unselected finds the same node after the delete |
| NodeManagement.KeptEdgesStillResolve | src/components/StoryGraph/hooks/useNodeManagement.tsx:247-253 | every endpoint of a surviving edge that named a node still finds that same node, so no surviving edge points at a deleted node |
| NodeManagement.NoEdgeTouchesDeleted | src/components/StoryGraph/hooks/useNodeManagement.tsx:249-253 | with unique ids no surviving edge has a selected node as source or target |
| NodeManagement.DeleteKeepsEdgesResolved | src/components/StoryGraph/hooks/useNodeManagement.tsx:247-253 | if every edge endpoint named a node before the delete, it still does afterwards |
| NodeManagement.GenerateRequest | src/components/StoryGraph/hooks/useNodeManagement.tsx:212-226 | rejected iff no node has the id or its `receivedData` is undefined; otherwise the generator gets the first such node's received data and its length, creativity and tone |
| NodeManagement.FreshOutputRejected | src/components/StoryGraph/hooks/useNodeManagement.tsx:173-216 | a new output node has received nothing, so generating from it is rejected |
| Store.GraphStore.constructor | src/components/StoryGraph/hooks/useGraphState.tsx:13-15 | the store starts with no nodes, no edges and no flow instance |
| Store.GraphStore.SetFlowInstance | src/components/StoryGraph/hooks/useGraphState.tsx:15 | after the canvas hands over its instance, nodes can be added |
| Store.GraphStore.AddNode | src/components/StoryGraph/hooks/useNodeManagement.tsx:11-243 | nothing happens without a flow instance; otherwise exactly one new node with the default payload is appended and existing nodes keep their order; edge endpoints stay resolvable |
| Store.GraphStore.SetField | src/components/StoryGraph/hooks/useNodeManagement.tsx:28-36 | the node list becomes `PatchField` of the old one; edge endpoints stay resolvable |
| Store.GraphStore.SendDataToNextNodes | src/components/StoryGraph/hooks/useGraphState.tsx:34-64 | the node list becomes `Propagate` of the old one over the current edges |
| Store.GraphStore.SendDataForward | src/components/StoryGraph/hooks/useNodeManagement.tsx:38-44 | returns the owner type's snapshot of the first node with the id; with nothing to send the nodes are unchanged, otherwise the snapshot is propagated one hop over the current edges |
| Store.GraphStore.OnGenerate | src/components/StoryGraph/hooks/useNodeManagement.tsx:208-229 | on rejection the story and the preview flag are unchanged; otherwise the story is the generator's text for the request and the preview is open |
| Store.GraphStore.DeleteSelected | src/components/StoryGraph/hooks/useNodeManagement.tsx:247-254 | nodes and edges become the two filters over the pre-deletion lists; edge endpoints stay resolvable |
| Store.StaleGenerateCounterexample | src/components/StoryGraph/hooks/useNodeManagement.tsx:212-216 | the node list captured before the output node was appended rejects the request, while the current list with that node holding received data yields one |
| Store.StaleForwardCounterexample | src/components/StoryGraph/hooks/useGraphState.tsx:39 | over the edges of the render that added an idea node nothing is delivered, while the current edge to a prompt node delivers the snapshot |
| Store.GraphStore.OnConnect | src/components/StoryGraph/hooks/useGraphState.tsx:18-32 | the built edge is appended; edges stay resolvable when both endpoints name nodes |

## Left out

- Store.GraphStore.OnConnect: adds the edge by appending. The library's `addEdge` also assigns an edge id and may skip a connection it already holds; that library is not part of this model.
- Persistence (`useGraphPersistence.tsx`) is not part of this model. It is browser storage and JSON. Loading replaces both lists wholesale, with empty lists as defaults. The callbacks in node data do not survive JSON.
- The random draw behind `getId` is a parameter of `GetId` (the text of the random number). `AddNode` takes the id itself.
- The story generator is a function parameter of `OnGenerate`. Its asynchrony, in-flight state and failures are not modelled.
- Positions are integer pairs. The viewport-centre default uses floating-point window sizes, so it is passed in as a parameter.
- `alert` and `console.log` calls are left out. The prompt node's own `onGenerate` does only these two things, so it has no model.
- Store.GraphStore.OnGenerate, Store.GraphStore.SendDataForward: read the store's current lists. In the code each callback keeps the lists of the render in which `addNode` built it. So an output node's `onGenerate` searches a list without that node and always alerts, and `sendDataForward` filters edges that cannot leave the new node and delivers nothing. The two findings below exhibit both; render and dependency timing is not modelled.
- Selection changes, dragging and other canvas changes (`onNodesChange`, `onEdgesChange`) come from the library and are not modelled. `DeleteSelected` reads the `selected` flag that nodes carry.
- The editors' option lists are not enforced, and neither is the creativity range 0..10. The setters do not enforce them either, so field values are unrestricted.

## Findings

| source | as written | input that shows it | evidently intended | confidence | as-written member | corrected member |
|---|---|---|---|---|---|---|
| src/components/StoryGraph/hooks/useNodeManagement.tsx:212-216 | `onGenerate` looks its node up in the `nodes` captured when `addNode` ran, before the node was appended at line 242 | add an output node, connect a development node to it, send forward, press generate: the lookup finds nothing and the alert is shown | look the node up in the current node list | high (not executed) | Store.StaleGenerateCounterexample | NodeManagement.GenerateRequest |
| src/components/StoryGraph/hooks/useGraphState.tsx:39 | `sendDataForward` calls the `sendDataToNextNodes` bound when its node was added, whose `edges` hold no edge leaving that new node | add an idea node and a prompt node, connect them, send the idea forward: the prompt node receives nothing | propagate over the current edges | high (not executed) | Store.StaleForwardCounterexample | GraphState.Propagate |
