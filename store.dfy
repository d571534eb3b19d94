/** The graph store: the node and edge lists the editor holds, the flow
    instance flag, and the generated story with its preview flag. Each
    operation replaces the lists by a function of the old ones. */
module Store {
  import opened GraphTypes
  import opened GraphState
  import opened NodeManagement

  class GraphStore {
    var nodes: seq<Node>
    var edges: seq<Edge>
    /** Whether the canvas has handed over its flow instance. */
    var flowReady: bool
    var storyContent: string
    var previewOpen: bool

    constructor ()
      ensures nodes == [] && edges == [] && !flowReady
      ensures storyContent == "" && !previewOpen
    {
      nodes, edges, flowReady := [], [], false;
      storyContent, previewOpen := "", false;
    }

    /** The canvas reports its flow instance (`onInit`). */
    method SetFlowInstance()
      modifies this`flowReady
      ensures flowReady
    {
      flowReady := true;
    }

    /** `addNode(type, position)`: with no flow instance nothing happens;
        otherwise one node with the type's default payload is appended, at the
        given position or else at the viewport centre. */
    method AddNode(id: string, nodeType: string, position: Option<Position>, viewportCentre: Position)
      modifies this`nodes
      ensures !flowReady ==> nodes == old(nodes)
      ensures flowReady ==> nodes == old(nodes) + [NewNode(id, nodeType, if position.Some? then position.value else viewportCentre)]
      ensures EdgesResolve(old(nodes), edges) ==> EdgesResolve(nodes, edges)
    {
      if !flowReady {
        return;
      }
      var pos := if position.Some? then position.value else viewportCentre;
      nodes := nodes + [NewNode(id, nodeType, pos)];
      assert forall i :: 0 <= i < |old(nodes)| ==> nodes[i] == old(nodes)[i];
    }

    /** One of the field setters (`onChange`, `onTitleChange`, ...) of node `id`. */
    method SetField(id: string, f: Field, v: Value)
      modifies this`nodes
      ensures nodes == PatchField(old(nodes), id, f, v)
      ensures EdgesResolve(old(nodes), edges) ==> EdgesResolve(nodes, edges)
    {
      nodes := PatchField(nodes, id, f, v);
    }

    /** `sendDataToNextNodes(from, payload)`. */
    method SendDataToNextNodes(from: string, payload: Snapshot)
      modifies this`nodes
      ensures nodes == Propagate(old(nodes), edges, from, payload)
      ensures EdgesResolve(old(nodes), edges) ==> EdgesResolve(nodes, edges)
    {
      nodes := Propagate(nodes, edges, from, payload);
    }

    /** The `sendDataForward` that `addNode` bound for node `id` of type
        `ownerType`: the snapshot sent, if any, and the node list after it has
        been propagated one hop over the current edges. */
    method SendDataForward(id: string, ownerType: string) returns (sent: Option<Snapshot>)
      modifies this`nodes
      ensures sent == ForwardRequest(old(nodes), id, ownerType)
      ensures sent.None? ==> nodes == old(nodes)
      ensures sent.Some? ==> nodes == Propagate(old(nodes), edges, id, sent.value)
      ensures EdgesResolve(old(nodes), edges) ==> EdgesResolve(nodes, edges)
    {
      sent := ForwardRequest(nodes, id, ownerType);
      if sent.Some? {
        SendDataToNextNodes(id, sent.value);
      }
    }

    /** `onGenerate` of output node `id`, with the generator as a parameter:
        on rejection nothing changes and the generator is not consulted;
        otherwise its text becomes the story and the preview opens. */
    method OnGenerate(id: string, generate: (Snapshot, Settings) -> string) returns (outcome: GenerateOutcome)
      modifies this`storyContent, this`previewOpen
      ensures outcome == GenerateRequest(nodes, id)
      ensures outcome.Rejected? ==> storyContent == old(storyContent) && previewOpen == old(previewOpen)
      ensures outcome.Requested? ==> storyContent == generate(outcome.elements, outcome.settings) && previewOpen
    {
      outcome := GenerateRequest(nodes, id);
      if outcome.Requested? {
        storyContent := generate(outcome.elements, outcome.settings);
        previewOpen := true;
      }
    }

    /** `deleteSelected`: the unselected nodes in order, and the edges that
        touch no selected node of the list as it was before the delete. */
    method DeleteSelected()
      modifies this`nodes, this`edges
      ensures nodes == KeepUnselected(old(nodes))
      ensures edges == KeepEdges(old(edges), old(nodes))
      ensures EdgesResolve(old(nodes), old(edges)) ==> EdgesResolve(nodes, edges)
    {
      if EdgesResolve(nodes, edges) {
        DeleteKeepsEdgesResolved(edges, nodes);
      }
      nodes, edges := KeepUnselected(nodes), KeepEdges(edges, nodes);
    }

    /** `onConnect(params)`: the built edge is added to the edge list. */
    method OnConnect(c: Connection)
      modifies this`edges
      ensures edges == old(edges) + [MakeEdge(c)]
      ensures EdgesResolve(nodes, old(edges)) && HasId(nodes, c.source) && HasId(nodes, c.target)
        ==> EdgesResolve(nodes, edges)
    {
      edges := edges + [MakeEdge(c)];
    }
  }

  /** Connecting a new idea node to a new prompt node and sending forward
      delivers the idea's text to the prompt node. */
  method IdeaToPromptScenario(ideaId: string, promptId: string, p: Position)
    requires ideaId != promptId
  {
    var store := new GraphStore();
    store.SetFlowInstance();
    store.AddNode(ideaId, "idea", Some(p), p);
    store.AddNode(promptId, "prompt", None, p);
    store.SetField(ideaId, Content, Text("A lost key"));
    store.OnConnect(Connection(ideaId, promptId, None, None));
    assert FindIndex(store.nodes, ideaId) == Some(0);
    var sent := store.SendDataForward(ideaId, "idea");
    assert sent == Some(map[Content := Text("A lost key")]);
    assert DirectSuccessor(store.edges, ideaId, promptId);
    assert store.nodes[1].data.received == Some(map[Content := Text("A lost key")]);
    assert store.nodes[0].data.received == None;
  }

  /** An output node nobody feeds is rejected without calling the generator. */
  method UnconnectedOutputScenario(id: string, p: Position, generate: (Snapshot, Settings) -> string)
  {
    var store := new GraphStore();
    store.SetFlowInstance();
    store.AddNode(id, "output", None, p);
    assert FindIndex(store.nodes, id) == Some(0);
    var outcome := store.OnGenerate(id, generate);
    assert outcome == Rejected;
    assert store.storyContent == "" && !store.previewOpen;
  }
  /** A development node titled "Mira" connected to an output node set to
      short, creativity 8, dark. */
  method BuildDevelopmentToOutput(devId: string, outId: string, p: Position) returns (store: GraphStore)
    requires devId != outId
    ensures fresh(store)
    ensures store.nodes == [
      Node(devId, "development", p,
           NodeData(map[ElementType := Text("character"), Title := Text("Mira"), Content := Text("brave")], None), false),
      Node(outId, "output", p,
           NodeData(map[Length := Text("short"), Creativity := Number(8), Tone := Text("dark")], None), false)]
    ensures store.edges == [MakeEdge(Connection(devId, outId, None, None))]
  {
    store := new GraphStore();
    store.SetFlowInstance();
    store.AddNode(devId, "development", None, p);
    store.AddNode(outId, "output", None, p);
    EditDevelopmentToOutput(store, devId, outId);
  }

  /** The field edits and the connection of BuildDevelopmentToOutput. */
  method EditDevelopmentToOutput(store: GraphStore, devId: string, outId: string)
    requires devId != outId && |store.nodes| == 2
    requires store.nodes[0] == NewNode(devId, "development", store.nodes[0].position)
    requires store.nodes[1] == NewNode(outId, "output", store.nodes[1].position)
    requires store.edges == []
    modifies store
    ensures store.nodes == [
      Node(devId, "development", old(store.nodes[0].position),
           NodeData(map[ElementType := Text("character"), Title := Text("Mira"), Content := Text("brave")], None), false),
      Node(outId, "output", old(store.nodes[1].position),
           NodeData(map[Length := Text("short"), Creativity := Number(8), Tone := Text("dark")], None), false)]
    ensures store.edges == [MakeEdge(Connection(devId, outId, None, None))]
  {
    var output := store.nodes[1];
    store.SetField(devId, Title, Text("Mira"));
    store.SetField(devId, Content, Text("brave"));
    var dev := store.nodes[0];
    assert dev.data == NodeData(map[ElementType := Text("character"), Title := Text("Mira"), Content := Text("brave")], None);
    assert store.nodes[1] == output;
    store.SetField(outId, Length, Text("short"));
    store.SetField(outId, Creativity, Number(8));
    store.SetField(outId, Tone, Text("dark"));
    assert store.nodes[0] == dev;
    assert store.nodes[1].data == NodeData(map[Length := Text("short"), Creativity := Number(8), Tone := Text("dark")], None);
    assert store.nodes == [dev, store.nodes[1]];
    store.OnConnect(Connection(devId, outId, None, None));
  }

  /** Sending the development node forward and generating from the output node
      hands the generator the development node's three fields and the output
      node's settings. */
  method DevelopmentToOutputScenario(devId: string, outId: string, p: Position,
                                     generate: (Snapshot, Settings) -> string)
    requires devId != outId
  {
    var store := BuildDevelopmentToOutput(devId, outId, p);
    var elements := map[ElementType := Text("character"), Title := Text("Mira"), Content := Text("brave")];
    assert FindIndex(store.nodes, devId) == Some(0);
    var sent := store.SendDataForward(devId, "development");
    assert sent == Some(elements);
    assert DirectSuccessor(store.edges, devId, outId);
    assert FindIndex(store.nodes[1..], outId) == Some(0);
    assert FindIndex(store.nodes, outId) == Some(1);
    var outcome := store.OnGenerate(outId, generate);
    assert outcome == Requested(elements, Settings(Text("short"), Number(8), Text("dark")));
    assert store.previewOpen;
  }

  /** `onGenerate` as written searches the node list captured when `addNode`
      built the output node, before that node was appended, so it rejects even
      an output node that has received data; looked up in the current list the
      same node yields a request. */
  lemma StaleGenerateCounterexample(outId: string, p: Position, elements: Snapshot)
    ensures GenerateRequest([], outId) == Rejected
    ensures var fed := NewNode(outId, "output", p).(data := NodeData(DefaultData("output").fields, Some(elements)));
      GenerateRequest([fed], outId) == Requested(elements, Settings(Text("medium"), Number(5), Text("serious")))
  {
    var fed := NewNode(outId, "output", p).(data := NodeData(DefaultData("output").fields, Some(elements)));
    assert FindIndex([fed], outId) == Some(0);
  }

  /** `sendDataForward` as written calls the `sendDataToNextNodes` of the
      render in which its node was added, which filters that render's edges:
      an idea node connected to a prompt node afterwards delivers nothing over
      those edges, while the current edges deliver to the prompt node. */
  lemma StaleForwardCounterexample(ideaId: string, promptId: string, p: Position, payload: Snapshot)
    requires ideaId != promptId
    ensures var nodes := [NewNode(ideaId, "idea", p), NewNode(promptId, "prompt", p)];
      Propagate(nodes, [], ideaId, payload) == nodes
    ensures var nodes := [NewNode(ideaId, "idea", p), NewNode(promptId, "prompt", p)];
      Propagate(nodes, [MakeEdge(Connection(ideaId, promptId, None, None))], ideaId, payload)[1].data.received
        == Some(payload)
  {
    var e := MakeEdge(Connection(ideaId, promptId, None, None));
    assert e in [e] && e.source == ideaId && e.target == promptId;
  }
}
