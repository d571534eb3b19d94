/** The node-management hook: the default payload of each node type, the
    per-field setters, the snapshot a node sends forward, the batch delete of
    selected nodes and the request an output node hands to the generator. */
module NodeManagement {
  import opened GraphTypes

  /** The fields a node of this type is created with; each has its own setter. */
  function EditableFields(nodeType: string): set<Field>
  {
    if nodeType == "idea" || nodeType == "prompt" then {Content}
    else if nodeType == "development" then {ElementType, Title, Content}
    else if nodeType == "structure" then {StructureType, Title, Description}
    else if nodeType == "output" then {Length, Creativity, Tone}
    else {}
  }

  /** The `switch (type)` of `addNode`: the default payload of a new node. A
      type outside the five matches no arm and gets an empty payload. */
  function DefaultData(nodeType: string): (d: NodeData)
    ensures d.received == None
    ensures d.fields.Keys == EditableFields(nodeType)
  {
    var fields :=
      if nodeType == "idea" || nodeType == "prompt" then
        map[Content := Text("")]
      else if nodeType == "development" then
        map[ElementType := Text("character"), Title := Text(""), Content := Text("")]
      else if nodeType == "structure" then
        map[StructureType := Text("sequence"), Title := Text(""), Description := Text("")]
      else if nodeType == "output" then
        map[Length := Text("medium"), Creativity := Number(5), Tone := Text("serious")]
      else
        map[];
    NodeData(fields, None)
  }

  /** The table of default payloads, type by type. */
  lemma DefaultPayloads()
    ensures DefaultData("idea").fields == map[Content := Text("")]
    ensures DefaultData("prompt").fields == map[Content := Text("")]
    ensures DefaultData("development").fields
         == map[ElementType := Text("character"), Title := Text(""), Content := Text("")]
    ensures DefaultData("structure").fields
         == map[StructureType := Text("sequence"), Title := Text(""), Description := Text("")]
    ensures DefaultData("output").fields
         == map[Length := Text("medium"), Creativity := Number(5), Tone := Text("serious")]
    ensures forall t :: DefaultData(t).received == None
  {
  }

  /** The node `addNode` appends (not selected until the canvas says so). */
  function NewNode(id: string, nodeType: string, position: Position): (n: Node)
    ensures n.id == id && n.nodeType == nodeType && n.position == position && !n.selected
    ensures n.data.received == None && n.data.fields.Keys == EditableFields(nodeType)
  {
    Node(id, nodeType, position, DefaultData(nodeType), false)
  }

  /** Appending a node keeps the ids unique exactly when its id is new: the
      generated id is not checked against the nodes already present. */
  lemma {:induction false} AppendKeepsUniqueIds(nodes: seq<Node>, n: Node)
    ensures UniqueIds(nodes + [n]) <==> UniqueIds(nodes) && !HasId(nodes, n.id)
  {
    var all := nodes + [n];
    if UniqueIds(all) {
      forall i, j | 0 <= i < |nodes| && 0 <= j < |nodes| && nodes[i].id == nodes[j].id ensures i == j {
        assert all[i] == nodes[i] && all[j] == nodes[j];
      }
      forall i | 0 <= i < |nodes| ensures nodes[i].id != n.id {
        assert all[i] == nodes[i] && all[|nodes|] == n;
      }
    }
  }

  /** The node list after a field setter for `f` fires on node `id`: every node
      with that id has `f` replaced by `v` (`{ ...node.data, f: v }`). */
  function PatchField(nodes: seq<Node>, id: string, f: Field, v: Value): (r: seq<Node>)
    ensures |r| == |nodes|
    ensures forall i :: 0 <= i < |nodes| ==>
      && r[i].id == nodes[i].id && r[i].nodeType == nodes[i].nodeType
      && r[i].position == nodes[i].position && r[i].selected == nodes[i].selected
      && r[i].data.received == nodes[i].data.received
    ensures forall i, g :: 0 <= i < |nodes| && g != f ==> Read(r[i].data.fields, g) == Read(nodes[i].data.fields, g)
    ensures forall i :: 0 <= i < |nodes| ==>
      Read(r[i].data.fields, f) == if nodes[i].id == id then v else Read(nodes[i].data.fields, f)
    ensures forall i :: 0 <= i < |nodes| && nodes[i].id != id ==> r[i] == nodes[i]
  {
    seq(|nodes|, i requires 0 <= i < |nodes| =>
      if nodes[i].id == id then nodes[i].(data := nodes[i].data.(fields := nodes[i].data.fields[f := v]))
      else nodes[i])
  }

  /** A setter for an id no node has leaves the list as it is (not an error). */
  lemma PatchAbsentId(nodes: seq<Node>, id: string, f: Field, v: Value)
    requires !HasId(nodes, id)
    ensures PatchField(nodes, id, f, v) == nodes
  {
  }

  /** Setting the same value twice is the same as setting it once, and a
      second value for the field replaces the first. */
  lemma PatchOverwrites(nodes: seq<Node>, id: string, f: Field, v: Value, w: Value)
    ensures PatchField(PatchField(nodes, id, f, v), id, f, w) == PatchField(nodes, id, f, w)
  {
    var a, b := PatchField(PatchField(nodes, id, f, v), id, f, w), PatchField(nodes, id, f, w);
    forall i | 0 <= i < |nodes| ensures a[i] == b[i] {
      if nodes[i].id == id {
        assert a[i].data.fields == b[i].data.fields;
      }
    }
  }

  /** The snapshot built by the `sendDataForward` that `addNode` bound for a
      node of type `ownerType`: that type's editable fields, read from node
      `n`, never its `receivedData`. Output nodes (and nodes of an unknown
      type) have no `sendDataForward`. */
  function ForwardSnapshot(ownerType: string, n: Node): (r: Option<Snapshot>)
    ensures r.None? <==> ownerType !in {"idea", "prompt", "development", "structure"}
    ensures r.Some? ==> r.value.Keys == EditableFields(ownerType)
    ensures r.Some? ==> forall f :: f in r.value ==> r.value[f] == Read(n.data.fields, f)
  {
    var fs := n.data.fields;
    if ownerType == "idea" || ownerType == "prompt" then
      Some(map[Content := Read(fs, Content)])
    else if ownerType == "development" then
      Some(map[ElementType := Read(fs, ElementType), Title := Read(fs, Title), Content := Read(fs, Content)])
    else if ownerType == "structure" then
      Some(map[StructureType := Read(fs, StructureType), Title := Read(fs, Title),
               Description := Read(fs, Description)])
    else None
  }

  /** The snapshot does not depend on what the node has received, so inbound
      data is never re-broadcast. */
  lemma SnapshotIgnoresReceived(ownerType: string, n: Node, received: Option<Snapshot>)
    ensures ForwardSnapshot(ownerType, n.(data := n.data.(received := received))) == ForwardSnapshot(ownerType, n)
  {
  }

  /** `sendDataForward` bound for node `id` of type `ownerType`: nothing when
      no node has that id, otherwise the owner type's snapshot of the first
      node with the id. */
  function ForwardRequest(nodes: seq<Node>, id: string, ownerType: string): (r: Option<Snapshot>)
    ensures !HasId(nodes, id) ==> r == None
    ensures HasId(nodes, id) ==>
      exists k :: 0 <= k < |nodes| && nodes[k].id == id && r == ForwardSnapshot(ownerType, nodes[k])
        && forall j :: 0 <= j < k ==> nodes[j].id != id
  {
    match FindIndex(nodes, id)
    case None => None
    case Some(k) => ForwardSnapshot(ownerType, nodes[k])
  }

  /** A freshly created development node sends its default fields. */
  lemma FreshDevelopmentSnapshot(id: string, p: Position)
    ensures ForwardRequest([NewNode(id, "development", p)], id, "development")
         == Some(map[ElementType := Text("character"), Title := Text(""), Content := Text("")])
  {
    assert FindIndex([NewNode(id, "development", p)], id) == Some(0);
  }

  /** With a shared id, a development node's send reads its keys from an idea
      node found first: the snapshot still has the development shape, with
      undefined where the idea node has no such field. */
  lemma SharedIdForwardKeepsOwnerShape(id: string, p: Position)
    ensures ForwardRequest([NewNode(id, "idea", p), NewNode(id, "development", p)], id, "development")
         == Some(map[ElementType := Undefined, Title := Undefined, Content := Text("")])
  {
    assert FindIndex([NewNode(id, "idea", p), NewNode(id, "development", p)], id) == Some(0);
  }

  /** `nds.filter(node => !node.selected)`. */
  function KeepUnselected(nodes: seq<Node>): (r: seq<Node>)
    ensures forall n :: n in r <==> n in nodes && !n.selected
    ensures |r| <= |nodes|
  {
    if |nodes| == 0 then []
    else (if nodes[0].selected then [] else [nodes[0]]) + KeepUnselected(nodes[1..])
  }

  /** The filter keeps the original order: it distributes over concatenation. */
  lemma {:induction false} KeepUnselectedAppend(a: seq<Node>, b: seq<Node>)
    ensures KeepUnselected(a + b) == KeepUnselected(a) + KeepUnselected(b)
  {
    if |a| == 0 {
      assert a + b == b;
    } else {
      assert (a + b)[1..] == a[1..] + b;
      KeepUnselectedAppend(a[1..], b);
    }
  }

  /** With nothing selected, deletion keeps every node in place. */
  lemma {:induction false} KeepUnselectedNoSelection(nodes: seq<Node>)
    requires forall i :: 0 <= i < |nodes| ==> !nodes[i].selected
    ensures KeepUnselected(nodes) == nodes
  {
    if |nodes| > 0 {
      KeepUnselectedNoSelection(nodes[1..]);
    }
  }

  /** `node?.selected` for a lookup that may have found nothing. */
  predicate SelectedIn(found: Option<Node>)
  {
    found.Some? && found.value.selected
  }

  /** The edge filter of `deleteSelected`: an edge stays unless the node its
      source or its target finds in the pre-deletion list is selected. */
  function EdgeSurvives(nodes: seq<Node>, e: Edge): (r: bool)
    ensures !HasId(nodes, e.source) && !HasId(nodes, e.target) ==> r
    ensures UniqueIds(nodes) ==>
      (r <==> forall i :: 0 <= i < |nodes| && nodes[i].selected ==> nodes[i].id != e.source && nodes[i].id != e.target)
  {
    !SelectedIn(FindNode(nodes, e.source)) && !SelectedIn(FindNode(nodes, e.target))
  }

  function KeepEdges(edges: seq<Edge>, nodes: seq<Node>): (r: seq<Edge>)
    ensures forall e :: e in r <==> e in edges && EdgeSurvives(nodes, e)
    ensures |r| <= |edges|
  {
    if |edges| == 0 then []
    else (if EdgeSurvives(nodes, edges[0]) then [edges[0]] else []) + KeepEdges(edges[1..], nodes)
  }

  /** An edge whose endpoints name no node at all is kept. */
  lemma DanglingEdgeKept(edges: seq<Edge>, nodes: seq<Node>, e: Edge)
    requires e in edges && !HasId(nodes, e.source) && !HasId(nodes, e.target)
    ensures e in KeepEdges(edges, nodes)
  {
  }

  /** An id whose first node is unselected is still found, at the same node,
      once the selected nodes are gone. */
  lemma {:induction false} FindAfterDelete(nodes: seq<Node>, id: string)
    requires FindNode(nodes, id).Some? && !FindNode(nodes, id).value.selected
    ensures FindNode(KeepUnselected(nodes), id) == FindNode(nodes, id)
  {
    if nodes[0].id == id {
      assert FindIndex(KeepUnselected(nodes), id) == Some(0);
    } else {
      var k := FindIndex(nodes, id).value;
      assert FindIndex(nodes[1..], id) == Some(k - 1);
      FindAfterDelete(nodes[1..], id);
      if nodes[0].selected {
        assert KeepUnselected(nodes) == KeepUnselected(nodes[1..]);
      } else {
        var rest := KeepUnselected(nodes[1..]);
        assert KeepUnselected(nodes) == [nodes[0]] + rest;
        assert ([nodes[0]] + rest)[1..] == rest;
      }
    }
  }

  /** No surviving edge points at a deleted node: each endpoint that named a
      node before the delete still finds that same node afterwards. */
  lemma KeptEdgesStillResolve(edges: seq<Edge>, nodes: seq<Node>)
    ensures forall e :: e in KeepEdges(edges, nodes) && HasId(nodes, e.source) ==>
      FindNode(KeepUnselected(nodes), e.source) == FindNode(nodes, e.source)
    ensures forall e :: e in KeepEdges(edges, nodes) && HasId(nodes, e.target) ==>
      FindNode(KeepUnselected(nodes), e.target) == FindNode(nodes, e.target)
  {
    forall e | e in KeepEdges(edges, nodes) && HasId(nodes, e.source)
      ensures FindNode(KeepUnselected(nodes), e.source) == FindNode(nodes, e.source)
    {
      FindAfterDelete(nodes, e.source);
    }
    forall e | e in KeepEdges(edges, nodes) && HasId(nodes, e.target)
      ensures FindNode(KeepUnselected(nodes), e.target) == FindNode(nodes, e.target)
    {
      FindAfterDelete(nodes, e.target);
    }
  }

  /** With unique ids, every edge touching a selected node is removed. */
  lemma NoEdgeTouchesDeleted(edges: seq<Edge>, nodes: seq<Node>)
    requires UniqueIds(nodes)
    ensures forall e, i :: e in KeepEdges(edges, nodes) && 0 <= i < |nodes| && nodes[i].selected ==>
      e.source != nodes[i].id && e.target != nodes[i].id
  {
    forall e, i | e in KeepEdges(edges, nodes) && 0 <= i < |nodes| && nodes[i].selected
      ensures e.source != nodes[i].id && e.target != nodes[i].id
    {
      FindUnique(nodes, i);
    }
  }

  /** Deletion keeps every edge endpoint resolvable that was resolvable. */
  lemma DeleteKeepsEdgesResolved(edges: seq<Edge>, nodes: seq<Node>)
    requires EdgesResolve(nodes, edges)
    ensures EdgesResolve(KeepUnselected(nodes), KeepEdges(edges, nodes))
  {
    KeptEdgesStillResolve(edges, nodes);
  }

  /** The output settings handed to the generator. */
  datatype Settings = Settings(length: Value, creativity: Value, tone: Value)

  /** What `onGenerate` does: reject, or call the generator once with the
      node's received data and its settings. */
  datatype GenerateOutcome = Rejected | Requested(elements: Snapshot, settings: Settings)

  /** `onGenerate` of output node `id`: rejected when no node has the id or
      its `receivedData` is undefined; otherwise the generator's arguments. */
  function GenerateRequest(nodes: seq<Node>, id: string): (r: GenerateOutcome)
    ensures r.Rejected? <==> !HasId(nodes, id) || FindNode(nodes, id).value.data.received.None?
    ensures r.Requested? ==>
      exists k :: 0 <= k < |nodes| && nodes[k].id == id && (forall j :: 0 <= j < k ==> nodes[j].id != id)
        && nodes[k].data.received == Some(r.elements)
        && r.settings == Settings(Read(nodes[k].data.fields, Length), Read(nodes[k].data.fields, Creativity),
                                  Read(nodes[k].data.fields, Tone))
  {
    match FindNode(nodes, id)
    case None => Rejected
    case Some(n) =>
      match n.data.received
      case None => Rejected
      case Some(elements) =>
        Requested(elements, Settings(Read(n.data.fields, Length), Read(n.data.fields, Creativity),
                                     Read(n.data.fields, Tone)))
  }

  /** A freshly created output node has received nothing, so generating from
      it is rejected. */
  lemma FreshOutputRejected(nodes: seq<Node>, id: string, p: Position)
    requires !HasId(nodes, id)
    ensures GenerateRequest(nodes + [NewNode(id, "output", p)], id) == Rejected
  {
    var all := nodes + [NewNode(id, "output", p)];
    assert all[|nodes|].id == id;
    var k := FindIndex(all, id).value;
    assert k == |nodes|;
  }
}
