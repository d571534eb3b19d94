/** The values held by the story graph: nodes with a type-specific payload and
    the directed edges between them. */
module GraphTypes {

  datatype Option<+T> = None | Some(value: T)

  /** A payload field's value: text editors and selects write strings, the
      creativity slider writes a number; a field the payload lacks reads as
      undefined. */
  datatype Value = Undefined | Text(s: string) | Number(n: int)

  /** The editable payload fields of the five node types. */
  datatype Field = Content | ElementType | Title | StructureType | Description | Length | Creativity | Tone

  /** What one node sends forward: a field name to value mapping. */
  type Snapshot = map<Field, Value>

  /** A node's `data`: its own fields, and `receivedData`, which only
      propagation writes (None stands for undefined). The callbacks the source
      stores next to the fields are operations of the store here. */
  datatype NodeData = NodeData(fields: map<Field, Value>, received: Option<Snapshot>)

  /** Canvas coordinates, taken as integers. */
  datatype Position = Position(x: int, y: int)

  datatype Node = Node(id: string, nodeType: string, position: Position, data: NodeData, selected: bool)

  /** The parameters of a connection gesture. */
  datatype Connection = Connection(source: string, target: string,
                                   sourceHandle: Option<string>, targetHandle: Option<string>)

  datatype Marker = ArrowClosed(color: string)

  /** An edge: the connection it was built from plus its drawing attributes. */
  datatype Edge = Edge(source: string, target: string,
                       sourceHandle: Option<string>, targetHandle: Option<string>,
                       animated: bool, strokeWidth: int, markerEnd: Marker)

  /** `data[f]`, undefined when the payload has no such field. */
  function Read(fields: map<Field, Value>, f: Field): Value
  {
    if f in fields then fields[f] else Undefined
  }

  predicate HasId(nodes: seq<Node>, id: string)
  {
    exists i :: 0 <= i < |nodes| && nodes[i].id == id
  }

  predicate UniqueIds(nodes: seq<Node>)
  {
    forall i, j :: 0 <= i < |nodes| && 0 <= j < |nodes| && nodes[i].id == nodes[j].id ==> i == j
  }

  /** Every edge endpoint names a node of the list. */
  predicate EdgesResolve(nodes: seq<Node>, edges: seq<Edge>)
  {
    forall e :: e in edges ==> HasId(nodes, e.source) && HasId(nodes, e.target)
  }

  /** The position `nodes.find(n => n.id === id)` stops at: the first node
      with that id. */
  function FindIndex(nodes: seq<Node>, id: string): (r: Option<nat>)
    ensures r.Some? ==> r.value < |nodes| && nodes[r.value].id == id
    ensures r.Some? ==> forall j :: 0 <= j < r.value ==> nodes[j].id != id
    ensures r.None? <==> !HasId(nodes, id)
  {
    if |nodes| == 0 then None
    else if nodes[0].id == id then Some(0)
    else match FindIndex(nodes[1..], id)
      case None =>
        assert forall i :: 1 <= i < |nodes| ==> nodes[i] == nodes[1..][i - 1];
        None
      case Some(k) => Some(k + 1)
  }

  /** `nodes.find(n => n.id === id)`. */
  function FindNode(nodes: seq<Node>, id: string): (r: Option<Node>)
    ensures r.Some? <==> HasId(nodes, id)
    ensures r.Some? ==> r.value.id == id && r.value in nodes
    ensures r.Some? ==>
      exists k :: 0 <= k < |nodes| && r.value == nodes[k] && forall j :: 0 <= j < k ==> nodes[j].id != id
  {
    match FindIndex(nodes, id)
    case None => None
    case Some(k) => Some(nodes[k])
  }

  /** With unique ids, looking a node up by its own id finds that node. */
  lemma FindUnique(nodes: seq<Node>, i: nat)
    requires UniqueIds(nodes) && i < |nodes|
    ensures FindNode(nodes, nodes[i].id) == Some(nodes[i])
  {
    var k := FindIndex(nodes, nodes[i].id);
    assert k.Some? && k.value == i;
  }
}
