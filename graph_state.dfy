/** The graph-state hook: one-hop propagation of a snapshot along outgoing
    edges, edge construction for a new connection, and node-id generation. */
module GraphState {
  import opened GraphTypes

  /** `edges.filter(edge => edge.source === from)`, order kept. */
  function Outgoing(edges: seq<Edge>, from: string): (r: seq<Edge>)
    ensures forall e :: e in r <==> e in edges && e.source == from
    ensures |r| <= |edges|
  {
    if |edges| == 0 then []
    else (if edges[0].source == from then [edges[0]] else []) + Outgoing(edges[1..], from)
  }

  /** `connected.some(edge => id === edge.target)`. */
  function IsTarget(connected: seq<Edge>, id: string): (r: bool)
    ensures r <==> exists e :: e in connected && e.target == id
  {
    if |connected| == 0 then false
    else connected[0].target == id || IsTarget(connected[1..], id)
  }

  /** The graph relation propagation is meant to follow: an edge leads from
      `from` straight to `id`. */
  predicate DirectSuccessor(edges: seq<Edge>, from: string, id: string)
  {
    exists e :: e in edges && e.source == from && e.target == id
  }

  /** A node with its `receivedData` overwritten; nothing else of it changes. */
  function Receive(n: Node, payload: Snapshot): (r: Node)
    ensures r.data.received == Some(payload)
    ensures r.id == n.id && r.nodeType == n.nodeType && r.position == n.position && r.selected == n.selected
    ensures r.data.fields == n.data.fields
  {
    n.(data := n.data.(received := Some(payload)))
  }

  /** The node list after `sendDataToNextNodes(from, payload)`: every node
      that is the target of an edge leaving `from` gets `payload` as its
      `receivedData`. */
  function Propagate(nodes: seq<Node>, edges: seq<Edge>, from: string, payload: Snapshot): (r: seq<Node>)
    ensures |r| == |nodes|
    ensures forall i :: 0 <= i < |nodes| ==>
      && r[i].id == nodes[i].id && r[i].nodeType == nodes[i].nodeType
      && r[i].position == nodes[i].position && r[i].selected == nodes[i].selected
      && r[i].data.fields == nodes[i].data.fields
    ensures forall i :: 0 <= i < |nodes| ==>
      r[i].data.received == if DirectSuccessor(edges, from, nodes[i].id) then Some(payload) else nodes[i].data.received
    ensures forall i :: 0 <= i < |nodes| && !DirectSuccessor(edges, from, nodes[i].id) ==> r[i] == nodes[i]
  {
    var connected := Outgoing(edges, from);
    seq(|nodes|, i requires 0 <= i < |nodes| =>
      if IsTarget(connected, nodes[i].id) then Receive(nodes[i], payload) else nodes[i])
  }

  /** Two lists that agree on every field of every node are equal. */
  lemma NodesEqual(a: seq<Node>, b: seq<Node>)
    requires |a| == |b|
    requires forall i :: 0 <= i < |a| ==>
      && a[i].id == b[i].id && a[i].nodeType == b[i].nodeType
      && a[i].position == b[i].position && a[i].selected == b[i].selected
      && a[i].data == b[i].data
    ensures a == b
  {
    forall i | 0 <= i < |a| ensures a[i] == b[i] {
    }
  }

  /** Without an edge leaving `from` the send is a no-op, not an error. */
  lemma NoOutgoingIsNoop(nodes: seq<Node>, edges: seq<Edge>, from: string, payload: Snapshot)
    requires Outgoing(edges, from) == []
    ensures Propagate(nodes, edges, from, payload) == nodes
  {
  }

  /** Sending the same snapshot twice gives the same nodes as sending it once. */
  lemma PropagateIdempotent(nodes: seq<Node>, edges: seq<Edge>, from: string, payload: Snapshot)
    ensures Propagate(Propagate(nodes, edges, from, payload), edges, from, payload)
         == Propagate(nodes, edges, from, payload)
  {
    var once := Propagate(nodes, edges, from, payload);
    NodesEqual(Propagate(once, edges, from, payload), once);
  }

  /** A second send from the same node overwrites the first one's snapshot
      everywhere: the last writer wins and nothing is merged. */
  lemma LastWriterWins(nodes: seq<Node>, edges: seq<Edge>, from: string, first: Snapshot, second: Snapshot)
    ensures Propagate(Propagate(nodes, edges, from, first), edges, from, second)
         == Propagate(nodes, edges, from, second)
  {
    NodesEqual(Propagate(Propagate(nodes, edges, from, first), edges, from, second),
               Propagate(nodes, edges, from, second));
  }

  /** Several edges between the same two nodes deliver once: a further copy of
      an existing edge changes nothing. */
  lemma DuplicateEdgeWritesOnce(nodes: seq<Node>, edges: seq<Edge>, e: Edge, from: string, payload: Snapshot)
    requires e in edges
    ensures Propagate(nodes, edges + [e], from, payload) == Propagate(nodes, edges, from, payload)
  {
    forall id ensures DirectSuccessor(edges + [e], from, id) == DirectSuccessor(edges, from, id) {
      if DirectSuccessor(edges + [e], from, id) {
        var d :| d in edges + [e] && d.source == from && d.target == id;
        assert d in edges;
      }
    }
    NodesEqual(Propagate(nodes, edges + [e], from, payload), Propagate(nodes, edges, from, payload));
  }

  /** Propagation stops after one hop: on a chain `from` -> `mid` -> `t` with
      no edge from `from` to `t`, a send from `from` leaves `t` as it was, and
      only a later send from `mid` itself reaches `t`. */
  lemma OneHopOnly(nodes: seq<Node>, edges: seq<Edge>, from: string, mid: string, i: nat,
                   payload: Snapshot, forwarded: Snapshot)
    requires i < |nodes| && DirectSuccessor(edges, from, mid) && DirectSuccessor(edges, mid, nodes[i].id)
    requires !DirectSuccessor(edges, from, nodes[i].id)
    ensures Propagate(nodes, edges, from, payload)[i] == nodes[i]
    ensures Propagate(Propagate(nodes, edges, from, payload), edges, mid, forwarded)[i].data.received
         == Some(forwarded)
  {
  }

  /** The connection a drawn edge joins. */
  function ConnectionOf(e: Edge): Connection
  {
    Connection(e.source, e.target, e.sourceHandle, e.targetHandle)
  }

  /** The edge `onConnect` builds: the connection's endpoints and handles
      unchanged, plus drawing attributes only. */
  function MakeEdge(c: Connection): (e: Edge)
    ensures ConnectionOf(e) == c
    ensures e.animated && e.strokeWidth == 2 && e.markerEnd == ArrowClosed("#888")
  {
    Edge(c.source, c.target, c.sourceHandle, c.targetHandle, true, 2, ArrowClosed("#888"))
  }

  predicate IsBase36Digit(c: char)
  {
    '0' <= c <= '9' || 'a' <= c <= 'z'
  }

  /** The text `Math.random().toString(36)` yields for a number in [0, 1):
      "0", or "0." followed by base-36 digits. */
  predicate IsRandomText(s: string)
  {
    s == "0" || (|s| >= 2 && s[..2] == "0." && forall i :: 2 <= i < |s| ==> IsBase36Digit(s[i]))
  }

  /** JavaScript's `s.substr(start, count)` for non-negative arguments. */
  function Substr(s: string, start: nat, count: nat): (r: string)
    ensures |r| <= count
    ensures |r| == if start >= |s| then 0 else if start + count <= |s| then count else |s| - start
    ensures forall k :: 0 <= k < |r| ==> r[k] == s[start + k]
  {
    if start >= |s| then "" else s[start..if start + count <= |s| then start + count else |s|]
  }

  /** `getId()`, given the text of the random number it draws. */
  function GetId(random: string): (id: string)
    ensures 5 <= |id| <= 14 && id[..5] == "node_"
    ensures IsRandomText(random) ==> forall i :: 5 <= i < |id| ==> IsBase36Digit(id[i])
  {
    "node_" + Substr(random, 2, 9)
  }

  /** The id carries the first nine random digits back unchanged. */
  lemma IdTokenRoundTrip(digits: string)
    requires |digits| <= 9
    ensures GetId("0." + digits)[5..] == digits
  {
    assert ("0." + digits)[2..] == digits;
  }

  /** Digits past the ninth are dropped, so distinct random draws can give the
      same id; nothing compares a new id with the ids already present. */
  lemma IdDropsLaterDigits(random: string, more: string)
    requires |random| >= 11
    ensures GetId(random + more) == GetId(random)
  {
    assert (random + more)[2..11] == random[2..11];
  }
}
