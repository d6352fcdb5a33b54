/** The editor's graph state and its transitions (src/hooks/useGraphState.ts).
    Each operation of the hook is a pure function from the previous state to
    the next; `GraphModel` holds the current state and applies them, drawing
    fresh identifiers from the one counter (`IdCounter`) that node and
    connection ids share. */
module GraphState {
  import opened Wrappers
  import opened AudioTypes
  import opened Collections
  import opened Decimal
  import opened NodeRegistry

  // ---------------------------------------------------------------------
  // Identifiers
  // ---------------------------------------------------------------------

  /** The id generateId() returns when the counter reads `n`. */
  function NodeIdFor(n: nat): string {
    "node_" + NatToString(n)
  }

  /** The id generateConnectionId() returns when the counter reads `n`. */
  function ConnIdFor(n: nat): string {
    "conn_" + NatToString(n)
  }

  /** A node id and a connection id never coincide, and each kind of id
      determines the counter value it was made from. */
  lemma GeneratedIdsDistinct(m: nat, n: nat)
    ensures NodeIdFor(m) != ConnIdFor(n)
    ensures NodeIdFor(m) == NodeIdFor(n) ==> m == n
    ensures ConnIdFor(m) == ConnIdFor(n) ==> m == n
  {
    assert NodeIdFor(m)[0] == 'n' && ConnIdFor(n)[0] == 'c';
    if NodeIdFor(m) == NodeIdFor(n) {
      assert NodeIdFor(m)[5..] == NatToString(m);
      assert NodeIdFor(n)[5..] == NatToString(n);
      NatToStringInjective(m, n);
    }
    if ConnIdFor(m) == ConnIdFor(n) {
      assert ConnIdFor(m)[5..] == NatToString(m);
      assert ConnIdFor(n)[5..] == NatToString(n);
      NatToStringInjective(m, n);
    }
  }

  /** Every id generated from the counter values in `used`. */
  ghost function IssuedIds(used: set<nat>): set<string> {
    (set m | m in used :: NodeIdFor(m)) + (set m | m in used :: ConnIdFor(m))
  }

  /** The module-level counter `nextId`, shared by node and connection ids.
      `issued` records every counter value handed out so far. */
  class IdCounter {
    var next: nat
    ghost var issued: set<nat>

    ghost predicate Valid()
      reads this
    {
      next >= 1 && forall m :: m in issued ==> m < next
    }

    constructor ()
      ensures Valid() && next == 1 && issued == {}
    {
      next := 1;
      issued := {};
    }

    /** generateId: `node_<n>` for the current value n, then increments. The
        id differs from every id handed out before. */
    method GenerateId() returns (id: string)
      requires Valid()
      modifies this
      ensures Valid()
      ensures id == NodeIdFor(old(next)) && next == old(next) + 1
      ensures issued == old(issued) + {old(next)}
      ensures id !in IssuedIds(old(issued))
    {
      id := NodeIdFor(next);
      forall m | m in issued ensures NodeIdFor(m) != id && ConnIdFor(m) != id {
        GeneratedIdsDistinct(m, next);
        GeneratedIdsDistinct(next, m);
      }
      issued := issued + {next};
      next := next + 1;
    }

    /** generateConnectionId: `conn_<n>` for the current value n, then
        increments. The id differs from every id handed out before. */
    method GenerateConnectionId() returns (id: string)
      requires Valid()
      modifies this
      ensures Valid()
      ensures id == ConnIdFor(old(next)) && next == old(next) + 1
      ensures issued == old(issued) + {old(next)}
      ensures id !in IssuedIds(old(issued))
    {
      id := ConnIdFor(next);
      forall m | m in issued ensures NodeIdFor(m) != id && ConnIdFor(m) != id {
        GeneratedIdsDistinct(m, next);
        GeneratedIdsDistinct(next, m);
      }
      issued := issued + {next};
      next := next + 1;
    }
  }

  // ---------------------------------------------------------------------
  // The state and its invariants
  // ---------------------------------------------------------------------

  /** INITIAL_STATE: the destination alone, nothing selected, not playing. */
  const InitialState: AppState :=
    AppState(
      [GraphNode("destination_0", Destination, Position(600.0, 250.0), map[])],
      [], false, None, Position(0.0, 0.0), 1.0)

  const MinZoom: real := 0.25
  const MaxZoom: real := 2.0

  function NodeIds(ns: seq<GraphNode>): set<string> {
    set n | n in ns :: n.id
  }

  function ConnectionIds(cs: seq<Connection>): set<string> {
    set c | c in cs :: c.id
  }

  predicate UniqueNodeIds(ns: seq<GraphNode>) {
    forall i, j :: 0 <= i < j < |ns| ==> ns[i].id != ns[j].id
  }

  predicate UniqueConnectionIds(cs: seq<Connection>) {
    forall i, j :: 0 <= i < j < |cs| ==> cs[i].id != cs[j].id
  }

  /** No two connections share the (from node, from port, to node, to port)
      quadruple. */
  predicate UniqueLinks(cs: seq<Connection>) {
    forall i, j :: 0 <= i < j < |cs| ==> cs[i].from != cs[j].from || cs[i].to != cs[j].to
  }

  /** Every connection endpoint names a node of the graph. */
  predicate EndpointsExist(ns: seq<GraphNode>, cs: seq<Connection>) {
    forall c :: c in cs ==> c.from.nodeId in NodeIds(ns) && c.to.nodeId in NodeIds(ns)
  }

  /** The integrity the graph is meant to keep: unique ids, no dangling
      connection, no duplicate quadruple. */
  predicate GraphConsistent(ns: seq<GraphNode>, cs: seq<Connection>) {
    && UniqueNodeIds(ns)
    && UniqueConnectionIds(cs)
    && UniqueLinks(cs)
    && EndpointsExist(ns, cs)
  }

  /** The whole state's invariant: a consistent graph, a selection that is
      none or an existing node, and a zoom within bounds. */
  predicate Consistent(s: AppState) {
    && GraphConsistent(s.nodes, s.connections)
    && (s.selectedNodeId.Some? ==> s.selectedNodeId.value in NodeIds(s.nodes))
    && MinZoom <= s.zoom <= MaxZoom
  }

  lemma InitialStateConsistent()
    ensures Consistent(InitialState)
  {
  }

  // ---------------------------------------------------------------------
  // addNode
  // ---------------------------------------------------------------------

  /** addNode's transition: appends a node with the given id, type and
      position and the type's default parameters. */
  function NodeAdded(s: AppState, id: string, t: NodeType, pos: Position): (r: AppState)
    ensures |r.nodes| == |s.nodes| + 1 && r.nodes[..|s.nodes|] == s.nodes
    ensures r.nodes[|s.nodes|] == GraphNode(id, t, pos, DefaultParams(t))
    ensures r.connections == s.connections && r.selectedNodeId == s.selectedNodeId
    ensures r.isPlaying == s.isPlaying && r.canvasOffset == s.canvasOffset && r.zoom == s.zoom
  {
    s.(nodes := s.nodes + [GraphNode(id, t, pos, DefaultParams(t))])
  }

  /** The added node carries exactly its type's declared keys, each with its
      declared default. */
  lemma AddedNodeHasDefaults(s: AppState, id: string, t: NodeType, pos: Position)
    ensures var n := NodeAdded(s, id, t, pos).nodes[|s.nodes|];
      && n.params.Keys == ParamKeys(t)
      && forall p :: p in Registry(t).params ==> n.params[p.key] == p.defaultValue
  {
    DefaultParamsExact(t);
  }

  /** Adding a node under an id not already used keeps the state consistent. */
  lemma NodeAddedConsistent(s: AppState, id: string, t: NodeType, pos: Position)
    requires Consistent(s) && id !in NodeIds(s.nodes)
    ensures Consistent(NodeAdded(s, id, t, pos))
  {
    var r := NodeAdded(s, id, t, pos);
    assert NodeIds(r.nodes) == NodeIds(s.nodes) + {id};
    forall i, j | 0 <= i < j < |r.nodes| ensures r.nodes[i].id != r.nodes[j].id {
      if j == |s.nodes| {
        assert s.nodes[i] in s.nodes;
      }
    }
  }

  // ---------------------------------------------------------------------
  // removeNode
  // ---------------------------------------------------------------------

  function IdIsNot(id: string): GraphNode -> bool {
    (n: GraphNode) => n.id != id
  }

  function DoesNotTouch(id: string): Connection -> bool {
    (c: Connection) => c.from.nodeId != id && c.to.nodeId != id
  }

  /** removeNode's transition: drops the node, every connection touching it,
      and the selection if it was that node. */
  function NodeRemoved(s: AppState, id: string): (r: AppState)
    ensures id !in NodeIds(r.nodes)
    ensures forall c :: c in r.connections ==> c.from.nodeId != id && c.to.nodeId != id
    ensures r.selectedNodeId != Some(id)
    ensures s.selectedNodeId != Some(id) ==> r.selectedNodeId == s.selectedNodeId
    ensures r.isPlaying == s.isPlaying && r.canvasOffset == s.canvasOffset && r.zoom == s.zoom
  {
    var r := s.(nodes := Filter(s.nodes, IdIsNot(id)),
                connections := Filter(s.connections, DoesNotTouch(id)),
                selectedNodeId := if s.selectedNodeId == Some(id) then None else s.selectedNodeId);
    assert forall n :: n in r.nodes ==> IdIsNot(id)(n);
    assert forall c :: c in r.connections ==> DoesNotTouch(id)(c);
    r
  }

  /** Exactly the other nodes and the connections not touching the node
      survive, in their previous relative order. */
  lemma NodeRemovedKeepsTheRest(s: AppState, id: string)
    ensures forall n :: n in NodeRemoved(s, id).nodes <==> n in s.nodes && n.id != id
    ensures forall c :: c in NodeRemoved(s, id).connections <==>
      c in s.connections && c.from.nodeId != id && c.to.nodeId != id
    ensures IsSubsequence(NodeRemoved(s, id).nodes, s.nodes)
    ensures IsSubsequence(NodeRemoved(s, id).connections, s.connections)
  {
    FilterMembership(s.nodes, IdIsNot(id));
    FilterMembership(s.connections, DoesNotTouch(id));
    FilterIsSubsequence(s.nodes, IdIsNot(id));
    FilterIsSubsequence(s.connections, DoesNotTouch(id));
  }

  /** Removing an absent node that no connection and no selection refers
      to changes nothing (in a consistent state that is every absent node). */
  lemma NodeRemovedAbsent(s: AppState, id: string)
    requires id !in NodeIds(s.nodes) && s.selectedNodeId != Some(id)
    requires forall c :: c in s.connections ==> c.from.nodeId != id && c.to.nodeId != id
    ensures NodeRemoved(s, id) == s
  {
    forall i | 0 <= i < |s.nodes| ensures IdIsNot(id)(s.nodes[i]) {
      assert s.nodes[i] in s.nodes;
    }
    forall i | 0 <= i < |s.connections| ensures DoesNotTouch(id)(s.connections[i]) {
      assert s.connections[i] in s.connections;
    }
    FilterKeepsAll(s.nodes, IdIsNot(id));
    FilterKeepsAll(s.connections, DoesNotTouch(id));
  }

  /** A subsequence of a sequence without repeated keys has none either. */
  lemma {:induction false} SubsequenceKeepsUniqueNodeIds(r: seq<GraphNode>, s: seq<GraphNode>)
    requires IsSubsequence(r, s) && UniqueNodeIds(s)
    ensures UniqueNodeIds(r)
    decreases |s|
  {
    if r != [] && s != [] {
      if r[0] == s[0] {
        SubsequenceKeepsUniqueNodeIds(r[1..], s[1..]);
        SubsequenceMembers(r[1..], s[1..]);
        forall j | 0 < j < |r| ensures r[0].id != r[j].id {
          assert r[j] == r[1..][j - 1] && r[1..][j - 1] in r[1..];
          var k :| 0 <= k < |s[1..]| && s[1..][k] == r[j];
          assert s[k + 1] == r[j];
        }
      } else {
        SubsequenceKeepsUniqueNodeIds(r, s[1..]);
      }
    }
  }

  /** Same for connection ids and quadruples. */
  lemma {:induction false} SubsequenceKeepsUniqueConnections(r: seq<Connection>, s: seq<Connection>)
    requires IsSubsequence(r, s) && UniqueConnectionIds(s) && UniqueLinks(s)
    ensures UniqueConnectionIds(r) && UniqueLinks(r)
    decreases |s|
  {
    if r != [] && s != [] {
      if r[0] == s[0] {
        SubsequenceKeepsUniqueConnections(r[1..], s[1..]);
        SubsequenceMembers(r[1..], s[1..]);
        forall j | 0 < j < |r|
          ensures r[0].id != r[j].id && (r[0].from != r[j].from || r[0].to != r[j].to)
        {
          assert r[j] == r[1..][j - 1] && r[1..][j - 1] in r[1..];
          var k :| 0 <= k < |s[1..]| && s[1..][k] == r[j];
          assert s[k + 1] == r[j];
        }
      } else {
        SubsequenceKeepsUniqueConnections(r, s[1..]);
      }
    }
  }

  /** Every element of a subsequence is an element of the sequence. */
  lemma {:induction false} SubsequenceMembers<T>(r: seq<T>, s: seq<T>)
    requires IsSubsequence(r, s)
    ensures forall x :: x in r ==> x in s
    decreases |s|
  {
    if r != [] && s != [] {
      if r[0] == s[0] {
        SubsequenceMembers(r[1..], s[1..]);
        assert r == [r[0]] + r[1..];
      } else {
        SubsequenceMembers(r, s[1..]);
      }
    }
  }

  /** Removing a node keeps the state consistent: the cascade leaves no
      dangling connection and the selection never names the removed node. */
  lemma NodeRemovedConsistent(s: AppState, id: string)
    requires Consistent(s)
    ensures Consistent(NodeRemoved(s, id))
  {
    var r := NodeRemoved(s, id);
    NodeRemovedKeepsTheRest(s, id);
    SubsequenceKeepsUniqueNodeIds(r.nodes, s.nodes);
    SubsequenceKeepsUniqueConnections(r.connections, s.connections);
    forall c | c in r.connections
      ensures c.from.nodeId in NodeIds(r.nodes) && c.to.nodeId in NodeIds(r.nodes)
    {
      var a :| a in s.nodes && a.id == c.from.nodeId;
      var b :| b in s.nodes && b.id == c.to.nodeId;
      assert a in r.nodes && b in r.nodes;
    }
    if r.selectedNodeId.Some? {
      var a :| a in s.nodes && a.id == r.selectedNodeId.value;
      assert a in r.nodes;
    }
  }

  // ---------------------------------------------------------------------
  // moveNode and updateParam
  // ---------------------------------------------------------------------

  /** moveNode's transition: only the position of the nodes with that id
      changes. */
  function NodeMoved(s: AppState, id: string, pos: Position): (r: AppState)
    ensures |r.nodes| == |s.nodes|
    ensures forall i :: 0 <= i < |s.nodes| ==>
      && r.nodes[i].id == s.nodes[i].id
      && r.nodes[i].nodeType == s.nodes[i].nodeType
      && r.nodes[i].params == s.nodes[i].params
      && r.nodes[i].position == (if s.nodes[i].id == id then pos else s.nodes[i].position)
    ensures r.connections == s.connections && r.selectedNodeId == s.selectedNodeId
    ensures r.isPlaying == s.isPlaying && r.canvasOffset == s.canvasOffset && r.zoom == s.zoom
  {
    s.(nodes := seq(|s.nodes|, i requires 0 <= i < |s.nodes| =>
                      if s.nodes[i].id == id then s.nodes[i].(position := pos) else s.nodes[i]))
  }

  /** updateParam's transition: sets `params[key]` on the nodes with that id,
      whatever the schema says; nothing else changes. */
  function ParamUpdated(s: AppState, id: string, key: string, value: ParamValue): (r: AppState)
    ensures |r.nodes| == |s.nodes|
    ensures forall i :: 0 <= i < |s.nodes| ==>
      && r.nodes[i].id == s.nodes[i].id
      && r.nodes[i].nodeType == s.nodes[i].nodeType
      && r.nodes[i].position == s.nodes[i].position
      && (s.nodes[i].id != id ==> r.nodes[i].params == s.nodes[i].params)
    ensures forall i :: 0 <= i < |s.nodes| && s.nodes[i].id == id ==>
      && r.nodes[i].params.Keys == s.nodes[i].params.Keys + {key}
      && r.nodes[i].params[key] == value
      && forall k :: k in s.nodes[i].params && k != key ==> r.nodes[i].params[k] == s.nodes[i].params[k]
    ensures r.connections == s.connections && r.selectedNodeId == s.selectedNodeId
    ensures r.isPlaying == s.isPlaying && r.canvasOffset == s.canvasOffset && r.zoom == s.zoom
  {
    s.(nodes := seq(|s.nodes|, i requires 0 <= i < |s.nodes| =>
                      if s.nodes[i].id == id
                      then s.nodes[i].(params := s.nodes[i].params[key := value])
                      else s.nodes[i]))
  }

  /** Two node lists with the same ids at the same positions. */
  predicate SameIds(a: seq<GraphNode>, b: seq<GraphNode>) {
    |a| == |b| && forall i :: 0 <= i < |a| ==> a[i].id == b[i].id
  }

  lemma SameIdsConsistent(s: AppState, r: AppState)
    requires Consistent(s) && SameIds(s.nodes, r.nodes)
    requires r.connections == s.connections && r.selectedNodeId == s.selectedNodeId && r.zoom == s.zoom
    ensures Consistent(r)
  {
    assert NodeIds(r.nodes) == NodeIds(s.nodes) by {
      forall x | x in NodeIds(s.nodes) ensures x in NodeIds(r.nodes) {
        var n :| n in s.nodes && n.id == x;
        var i :| 0 <= i < |s.nodes| && s.nodes[i] == n;
        assert r.nodes[i] in r.nodes;
      }
      forall x | x in NodeIds(r.nodes) ensures x in NodeIds(s.nodes) {
        var n :| n in r.nodes && n.id == x;
        var i :| 0 <= i < |r.nodes| && r.nodes[i] == n;
        assert s.nodes[i] in s.nodes;
      }
    }
  }

  /** Moving a node or editing a parameter keeps the state consistent. */
  lemma EditsConsistent(s: AppState, id: string, pos: Position, key: string, value: ParamValue)
    requires Consistent(s)
    ensures Consistent(NodeMoved(s, id, pos))
    ensures Consistent(ParamUpdated(s, id, key, value))
  {
    SameIdsConsistent(s, NodeMoved(s, id, pos));
    SameIdsConsistent(s, ParamUpdated(s, id, key, value));
  }

  // ---------------------------------------------------------------------
  // addConnection and removeConnection
  // ---------------------------------------------------------------------

  /** Some connection already joins `from` to `to` (same quadruple). */
  predicate HasLink(cs: seq<Connection>, from: Endpoint, to: Endpoint) {
    exists c :: c in cs && c.from == from && c.to == to
  }

  /** How many connections join `from` to `to`. */
  function LinkCount(cs: seq<Connection>, from: Endpoint, to: Endpoint): (k: nat)
    ensures k > 0 <==> HasLink(cs, from, to)
    decreases |cs|
  {
    if cs == [] then 0
    else
      assert forall c :: c in cs <==> c == cs[0] || c in cs[1..];
      (if cs[0].from == from && cs[0].to == to then 1 else 0) + LinkCount(cs[1..], from, to)
  }

  lemma {:induction false} LinkCountAppend(cs: seq<Connection>, c: Connection, from: Endpoint, to: Endpoint)
    ensures LinkCount(cs + [c], from, to)
         == LinkCount(cs, from, to) + (if c.from == from && c.to == to then 1 else 0)
    decreases |cs|
  {
    if cs == [] {
      assert (cs + [c])[1..] == [];
    } else {
      assert (cs + [c])[1..] == cs[1..] + [c];
      LinkCountAppend(cs[1..], c, from, to);
    }
  }

  /** addConnection's transition: appends a connection under `id` unless one
      with the same quadruple exists. Endpoints are not validated. */
  function ConnectionAdded(s: AppState, from: Endpoint, to: Endpoint, id: string): (r: AppState)
    ensures HasLink(s.connections, from, to) ==> r == s
    ensures !HasLink(s.connections, from, to) ==>
      r.connections == s.connections + [Connection(id, from, to)]
    ensures r.nodes == s.nodes && r.selectedNodeId == s.selectedNodeId
    ensures r.isPlaying == s.isPlaying && r.canvasOffset == s.canvasOffset && r.zoom == s.zoom
  {
    if HasLink(s.connections, from, to) then s
    else s.(connections := s.connections + [Connection(id, from, to)])
  }

  /** Adding the same quadruple twice is the same as adding it once. */
  lemma ConnectionAddedIdempotent(s: AppState, from: Endpoint, to: Endpoint, id1: string, id2: string)
    ensures ConnectionAdded(ConnectionAdded(s, from, to, id1), from, to, id2)
         == ConnectionAdded(s, from, to, id1)
  {
    var r := ConnectionAdded(s, from, to, id1);
    if !HasLink(s.connections, from, to) {
      assert Connection(id1, from, to) in r.connections;
    }
  }

  /** Afterwards exactly one connection joins the two endpoints, provided
      there was at most one before. */
  lemma ConnectionAddedLinksOnce(s: AppState, from: Endpoint, to: Endpoint, id: string)
    requires LinkCount(s.connections, from, to) <= 1
    ensures LinkCount(ConnectionAdded(s, from, to, id).connections, from, to) == 1
  {
    if !HasLink(s.connections, from, to) {
      LinkCountAppend(s.connections, Connection(id, from, to), from, to);
    }
  }

  /** Adding a connection between existing nodes under an unused id keeps the
      state consistent. */
  lemma ConnectionAddedConsistent(s: AppState, from: Endpoint, to: Endpoint, id: string)
    requires Consistent(s)
    requires from.nodeId in NodeIds(s.nodes) && to.nodeId in NodeIds(s.nodes)
    requires id !in ConnectionIds(s.connections)
    ensures Consistent(ConnectionAdded(s, from, to, id))
  {
    var r := ConnectionAdded(s, from, to, id);
    if !HasLink(s.connections, from, to) {
      var cs := r.connections;
      forall i, j | 0 <= i < j < |cs|
        ensures cs[i].id != cs[j].id && (cs[i].from != cs[j].from || cs[i].to != cs[j].to)
      {
        if j == |s.connections| {
          assert cs[i] in s.connections;
        }
      }
    }
  }

  function IsNotConnection(id: string): Connection -> bool {
    (c: Connection) => c.id != id
  }

  /** removeConnection's transition: drops the connections with that id. */
  function ConnectionRemoved(s: AppState, id: string): (r: AppState)
    ensures id !in ConnectionIds(r.connections)
    ensures r.nodes == s.nodes && r.selectedNodeId == s.selectedNodeId
    ensures r.isPlaying == s.isPlaying && r.canvasOffset == s.canvasOffset && r.zoom == s.zoom
  {
    var r := s.(connections := Filter(s.connections, IsNotConnection(id)));
    assert forall c :: c in r.connections ==> IsNotConnection(id)(c);
    r
  }

  /** Exactly the connections with another id survive, in order; an unknown
      id changes nothing; consistency is kept. */
  lemma ConnectionRemovedExactly(s: AppState, id: string)
    ensures forall c :: c in ConnectionRemoved(s, id).connections <==> c in s.connections && c.id != id
    ensures IsSubsequence(ConnectionRemoved(s, id).connections, s.connections)
    ensures id !in ConnectionIds(s.connections) ==> ConnectionRemoved(s, id) == s
    ensures Consistent(s) ==> Consistent(ConnectionRemoved(s, id))
  {
    var r := ConnectionRemoved(s, id);
    FilterMembership(s.connections, IsNotConnection(id));
    FilterIsSubsequence(s.connections, IsNotConnection(id));
    if id !in ConnectionIds(s.connections) {
      forall i | 0 <= i < |s.connections| ensures IsNotConnection(id)(s.connections[i]) {
        assert s.connections[i] in s.connections;
      }
      FilterKeepsAll(s.connections, IsNotConnection(id));
    }
    if Consistent(s) {
      SubsequenceKeepsUniqueConnections(r.connections, s.connections);
    }
  }

  // ---------------------------------------------------------------------
  // setZoom, loadPreset, and the flag and view setters
  // ---------------------------------------------------------------------

  /** The zoom setZoom stores: max(0.25, min(2, z)). */
  function ClampZoom(z: real): (r: real)
    ensures MinZoom <= r <= MaxZoom
    ensures MinZoom <= z <= MaxZoom ==> r == z
    ensures z < MinZoom ==> r == MinZoom
    ensures z > MaxZoom ==> r == MaxZoom
  {
    var capped := if z < MaxZoom then z else MaxZoom;
    if capped > MinZoom then capped else MinZoom
  }

  function ZoomSet(s: AppState, z: real): AppState {
    s.(zoom := ClampZoom(z))
  }

  function PlayingSet(s: AppState, playing: bool): AppState {
    s.(isPlaying := playing)
  }

  function NodeSelected(s: AppState, id: Option<string>): AppState {
    s.(selectedNodeId := id)
  }

  function OffsetSet(s: AppState, offset: Position): AppState {
    s.(canvasOffset := offset)
  }

  /** loadPreset's transition: replaces nodes and connections wholesale,
      stops playing, clears the selection, keeps offset and zoom. */
  function PresetLoaded(s: AppState, nodes: seq<GraphNode>, connections: seq<Connection>): (r: AppState)
    ensures r.nodes == nodes && r.connections == connections
    ensures !r.isPlaying && r.selectedNodeId == None
    ensures r.canvasOffset == s.canvasOffset && r.zoom == s.zoom
  {
    s.(nodes := nodes, connections := connections, isPlaying := false, selectedNodeId := None)
  }

  /** The view and flag setters keep the state consistent: zoom is clamped,
      and selecting an existing node (or none) is allowed. Loading a
      consistent graph does too. */
  lemma SettersConsistent(s: AppState, z: real, playing: bool, offset: Position, sel: Option<string>,
                          nodes: seq<GraphNode>, connections: seq<Connection>)
    requires Consistent(s)
    ensures Consistent(ZoomSet(s, z))
    ensures Consistent(PlayingSet(s, playing))
    ensures Consistent(OffsetSet(s, offset))
    ensures (sel.Some? ==> sel.value in NodeIds(s.nodes)) ==> Consistent(NodeSelected(s, sel))
    ensures GraphConsistent(nodes, connections) ==> Consistent(PresetLoaded(s, nodes, connections))
  {
  }

  // ---------------------------------------------------------------------
  // The stateful hook
  // ---------------------------------------------------------------------

  /** useGraphState: the current state plus the shared id counter. */
  class GraphModel {
    var state: AppState
    const ids: IdCounter

    ghost predicate Valid()
      reads this, ids
    {
      ids.Valid()
    }

    constructor (counter: IdCounter)
      requires counter.Valid()
      ensures Valid() && ids == counter && state == InitialState
    {
      ids := counter;
      state := InitialState;
    }

    /** addNode: draws a fresh node id, appends the node with default
        parameters and returns the id. */
    method AddNode(t: NodeType, pos: Position) returns (id: string)
      requires Valid()
      modifies this, ids
      ensures Valid()
      ensures id == NodeIdFor(old(ids.next)) && id !in IssuedIds(old(ids.issued))
      ensures ids.issued == old(ids.issued) + {old(ids.next)}
      ensures state == NodeAdded(old(state), id, t, pos)
    {
      id := ids.GenerateId();
      var params := GetDefaultParams(t);
      state := state.(nodes := state.nodes + [GraphNode(id, t, pos, params)]);
    }

    method RemoveNode(id: string)
      requires Valid()
      modifies this
      ensures Valid() && state == NodeRemoved(old(state), id)
    {
      state := NodeRemoved(state, id);
    }

    method MoveNode(id: string, pos: Position)
      requires Valid()
      modifies this
      ensures Valid() && state == NodeMoved(old(state), id, pos)
    {
      state := NodeMoved(state, id, pos);
    }

    /** addConnection: the counter advances only when a connection is
        actually appended. */
    method AddConnection(from: Endpoint, to: Endpoint)
      requires Valid()
      modifies this, ids
      ensures Valid()
      ensures HasLink(old(state).connections, from, to) ==>
        state == old(state) && ids.next == old(ids.next) && ids.issued == old(ids.issued)
      ensures !HasLink(old(state).connections, from, to) ==>
        && ConnIdFor(old(ids.next)) !in IssuedIds(old(ids.issued))
        && ids.issued == old(ids.issued) + {old(ids.next)}
        && state == ConnectionAdded(old(state), from, to, ConnIdFor(old(ids.next)))
    {
      if !HasLink(state.connections, from, to) {
        var id := ids.GenerateConnectionId();
        state := ConnectionAdded(state, from, to, id);
      }
    }

    method RemoveConnection(id: string)
      requires Valid()
      modifies this
      ensures Valid() && state == ConnectionRemoved(old(state), id)
    {
      state := ConnectionRemoved(state, id);
    }

    method UpdateParam(id: string, key: string, value: ParamValue)
      requires Valid()
      modifies this
      ensures Valid() && state == ParamUpdated(old(state), id, key, value)
    {
      state := ParamUpdated(state, id, key, value);
    }

    method SetPlaying(playing: bool)
      requires Valid()
      modifies this
      ensures Valid() && state == old(state).(isPlaying := playing)
    {
      state := PlayingSet(state, playing);
    }

    method SelectNode(id: Option<string>)
      requires Valid()
      modifies this
      ensures Valid() && state == old(state).(selectedNodeId := id)
    {
      state := NodeSelected(state, id);
    }

    method SetCanvasOffset(offset: Position)
      requires Valid()
      modifies this
      ensures Valid() && state == old(state).(canvasOffset := offset)
    {
      state := OffsetSet(state, offset);
    }

    method SetZoom(z: real)
      requires Valid()
      modifies this
      ensures Valid() && state == old(state).(zoom := ClampZoom(z))
      ensures MinZoom <= state.zoom <= MaxZoom
    {
      state := ZoomSet(state, z);
    }

    method LoadPreset(nodes: seq<GraphNode>, connections: seq<Connection>)
      requires Valid()
      modifies this
      ensures Valid() && state == PresetLoaded(old(state), nodes, connections)
    {
      state := PresetLoaded(state, nodes, connections);
    }
  }
}
