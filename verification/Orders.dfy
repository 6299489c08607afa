/** From lanes to orders: the graph built from the lanes, and the VDA 5050 order built
    from a path through it (VDA 5050 version 2.0.0, sections 6.6.1 and 6.6.2). Headings,
    speeds and descriptions are not part of this model. */
module Orders {
  import opened Models
  import opened ShortestPaths

  /** One entry of the lane dictionary, in insertion order. */
  datatype Lane = Lane(name: int, start: NodeId, end: NodeId)

  /** The name of a lane, or one made up from the two nodes if there is no lane. */
  datatype EdgeName = Named(name: int) | MadeUp(start: NodeId, end: NodeId)

  datatype OrderNode = OrderNode(node: NodeId, sequence: int, released: bool, positioned: bool)

  datatype OrderEdge = OrderEdge(name: EdgeName, sequence: int, released: bool, start: NodeId, end: NodeId)

  datatype Built = Built(nodes: seq<OrderNode>, edges: seq<OrderEdge>) | Refused(error: Error)

  // ----- The graph of the lanes -------------------------------------------------------------

  predicate Usable(nodes: set<NodeId>, lane: Lane) {
    lane.start in nodes && lane.end in nodes
  }

  /** The arc is one of the usable lanes, at its length. */
  ghost predicate FromLane(nodes: set<NodeId>, lanes: seq<Lane>, distance: (NodeId, NodeId) -> real, u: NodeId, a: Arc) {
    exists i :: 0 <= i < |lanes| && IsArcOf(nodes, lanes[i], distance, u, a)
  }

  predicate IsArcOf(nodes: set<NodeId>, lane: Lane, distance: (NodeId, NodeId) -> real, u: NodeId, a: Arc) {
    Usable(nodes, lane) && lane.start == u && a == Arc(lane.end, distance(u, lane.end))
  }

  /** The arcs are the lanes between known nodes, and the nodes are their ends. */
  ghost predicate GraphOf(
    adj: Adjacency, edges: set<(NodeId, NodeId)>, nodes: set<NodeId>, lanes: seq<Lane>, distance: (NodeId, NodeId) -> real)
  {
    && (forall u, a :: u in adj && a in adj[u] <==> FromLane(nodes, lanes, distance, u, a))
    && (forall u :: u in adj <==> Touched(nodes, lanes, u))
    && (forall u, v :: (u, v) in edges <==> Joins(nodes, lanes, u, v))
  }

  predicate Touches(nodes: set<NodeId>, lane: Lane, u: NodeId) {
    Usable(nodes, lane) && (lane.start == u || lane.end == u)
  }

  method BuildGraph(nodes: set<NodeId>, lanes: seq<Lane>, distance: (NodeId, NodeId) -> real)
    returns (graph: DirectedGraph)
    requires forall a, b :: distance(a, b) >= 0.0
    ensures fresh(graph) && graph.Valid() && GraphOf(graph.adjacency, graph.edges, nodes, lanes, distance)
  {
    graph := new DirectedGraph();
    for i := 0 to |lanes|
      invariant fresh(graph) && graph.Valid()
      invariant GraphOf(graph.adjacency, graph.edges, nodes, lanes[..i], distance)
    {
      var lane := lanes[i];
      assert lanes[..i + 1] == lanes[..i] + [lane];
      ghost var adj, edges := graph.adjacency, graph.edges;
      if Usable(nodes, lane) {
        graph.AddEdge(lane.start, lane.end, distance(lane.start, lane.end));
        GraphGrows(adj, edges, graph.adjacency, graph.edges, nodes, lanes[..i], distance, lane);
      } else {
        GraphStays(adj, edges, nodes, lanes[..i], distance, lane);
      }
    }
    assert lanes[..|lanes|] == lanes;
  }

  lemma SnocIndex<T>(s: seq<T>, x: T)
    ensures forall i :: 0 <= i < |s| ==> (s + [x])[i] == s[i]
    ensures (s + [x])[|s|] == x
  {
  }

  lemma FromLaneSnoc(nodes: set<NodeId>, lanes: seq<Lane>, distance: (NodeId, NodeId) -> real, lane: Lane, u: NodeId, a: Arc)
    ensures FromLane(nodes, lanes + [lane], distance, u, a)
            <==> (FromLane(nodes, lanes, distance, u, a) || IsArcOf(nodes, lane, distance, u, a))
  {
    SnocIndex(lanes, lane);
    if FromLane(nodes, lanes, distance, u, a) {
      var i :| 0 <= i < |lanes| && IsArcOf(nodes, lanes[i], distance, u, a);
      assert IsArcOf(nodes, (lanes + [lane])[i], distance, u, a);
    }
    if IsArcOf(nodes, lane, distance, u, a) {
      assert IsArcOf(nodes, (lanes + [lane])[|lanes|], distance, u, a);
    }
  }

  ghost predicate Touched(nodes: set<NodeId>, lanes: seq<Lane>, u: NodeId) {
    exists i :: 0 <= i < |lanes| && Touches(nodes, lanes[i], u)
  }

  lemma TouchedSnoc(nodes: set<NodeId>, lanes: seq<Lane>, lane: Lane, u: NodeId)
    ensures Touched(nodes, lanes + [lane], u) <==> (Touched(nodes, lanes, u) || Touches(nodes, lane, u))
  {
    SnocIndex(lanes, lane);
    if Touched(nodes, lanes, u) {
      var i :| 0 <= i < |lanes| && Touches(nodes, lanes[i], u);
      assert Touches(nodes, (lanes + [lane])[i], u);
    }
    if Touches(nodes, lane, u) {
      assert Touches(nodes, (lanes + [lane])[|lanes|], u);
    }
  }

  ghost predicate Joins(nodes: set<NodeId>, lanes: seq<Lane>, u: NodeId, v: NodeId) {
    exists i :: 0 <= i < |lanes| && Usable(nodes, lanes[i]) && lanes[i].start == u && lanes[i].end == v
  }

  lemma JoinsSnoc(nodes: set<NodeId>, lanes: seq<Lane>, lane: Lane, u: NodeId, v: NodeId)
    ensures Joins(nodes, lanes + [lane], u, v)
            <==> (Joins(nodes, lanes, u, v) || (Usable(nodes, lane) && lane.start == u && lane.end == v))
  {
    SnocIndex(lanes, lane);
    if Joins(nodes, lanes, u, v) {
      var i :| 0 <= i < |lanes| && Usable(nodes, lanes[i]) && lanes[i].start == u && lanes[i].end == v;
      assert (lanes + [lane])[i] == lanes[i];
    }
    if Usable(nodes, lane) && lane.start == u && lane.end == v {
      assert (lanes + [lane])[|lanes|] == lane;
    }
  }

  lemma GraphStays(adj: Adjacency, edges: set<(NodeId, NodeId)>, nodes: set<NodeId>, lanes: seq<Lane>,
    distance: (NodeId, NodeId) -> real, lane: Lane)
    requires GraphOf(adj, edges, nodes, lanes, distance) && !Usable(nodes, lane)
    ensures GraphOf(adj, edges, nodes, lanes + [lane], distance)
  {
    hide FromLane, Touched, Joins;
    forall u, a ensures u in adj && a in adj[u] <==> FromLane(nodes, lanes + [lane], distance, u, a) {
      FromLaneSnoc(nodes, lanes, distance, lane, u, a);
    }
    forall u ensures u in adj <==> Touched(nodes, lanes + [lane], u) {
      TouchedSnoc(nodes, lanes, lane, u);
    }
    forall u, v ensures (u, v) in edges <==> Joins(nodes, lanes + [lane], u, v) {
      JoinsSnoc(nodes, lanes, lane, u, v);
    }
  }

  lemma GraphGrows(adj: Adjacency, edges: set<(NodeId, NodeId)>, after: Adjacency, afterEdges: set<(NodeId, NodeId)>,
    nodes: set<NodeId>, lanes: seq<Lane>, distance: (NodeId, NodeId) -> real, lane: Lane)
    requires GraphOf(adj, edges, nodes, lanes, distance) && Usable(nodes, lane)
    requires afterEdges == edges + {(lane.start, lane.end)}
    requires forall u :: u in after <==> u in adj || u == lane.start || u == lane.end
    requires forall u :: u in after ==>
               after[u] == (if u in adj then adj[u] else [])
                           + (if u == lane.start then [Arc(lane.end, distance(lane.start, lane.end))] else [])
    ensures GraphOf(after, afterEdges, nodes, lanes + [lane], distance)
  {
    hide FromLane, Touched, Joins;
    forall u, a ensures u in after && a in after[u] <==> FromLane(nodes, lanes + [lane], distance, u, a) {
      FromLaneSnoc(nodes, lanes, distance, lane, u, a);
    }
    forall u ensures u in after <==> Touched(nodes, lanes + [lane], u) {
      TouchedSnoc(nodes, lanes, lane, u);
    }
    forall u, v ensures (u, v) in afterEdges <==> Joins(nodes, lanes + [lane], u, v) {
      JoinsSnoc(nodes, lanes, lane, u, v);
    }
  }

  /** Every lane between known nodes is an arc at its length, and there are no other arcs. */
  lemma LanesAreArcs(adj: Adjacency, edges: set<(NodeId, NodeId)>, nodes: set<NodeId>, lanes: seq<Lane>,
    distance: (NodeId, NodeId) -> real)
    requires GraphOf(adj, edges, nodes, lanes, distance)
    ensures forall i :: 0 <= i < |lanes| && lanes[i].start in nodes && lanes[i].end in nodes ==>
              && lanes[i].start in adj && Arc(lanes[i].end, distance(lanes[i].start, lanes[i].end)) in adj[lanes[i].start]
              && (lanes[i].start, lanes[i].end) in edges
    ensures forall u, a :: u in adj && a in adj[u] ==>
              u in nodes && a.to in nodes && a == Arc(a.to, distance(u, a.to)) && (u, a.to) in edges
              && exists i :: 0 <= i < |lanes| && lanes[i].start == u && lanes[i].end == a.to
  {
    forall i | 0 <= i < |lanes| && lanes[i].start in nodes && lanes[i].end in nodes
      ensures lanes[i].start in adj && Arc(lanes[i].end, distance(lanes[i].start, lanes[i].end)) in adj[lanes[i].start]
      ensures (lanes[i].start, lanes[i].end) in edges
    {
      var a := Arc(lanes[i].end, distance(lanes[i].start, lanes[i].end));
      assert IsArcOf(nodes, lanes[i], distance, lanes[i].start, a);
      assert FromLane(nodes, lanes, distance, lanes[i].start, a);
      assert Joins(nodes, lanes, lanes[i].start, lanes[i].end);
    }
    forall u, a | u in adj && a in adj[u]
      ensures u in nodes && a.to in nodes && a == Arc(a.to, distance(u, a.to)) && (u, a.to) in edges
      ensures exists i :: 0 <= i < |lanes| && lanes[i].start == u && lanes[i].end == a.to
    {
      assert FromLane(nodes, lanes, distance, u, a);
      var i :| 0 <= i < |lanes| && IsArcOf(nodes, lanes[i], distance, u, a);
      assert Joins(nodes, lanes, u, a.to);
    }
  }

  // ----- Orders --------------------------------------------------------------------------------

  /** The first lane from `u` to `v`, or a made-up name. */
  function EdgeFor(lanes: seq<Lane>, u: NodeId, v: NodeId): EdgeName {
    if lanes == [] then MadeUp(u, v)
    else if lanes[0].start == u && lanes[0].end == v then Named(lanes[0].name)
    else EdgeFor(lanes[1..], u, v)
  }

  method FindEdge(lanes: seq<Lane>, u: NodeId, v: NodeId) returns (name: EdgeName)
    ensures name == EdgeFor(lanes, u, v)
  {
    for i := 0 to |lanes|
      invariant EdgeFor(lanes[i..], u, v) == EdgeFor(lanes, u, v)
    {
      assert lanes[i..][0] == lanes[i] && lanes[i..][1..] == lanes[i + 1..];
      if lanes[i].start == u && lanes[i].end == v {
        return Named(lanes[i].name);
      }
    }
    return MadeUp(u, v);
  }

  ghost predicate FirstLane(lanes: seq<Lane>, i: int, u: NodeId, v: NodeId) {
    && 0 <= i < |lanes| && lanes[i].start == u && lanes[i].end == v
    && forall j :: 0 <= j < i ==> !(lanes[j].start == u && lanes[j].end == v)
  }

  /** A name is a lane's exactly if there is a lane, and then it is that of the first lane with these
      ends; otherwise it is made up from the ends, in their order. */
  lemma {:induction false} EdgeForNamesLane(lanes: seq<Lane>, u: NodeId, v: NodeId)
    ensures EdgeFor(lanes, u, v).Named? <==> exists i :: 0 <= i < |lanes| && lanes[i].start == u && lanes[i].end == v
    ensures EdgeFor(lanes, u, v).Named? ==>
              exists i :: FirstLane(lanes, i, u, v) && lanes[i] == Lane(EdgeFor(lanes, u, v).name, u, v)
    ensures !EdgeFor(lanes, u, v).Named? ==> EdgeFor(lanes, u, v) == MadeUp(u, v)
  {
    if lanes != [] {
      EdgeForNamesLane(lanes[1..], u, v);
      assert forall i :: 0 < i < |lanes| ==> lanes[i] == lanes[1..][i - 1];
      if lanes[0].start == u && lanes[0].end == v {
        assert FirstLane(lanes, 0, u, v) && lanes[0] == Lane(EdgeFor(lanes, u, v).name, u, v);
      } else if EdgeFor(lanes, u, v).Named? {
        var i :| FirstLane(lanes[1..], i, u, v) && lanes[1..][i] == Lane(EdgeFor(lanes, u, v).name, u, v);
        assert FirstLane(lanes, i + 1, u, v) && lanes[i + 1] == Lane(EdgeFor(lanes, u, v).name, u, v);
      }
    }
  }

  /** The order for a path: every node and edge in its place, with the base released. */
  ghost predicate OrderFor(
    nodes: seq<OrderNode>, edges: seq<OrderEdge>, path: seq<NodeId>, base: int, first: int, lanes: seq<Lane>)
  {
    && |nodes| == |path| && |edges| == |path| - 1
    && (forall i :: 0 <= i < |path| ==> nodes[i] == OrderNode(path[i], first + 2 * i, i <= base, true))
    && (forall i :: 0 <= i < |path| - 1 ==>
        edges[i] == OrderEdge(EdgeFor(lanes, path[i], path[i + 1]), first + 2 * i + 1, i < base, path[i], path[i + 1]))
  }

  method BuildOrder(path: seq<NodeId>, known: set<NodeId>, base: int, first: int, lanes: seq<Lane>)
    returns (order: Built)
    ensures order == Refused(ValueError) <==> path == [] || !(0 <= base < |path|)
    ensures order == Refused(KeyError) <==> path != [] && 0 <= base < |path| && exists n :: n in path && n !in known
    ensures order.Refused? ==> order.error == ValueError || order.error == KeyError
    ensures order.Built? ==> OrderFor(order.nodes, order.edges, path, base, first, lanes)
  {
    if path == [] {
      return Refused(ValueError);
    }
    if !(0 <= base < |path|) {
      return Refused(ValueError);
    }
    var nodes, edges := [], [];
    for i := 0 to |path|
      invariant |nodes| == i && |edges| == if i < |path| then i else i - 1
      invariant forall n :: n in path[..i] ==> n in known
      invariant forall k :: 0 <= k < i ==> nodes[k] == OrderNode(path[k], first + 2 * k, k <= base, true)
      invariant forall k :: 0 <= k < |edges| ==>
        edges[k] == OrderEdge(EdgeFor(lanes, path[k], path[k + 1]), first + 2 * k + 1, k < base, path[k], path[k + 1])
    {
      var name := path[i];
      assert name in path;
      if name !in known {
        return Refused(KeyError);
      }
      if i + 1 < |path| && path[i + 1] !in known {
        ghost var missing := path[i + 1];
        assert missing in path;
        return Refused(KeyError);
      }
      nodes := nodes + [OrderNode(path[i], first + 2 * i, i <= base, true)];
      if i + 1 >= |path| {
        continue;
      }
      var edgeName := FindEdge(lanes, path[i], path[i + 1]);
      edges := edges + [OrderEdge(edgeName, first + 2 * i + 1, i < base, path[i], path[i + 1])];
    }
    return Built(nodes, edges);
  }

  // ----- What the receiver checks --------------------------------------------------------------------

  /** Nodes count up by two from the first, and edges lie between them. */
  ghost predicate Sequenced(nodes: seq<OrderNode>, edges: seq<OrderEdge>) {
    nodes != [] ==>
      && (forall i :: 0 <= i < |nodes| ==> nodes[i].sequence == nodes[0].sequence + 2 * i)
      && (forall i :: 0 <= i < |edges| ==> edges[i].sequence == nodes[0].sequence + 2 * i + 1)
  }

  lemma {:induction false} StopsFollowArcs(adj: Adjacency, start: NodeId, walk: seq<Arc>, i: nat)
    requires IsWalk(adj, start, walk) && i < |walk|
    ensures |Stops(start, walk)| == |walk| + 1 && Stops(start, walk)[0] == start
    ensures var u := Stops(start, walk)[i];
            u in adj && walk[i] in adj[u] && walk[i].to == Stops(start, walk)[i + 1]
    decreases |walk|
  {
    StopsCount(walk[0].to, walk[1..]);
    if i > 0 {
      StopsFollowArcs(adj, walk[0].to, walk[1..], i - 1);
    }
  }

  lemma {:induction false} StopsCount(start: NodeId, walk: seq<Arc>)
    ensures |Stops(start, walk)| == |walk| + 1 && Stops(start, walk)[0] == start
    decreases |walk|
  {
    if walk != [] {
      StopsCount(walk[0].to, walk[1..]);
    }
  }

  /** The edge bears the name of a lane that has the same ends. */
  ghost predicate NamesLane(lanes: seq<Lane>, edge: OrderEdge) {
    edge.name.Named? && exists k :: 0 <= k < |lanes| && lanes[k] == Lane(edge.name.name, edge.start, edge.end)
  }

  /** End to end: an order for any shortest path through the graph of the lanes names a
      real lane with matching ends at every edge, releases a prefix, and has the sequence
      numbers and the positions that the receiver checks. */
  lemma BuiltOrderIsSound(adj: Adjacency, edgesOf: set<(NodeId, NodeId)>, known: set<NodeId>, lanes: seq<Lane>,
    distance: (NodeId, NodeId) -> real, start: NodeId, goal: NodeId, path: seq<NodeId>,
    base: int, first: int, nodes: seq<OrderNode>, edges: seq<OrderEdge>)
    requires GraphOf(adj, edgesOf, known, lanes, distance) && IsShortestPath(adj, start, goal, path)
    requires 0 <= base < |path| && OrderFor(nodes, edges, path, base, first, lanes)
    ensures forall i :: 0 <= i < |edges| ==>
              && edges[i].start == nodes[i].node && edges[i].end == nodes[i + 1].node
              && NamesLane(lanes, edges[i])
    ensures forall i :: 0 <= i < |nodes| ==> (nodes[i].released <==> i <= base)
    ensures forall i :: 0 <= i < |edges| ==> (edges[i].released <==> nodes[i + 1].released)
    ensures nodes[0].positioned && Sequenced(nodes, edges)
    ensures nodes[0].node == start && nodes[|nodes| - 1].node == goal
  {
    hide IsWalk, End, Stops, GraphOf, NamesLane, EdgeFor;
    var walk :| IsWalk(adj, start, walk) && End(start, walk) == goal && Stops(start, walk) == path;
    StopsCount(start, walk);
    LastStop(start, walk);
    forall i | 0 <= i < |edges|
      ensures edges[i].start == nodes[i].node && edges[i].end == nodes[i + 1].node && NamesLane(lanes, edges[i])
    {
      StopsFollowArcs(adj, start, walk, i);
      ArcIsLane(adj, edgesOf, known, lanes, distance, path[i], walk[i]);
      EdgeIsNamed(lanes, edges[i]);
    }
  }

  lemma EdgeIsNamed(lanes: seq<Lane>, edge: OrderEdge)
    requires edge.name == EdgeFor(lanes, edge.start, edge.end)
    requires exists i :: 0 <= i < |lanes| && lanes[i].start == edge.start && lanes[i].end == edge.end
    ensures NamesLane(lanes, edge)
  {
  }

  lemma ArcIsLane(adj: Adjacency, edgesOf: set<(NodeId, NodeId)>, known: set<NodeId>, lanes: seq<Lane>,
    distance: (NodeId, NodeId) -> real, u: NodeId, a: Arc)
    requires GraphOf(adj, edgesOf, known, lanes, distance) && u in adj && a in adj[u]
    ensures exists i :: 0 <= i < |lanes| && lanes[i].start == u && lanes[i].end == a.to
    ensures u in known && a.to in known
  {
  }

  lemma {:induction false} LastStop(start: NodeId, walk: seq<Arc>)
    ensures |Stops(start, walk)| > 0 && Stops(start, walk)[|Stops(start, walk)| - 1] == End(start, walk)
    decreases |walk|
  {
    if walk != [] {
      LastStop(walk[0].to, walk[1..]);
    }
  }

  /** A path of the graph of the lanes that is not a single node has known nodes only, so its
      order is built; and a node without lanes is not in the graph at all. */
  lemma PathIsKnown(adj: Adjacency, edgesOf: set<(NodeId, NodeId)>, known: set<NodeId>, lanes: seq<Lane>,
    distance: (NodeId, NodeId) -> real, start: NodeId, walk: seq<Arc>)
    requires GraphOf(adj, edgesOf, known, lanes, distance) && IsWalk(adj, start, walk) && start in adj
    ensures forall n :: n in Stops(start, walk) ==> n in known
    decreases |walk|
  {
    assert Touched(known, lanes, start);
    if walk != [] {
      ArcIsLane(adj, edgesOf, known, lanes, distance, start, walk[0]);
      assert FromLane(known, lanes, distance, start, walk[0]);
      var i :| 0 <= i < |lanes| && IsArcOf(known, lanes[i], distance, start, walk[0]);
      assert Touches(known, lanes[i], walk[0].to);
      assert Touched(known, lanes, walk[0].to);
      PathIsKnown(adj, edgesOf, known, lanes, distance, walk[0].to, walk[1..]);
    }
  }
}
