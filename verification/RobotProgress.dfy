/** The receiving side: how the simulated robot takes an order, and how its published
    node and edge states shrink as it drives (VDA 5050 version 2.0.0, section 6.6.1).
    Motion is an oracle that says which nodes have been reached or passed. */
module RobotProgress {
  import opened Models
  import opened Orders

  // ----- Progress through one order -------------------------------------------------------

  datatype Progress = Progress(
    nodes: seq<OrderNode>, edges: seq<OrderEdge>,
    nodeStates: seq<OrderNode>, edgeStates: seq<OrderEdge>,
    nodeIndex: nat, edgeIndex: int)

  function Numbers(nodes: seq<OrderNode>): set<int> {
    set n | n in nodes :: n.sequence
  }

  function EdgeNumbers(edges: seq<OrderEdge>): set<int> {
    set e | e in edges :: e.sequence
  }

  /** The states whose sequence numbers are not among those given. */
  function NodesWithout(states: seq<OrderNode>, numbers: set<int>): seq<OrderNode> {
    if states == [] then []
    else (if states[0].sequence in numbers then [] else [states[0]]) + NodesWithout(states[1..], numbers)
  }

  function EdgesWithout(states: seq<OrderEdge>, numbers: set<int>): seq<OrderEdge> {
    if states == [] then []
    else (if states[0].sequence in numbers then [] else [states[0]]) + EdgesWithout(states[1..], numbers)
  }

  /** A fresh order whose first `passed` nodes already lie behind the robot. */
  function Applied(nodes: seq<OrderNode>, edges: seq<OrderEdge>, passed: nat): Progress
    requires passed <= |nodes|
  {
    if passed == 0 then Progress(nodes, edges, nodes, edges, 0, -1)
    else
      var done := edges[..if passed - 1 <= |edges| then passed - 1 else |edges|];
      Progress(nodes, edges, NodesWithout(nodes, Numbers(nodes[..passed])),
        if EdgeNumbers(done) != {} then EdgesWithout(edges, EdgeNumbers(done)) else edges, passed, passed - 1)
  }

  /** The first half of an arrival: the node and the edge before it are done. */
  function Arriving(p: Progress): Progress
    requires p.nodeIndex < |p.nodes|
  {
    p.(nodeStates := NodesWithout(p.nodeStates, {p.nodes[p.nodeIndex].sequence}),
       edgeStates := if 0 <= p.edgeIndex < |p.edges|
                     then EdgesWithout(p.edgeStates, {p.edges[p.edgeIndex].sequence}) else p.edgeStates)
  }

  /** The second half, after the node's actions: on to the next node and edge. */
  function Arrived(p: Progress): Progress {
    p.(nodeIndex := p.nodeIndex + 1, edgeIndex := p.edgeIndex + 1)
  }

  function Drop<T>(s: seq<T>, k: int): seq<T> {
    if k <= 0 then s else if k >= |s| then [] else s[k..]
  }

  /** `k` nodes are behind the robot: what is published is what is left. */
  ghost predicate Behind(p: Progress, k: nat) {
    && k <= |p.nodes|
    && p.nodeStates == Drop(p.nodes, k)
    && p.edgeStates == Drop(p.edges, k - 1)
    && forall i :: 0 <= i < k ==> p.nodes[i].released
  }

  /** Between arrivals the published states are the suffixes from the current indices. */
  ghost predicate OnTrack(p: Progress) {
    Sequenced(p.nodes, p.edges) && p.edgeIndex == p.nodeIndex - 1 && Behind(p, p.nodeIndex)
  }

  /** While the actions of a node run, the node is already gone from the published states. */
  ghost predicate AtNode(p: Progress) {
    Sequenced(p.nodes, p.edges) && p.edgeIndex == p.nodeIndex - 1 && Behind(p, p.nodeIndex + 1)
  }

  // ----- Filtering by sequence number is dropping a prefix ----------------------------------------

  lemma {:induction false} KeepAllNodes(states: seq<OrderNode>, numbers: set<int>)
    requires forall n :: n in states ==> n.sequence !in numbers
    ensures NodesWithout(states, numbers) == states
  {
    if states != [] {
      assert states[0] in states;
      assert forall n :: n in states[1..] ==> n in states;
      KeepAllNodes(states[1..], numbers);
    }
  }

  lemma {:induction false} DropNodes(states: seq<OrderNode>, numbers: set<int>, k: nat)
    requires k <= |states|
    requires forall i :: 0 <= i < k ==> states[i].sequence in numbers
    requires forall i :: k <= i < |states| ==> states[i].sequence !in numbers
    ensures NodesWithout(states, numbers) == states[k..]
  {
    if k == 0 {
      assert forall n :: n in states ==> n.sequence !in numbers;
      KeepAllNodes(states, numbers);
    } else {
      DropNodes(states[1..], numbers, k - 1);
      assert states[1..][k - 1..] == states[k..];
    }
  }

  lemma {:induction false} KeepAllEdges(states: seq<OrderEdge>, numbers: set<int>)
    requires forall e :: e in states ==> e.sequence !in numbers
    ensures EdgesWithout(states, numbers) == states
  {
    if states != [] {
      assert states[0] in states;
      assert forall e :: e in states[1..] ==> e in states;
      KeepAllEdges(states[1..], numbers);
    }
  }

  lemma {:induction false} DropEdges(states: seq<OrderEdge>, numbers: set<int>, k: nat)
    requires k <= |states|
    requires forall i :: 0 <= i < k ==> states[i].sequence in numbers
    requires forall i :: k <= i < |states| ==> states[i].sequence !in numbers
    ensures EdgesWithout(states, numbers) == states[k..]
  {
    if k == 0 {
      assert forall e :: e in states ==> e.sequence !in numbers;
      KeepAllEdges(states, numbers);
    } else {
      DropEdges(states[1..], numbers, k - 1);
      assert states[1..][k - 1..] == states[k..];
    }
  }

  // ----- Every step drops a prefix -------------------------------------------------------------

  lemma AppliedNodes(nodes: seq<OrderNode>, edges: seq<OrderEdge>, passed: nat)
    requires Sequenced(nodes, edges) && passed < |nodes|
    ensures NodesWithout(nodes, Numbers(nodes[..passed])) == nodes[passed..]
  {
    forall i | 0 <= i < passed ensures nodes[i].sequence in Numbers(nodes[..passed]) {
      assert nodes[..passed][i] == nodes[i];
    }
    forall i | passed <= i < |nodes| ensures nodes[i].sequence !in Numbers(nodes[..passed]) {
      forall n | n in nodes[..passed] ensures n.sequence != nodes[i].sequence {
        var j :| 0 <= j < passed && nodes[j] == n;
      }
    }
    DropNodes(nodes, Numbers(nodes[..passed]), passed);
  }

  lemma AppliedEdges(nodes: seq<OrderNode>, edges: seq<OrderEdge>, k: nat)
    requires Sequenced(nodes, edges) && nodes != [] && k <= |edges|
    ensures EdgesWithout(edges, EdgeNumbers(edges[..k])) == edges[k..]
    ensures k > 0 ==> EdgeNumbers(edges[..k]) != {}
  {
    forall i | 0 <= i < k ensures edges[i].sequence in EdgeNumbers(edges[..k]) {
      assert edges[..k][i] == edges[i];
    }
    forall i | k <= i < |edges| ensures edges[i].sequence !in EdgeNumbers(edges[..k]) {
      forall e | e in edges[..k] ensures e.sequence != edges[i].sequence {
        var j :| 0 <= j < k && edges[j] == e;
      }
    }
    if k > 0 {
      assert edges[0].sequence in EdgeNumbers(edges[..k]);
    }
    DropEdges(edges, EdgeNumbers(edges[..k]), k);
  }

  /** Taking an order puts the robot on track. */
  lemma AppliedOnTrack(nodes: seq<OrderNode>, edges: seq<OrderEdge>, passed: nat)
    requires Sequenced(nodes, edges) && passed < |nodes|
    requires forall i :: 0 <= i < passed ==> nodes[i].released
    ensures OnTrack(Applied(nodes, edges, passed))
  {
    if passed > 0 {
      var k := if passed - 1 <= |edges| then passed - 1 else |edges|;
      AppliedNodes(nodes, edges, passed);
      AppliedEdges(nodes, edges, k);
      hide NodesWithout, EdgesWithout, Numbers, EdgeNumbers;
    }
  }

  lemma NextNodeDone(nodes: seq<OrderNode>, edges: seq<OrderEdge>, k: nat)
    requires Sequenced(nodes, edges) && k < |nodes|
    ensures NodesWithout(nodes[k..], {nodes[k].sequence}) == nodes[k + 1..]
  {
    var left := nodes[k..];
    assert forall i :: 0 <= i < |left| ==> left[i] == nodes[k + i];
    DropNodes(left, {nodes[k].sequence}, 1);
    assert left[1..] == nodes[k + 1..];
  }

  lemma NextEdgeDone(nodes: seq<OrderNode>, edges: seq<OrderEdge>, k: nat)
    requires Sequenced(nodes, edges) && nodes != [] && k < |edges|
    ensures EdgesWithout(edges[k..], {edges[k].sequence}) == edges[k + 1..]
  {
    var left := edges[k..];
    assert forall i :: 0 <= i < |left| ==> left[i] == edges[k + i];
    DropEdges(left, {edges[k].sequence}, 1);
    assert left[1..] == edges[k + 1..];
  }

  /** Reaching a released node drops it and the edge before it, and nothing else. */
  lemma ArrivingAtNode(p: Progress)
    requires OnTrack(p) && p.nodeIndex < |p.nodes| && p.nodes[p.nodeIndex].released
    ensures AtNode(Arriving(p))
  {
    hide NodesWithout, EdgesWithout, Sequenced;
    NextNodeDone(p.nodes, p.edges, p.nodeIndex);
    if 0 <= p.edgeIndex < |p.edges| {
      NextEdgeDone(p.nodes, p.edges, p.edgeIndex);
    }
  }

  lemma ArrivedOnTrack(p: Progress)
    requires AtNode(p)
    ensures OnTrack(Arrived(p))
  {
  }

  /** The robot after `k` more arrivals. */
  function Driven(p: Progress, k: nat): (r: Progress)
    requires p.nodeIndex + k <= |p.nodes|
    ensures r.nodes == p.nodes && r.edges == p.edges && r.nodeIndex == p.nodeIndex + k
  {
    if k == 0 then p else Arrived(Arriving(Driven(p, k - 1)))
  }

  /** Driving through a base publishes one suffix of the order after the other, and in the end,
      if the whole order was released, nothing. */
  lemma {:induction false} DriveDropsPrefix(p: Progress, k: nat)
    requires OnTrack(p) && p.nodeIndex + k <= |p.nodes|
    requires forall i :: p.nodeIndex <= i < p.nodeIndex + k ==> p.nodes[i].released
    ensures OnTrack(Driven(p, k))
    ensures Driven(p, k).nodeStates == Drop(p.nodes, p.nodeIndex + k)
    ensures Driven(p, k).edgeStates == Drop(p.edges, p.nodeIndex + k - 1)
    ensures p.nodeIndex + k == |p.nodes| && |p.edges| < |p.nodes| ==> Driven(p, k).nodeStates == [] && Driven(p, k).edgeStates == []
  {
    hide NodesWithout, EdgesWithout, Sequenced, AtNode, Arriving;
    if k > 0 {
      var q := Driven(p, k - 1);
      DriveDropsPrefix(p, k - 1);
      ArrivingAtNode(q);
      ArrivingFrame(q);
      ArrivedOnTrack(Arriving(q));
    }
  }

  lemma ArrivingFrame(p: Progress)
    requires p.nodeIndex < |p.nodes|
    ensures Arriving(p).nodes == p.nodes && Arriving(p).edges == p.edges && Arriving(p).nodeIndex == p.nodeIndex
  {
  }

  /** An order that is taken while the actions of a node are running is spoilt when they
      end: the robot then skips a node that is still published. */
  lemma OrderDuringArrivalDerails(nodes: seq<OrderNode>, edges: seq<OrderEdge>, passed: nat)
    requires Sequenced(nodes, edges) && passed < |nodes|
    requires forall i :: 0 <= i < passed ==> nodes[i].released
    ensures !OnTrack(Arrived(Applied(nodes, edges, passed)))
    ensures Arrived(Applied(nodes, edges, passed)).nodeIndex == passed + 1
    ensures Arrived(Applied(nodes, edges, passed)).nodeStates == nodes[passed..]
  {
    AppliedOnTrack(nodes, edges, passed);
    var p := Arrived(Applied(nodes, edges, passed));
    assert p.nodeStates == Drop(nodes, passed) == nodes[passed..];
    assert |Drop(nodes, passed + 1)| < |p.nodeStates|;
  }

  /** A node that lies behind the robot is still published. */
  ghost predicate Derailed(p: Progress) {
    Sequenced(p.nodes, p.edges) && exists j :: 0 <= j < p.nodeIndex && j < |p.nodes| && p.nodes[j] in p.nodeStates
  }

  lemma {:induction false} OthersStayPublished(states: seq<OrderNode>, numbers: set<int>, n: OrderNode)
    requires n in states && n.sequence !in numbers
    ensures n in NodesWithout(states, numbers)
  {
    if states[0] != n {
      OthersStayPublished(states[1..], numbers, n);
    }
  }

  /** Once off the track, a robot stays off it until it is given another order. */
  lemma DerailedStays(p: Progress)
    requires Derailed(p)
    ensures p.nodeIndex < |p.nodes| ==> Derailed(Arriving(p))
    ensures Derailed(Arrived(p)) && !OnTrack(p) && !AtNode(p)
  {
    var j :| 0 <= j < p.nodeIndex && j < |p.nodes| && p.nodes[j] in p.nodeStates;
    if p.nodeIndex < |p.nodes| {
      OthersStayPublished(p.nodeStates, {p.nodes[p.nodeIndex].sequence}, p.nodes[j]);
      assert Arriving(p).nodes[j] in Arriving(p).nodeStates;
    }
    assert Arrived(p).nodes[j] in Arrived(p).nodeStates;
    BehindIsGone(p, p.nodeIndex, j);
    BehindIsGone(p, p.nodeIndex + 1, j);
    hide NodesWithout, EdgesWithout;
  }

  lemma BehindIsGone(p: Progress, k: nat, j: nat)
    requires Sequenced(p.nodes, p.edges) && j < k && j < |p.nodes| && p.nodes[j] in p.nodeStates
    ensures !Behind(p, k)
  {
    forall i | k <= i < |p.nodes| ensures p.nodes[i] != p.nodes[j] {
      assert p.nodes[i].sequence == p.nodes[0].sequence + 2 * i;
    }
    assert p.nodes[j] !in Drop(p.nodes, k);
  }

  /** Finishing an arrival on an order that was taken meanwhile leaves the track. */
  lemma SpoiltIsDerailed(p: Progress)
    requires OnTrack(p) && p.nodeIndex < |p.nodes|
    ensures Derailed(Arrived(p)) && !AtNode(p)
  {
    var q := Arrived(p);
    assert p.nodes[p.nodeIndex..][0] == p.nodes[p.nodeIndex];
    assert q.nodes[p.nodeIndex] in q.nodeStates;
    assert p.nodeStates != Drop(p.nodes, p.nodeIndex + 1) by {
      assert |Drop(p.nodes, p.nodeIndex)| != |Drop(p.nodes, p.nodeIndex + 1)|;
    }
  }

  /** Two released nodes and the edge between them. */
  const TWO_NODES := [OrderNode(7, 0, true, true), OrderNode(8, 2, true, true)]
  const ONE_EDGE := [OrderEdge(Named(5), 1, true, 7, 8)]

  /** The robot finishes an arrival on the order it has just been given: the next target is the second
      node, and the first one is still published. */
  lemma FreshOrderIsSpoilt()
    ensures Sequenced(TWO_NODES, ONE_EDGE) && OnTrack(Applied(TWO_NODES, ONE_EDGE, 0))
    ensures var p := Arrived(Applied(TWO_NODES, ONE_EDGE, 0));
            !OnTrack(p) && p.nodeIndex == 1 && p.nodeStates == TWO_NODES && p.edgeStates == ONE_EDGE
  {
    OrderDuringArrivalDerails(TWO_NODES, ONE_EDGE, 0);
  }

  // ----- Which leading nodes are behind the robot -------------------------------------------------

  /** What the robot's position says about nodes. */
  datatype Geometry = Geometry(
    atLast: OrderNode -> bool,
    passedFrom: (OrderNode, OrderNode) -> bool,
    passedTowards: (OrderNode, OrderNode) -> bool)

  /** The node counts as passed. */
  predicate CountsAsPassed(nodes: seq<OrderNode>, last: Option<NodeId>, geometry: Geometry, k: nat)
    requires k + 1 < |nodes|
  {
    && nodes[k].released
    && (if last == Some(nodes[k].node) && geometry.atLast(nodes[k]) then true
        else if k > 0 then geometry.passedFrom(nodes[k - 1], nodes[k])
        else geometry.passedTowards(nodes[k], nodes[k + 1]))
  }

  /** The longest leading run of passed nodes, never the last one. */
  method LeadingPassed(nodes: seq<OrderNode>, last: Option<NodeId>, geometry: Geometry) returns (count: nat)
    requires nodes != []
    ensures count < |nodes|
    ensures forall i :: 0 <= i < count ==> CountsAsPassed(nodes, last, geometry, i)
    ensures count + 1 < |nodes| ==> !CountsAsPassed(nodes, last, geometry, count)
  {
    count := 0;
    while count < |nodes| - 1
      invariant count < |nodes|
      invariant forall i :: 0 <= i < count ==> CountsAsPassed(nodes, last, geometry, i)
    {
      if !nodes[count].released {
        break;
      }
      if last == Some(nodes[count].node) && geometry.atLast(nodes[count]) {
        count := count + 1;
        continue;
      }
      if count > 0 {
        if geometry.passedFrom(nodes[count - 1], nodes[count]) {
          count := count + 1;
          continue;
        }
        break;
      }
      if geometry.passedTowards(nodes[count], nodes[count + 1]) {
        count := count + 1;
        continue;
      }
      break;
    }
  }

  lemma PassedAreReleased(nodes: seq<OrderNode>, last: Option<NodeId>, geometry: Geometry, passed: nat)
    requires passed < |nodes| && forall i :: 0 <= i < passed ==> CountsAsPassed(nodes, last, geometry, i)
    ensures forall i :: 0 <= i < passed ==> nodes[i].released
  {
    forall i | 0 <= i < passed ensures nodes[i].released {
      assert CountsAsPassed(nodes, last, geometry, i);
    }
  }

  /** The nodes lie on a line, each beyond the one before, and the robot is on it at `x`. */
  ghost predicate OnALine(nodes: seq<OrderNode>, along: OrderNode -> real, x: real, geometry: Geometry) {
    && (forall i, j :: 0 <= i < j < |nodes| ==> along(nodes[i]) < along(nodes[j]))
    && (forall a, b :: geometry.passedFrom(a, b) <==> along(b) < x)
    && (forall a, b :: geometry.passedTowards(a, b) <==> b.released && along(a) < x)
  }

  /** On a straight line, and without knowledge of a last node, the nodes that are skipped are the
      released ones behind the robot, as far as they lead the order and are not its last, provided
      that the second node is released. */
  lemma {:induction false} StraightLine(
    nodes: seq<OrderNode>, along: OrderNode -> real, x: real, geometry: Geometry, count: nat, k: nat)
    requires |nodes| >= 2 && OnALine(nodes, along, x, geometry) && count < |nodes| && k < |nodes| - 1
    requires forall i :: 0 <= i < count ==> CountsAsPassed(nodes, None, geometry, i)
    requires count + 1 < |nodes| ==> !CountsAsPassed(nodes, None, geometry, count)
    ensures k < count <==> nodes[1].released && forall i :: 0 <= i <= k ==> nodes[i].released && along(nodes[i]) < x
  {
    if k < count {
      assert CountsAsPassed(nodes, None, geometry, 0);
      forall i | 0 <= i <= k ensures nodes[i].released && along(nodes[i]) < x {
        assert CountsAsPassed(nodes, None, geometry, i);
      }
    }
  }

  /** A robot that is past no node skips only those it still stands at, by the last node it knows. */
  lemma {:induction false} StandingStill(nodes: seq<OrderNode>, last: Option<NodeId>, geometry: Geometry, count: nat, k: nat)
    requires |nodes| >= 2 && count < |nodes| && k < |nodes| - 1
    requires forall a, b :: !geometry.passedFrom(a, b) && !geometry.passedTowards(a, b)
    requires forall i :: 0 <= i < count ==> CountsAsPassed(nodes, last, geometry, i)
    requires count + 1 < |nodes| ==> !CountsAsPassed(nodes, last, geometry, count)
    ensures k < count <==>
              forall i :: 0 <= i <= k ==> nodes[i].released && last == Some(nodes[i].node) && geometry.atLast(nodes[i])
  {
    if k < count {
      forall i | 0 <= i <= k ensures nodes[i].released && last == Some(nodes[i].node) && geometry.atLast(nodes[i]) {
        assert CountsAsPassed(nodes, last, geometry, i);
      }
    }
  }

  // ----- The robot --------------------------------------------------------------------------------

  class Robot {
    var nodes: seq<OrderNode>
    var edges: seq<OrderEdge>
    var nodeStates: seq<OrderNode>
    var edgeStates: seq<OrderEdge>
    var nodeIndex: nat
    var edgeIndex: int
    var lastNode: Option<NodeId>
    var orderId: int
    var updateId: int
    var active: bool
    var paused: bool
    var cancelled: bool
    var driving: bool
    var newBaseRequest: bool
    /** An order was taken and not cancelled; an arrival is waiting for its actions; and
        no order was taken while one did. */
    ghost var engaged: bool
    ghost var arriving: bool
    ghost var undisturbed: bool

    ghost function View(): Progress
      reads this
    {
      Progress(nodes, edges, nodeStates, edgeStates, nodeIndex, edgeIndex)
    }

    /** What is published is what is left, as long as no order comes in during an arrival; after that
        the robot is off the track, at the latest when the arrival is over. */
    ghost predicate Valid()
      reads this
    {
      && (engaged && undisturbed && !arriving ==> OnTrack(View()))
      && (engaged && undisturbed && arriving ==> AtNode(View()))
      && (engaged && !undisturbed && !arriving ==> Derailed(View()))
      && (engaged && !undisturbed && arriving ==> Derailed(View()) || (OnTrack(View()) && nodeIndex < |nodes|))
      && (active && !cancelled ==> engaged)
    }

    constructor ()
      ensures Valid() && !engaged && !arriving && undisturbed && !active
      ensures nodeStates == [] && edgeStates == [] && lastNode == None
    {
      nodes, edges, nodeStates, edgeStates := [], [], [], [];
      nodeIndex, edgeIndex := 0, 0;
      lastNode := None;
      orderId, updateId := 0, 0;
      active, paused, cancelled, driving, newBaseRequest := false, false, false, false, false;
      engaged, arriving, undisturbed := false, false, true;
    }

    method ApplyOrder(id: int, update: int, newNodes: seq<OrderNode>, newEdges: seq<OrderEdge>, geometry: Geometry)
      returns (passed: nat)
      requires Valid() && newNodes != [] && Sequenced(newNodes, newEdges)
      modifies this
      ensures Valid() && engaged && active && !cancelled && !paused && arriving == old(arriving)
      ensures undisturbed == !old(arriving) && orderId == id && updateId == update
      ensures passed < |newNodes| && View() == Applied(newNodes, newEdges, passed)
      ensures nodes == newNodes && edges == newEdges
      ensures forall i :: 0 <= i < passed ==> CountsAsPassed(newNodes, old(lastNode), geometry, i)
      ensures passed + 1 < |newNodes| ==> !CountsAsPassed(newNodes, old(lastNode), geometry, passed)
      ensures lastNode == if passed == 0 then old(lastNode) else Some(newNodes[passed - 1].node)
      ensures driving == newNodes[passed].released && newBaseRequest == !newNodes[passed].released
    {
      hide OnTrack, AtNode, Derailed, Sequenced, CountsAsPassed, Applied;
      passed := LeadingPassed(newNodes, lastNode, geometry);
      PassedAreReleased(newNodes, lastNode, geometry, passed);
      TakeOrder(id, update, newNodes, newEdges, passed);
    }

    method TakeOrder(id: int, update: int, newNodes: seq<OrderNode>, newEdges: seq<OrderEdge>, passed: nat)
      requires Valid() && Sequenced(newNodes, newEdges) && passed < |newNodes|
      requires forall i :: 0 <= i < passed ==> newNodes[i].released
      modifies this
      ensures Valid() && engaged && active && !cancelled && !paused && arriving == old(arriving)
      ensures undisturbed == !old(arriving) && orderId == id && updateId == update
      ensures View() == Applied(newNodes, newEdges, passed) && nodes == newNodes && edges == newEdges
      ensures lastNode == if passed == 0 then old(lastNode) else Some(newNodes[passed - 1].node)
      ensures driving == newNodes[passed].released && newBaseRequest == !newNodes[passed].released
    {
      hide OnTrack, AtNode, Derailed, Sequenced;
      AppliedOnTrack(newNodes, newEdges, passed);
      LoadOrder(newNodes, newEdges, passed);
      if passed > 0 {
        lastNode := Some(newNodes[passed - 1].node);
      }
      StartDriving(id, update, newNodes[passed].released);
    }

    /** `released` tells whether the next node may be driven to. */
    method StartDriving(id: int, update: int, released: bool)
      modifies `orderId, `updateId, `cancelled, `paused, `active, `driving, `newBaseRequest, `engaged, `undisturbed
      ensures orderId == id && updateId == update && active && !cancelled && !paused
      ensures driving == released && newBaseRequest == !released && engaged && undisturbed == !arriving
    {
      orderId, updateId := id, update;
      cancelled, paused, active := false, false, true;
      driving, newBaseRequest := released, !released;
      engaged, undisturbed := true, !arriving;
    }

    /** Take over the lists of an order whose first `passed` nodes lie behind the robot. */
    method LoadOrder(newNodes: seq<OrderNode>, newEdges: seq<OrderEdge>, passed: nat)
      requires passed <= |newNodes|
      modifies `nodes, `edges, `nodeStates, `edgeStates, `nodeIndex, `edgeIndex
      ensures View() == Applied(newNodes, newEdges, passed) && nodes == newNodes && edges == newEdges
    {
      hide NodesWithout, EdgesWithout, Numbers, EdgeNumbers;
      nodes, edges, nodeStates, edgeStates := newNodes, newEdges, newNodes, newEdges;
      if passed > 0 {
        nodeStates := NodesWithout(nodeStates, Numbers(nodes[..passed]));
        var done := EdgeNumbers(edges[..if passed - 1 <= |edges| then passed - 1 else |edges|]);
        if done != {} {
          edgeStates := EdgesWithout(edgeStates, done);
        }
        nodeIndex, edgeIndex := passed, passed - 1;
      } else {
        nodeIndex, edgeIndex := 0, -1;
      }
    }

    method CancelOrder()
      requires Valid()
      modifies this
      ensures Valid() && cancelled && !active && nodeStates == [] && edgeStates == []
      ensures arriving == old(arriving)
    {
      cancelled, active, paused, driving := true, false, false, false;
      nodeStates, edgeStates := [], [];
      orderId, updateId := 0, 0;
      newBaseRequest := false;
      engaged := false;
    }

    /** One round of the navigation loop, up to the node's actions. `ready` tells that the
        maps are loaded, `blocked` that an obstacle stops the robot, and `reached` that the
        target has been reached and faced. */
    method NavigationTick(ready: bool, blocked: bool, reached: bool) returns (arrived: bool)
      requires Valid() && !arriving
      modifies this
      ensures Valid() && arriving == arrived && undisturbed == old(undisturbed)
      ensures arrived <==>
                && old(active && !paused && !cancelled) && ready && !blocked
                && old(nodeIndex) < |old(nodes)| && old(nodes)[old(nodeIndex)].released
                && (!old(nodes)[old(nodeIndex)].positioned || reached)
      ensures arrived ==>
                && View() == Arriving(old(View())) && lastNode == Some(old(nodes)[old(nodeIndex)].node)
      ensures !arrived ==> View() == old(View()) && lastNode == old(lastNode)
      ensures old(active && !paused && !cancelled) && ready ==>
                && active == (old(nodeIndex) < |old(nodes)|)
                && driving == (active && old(nodes)[old(nodeIndex)].released)
                && (active ==> newBaseRequest == !driving)
    {
      arrived := false;
      if !active || paused || cancelled {
        if paused && active {
          driving := false;
        }
        return;
      }
      if !ready {
        driving := false;
        return;
      }
      if nodeIndex >= |nodes| {
        active, driving := false, false;
        return;
      }
      var target := nodes[nodeIndex];
      if !target.released {
        newBaseRequest, driving := true, false;
        return;
      }
      newBaseRequest, driving := false, true;
      if blocked {
        return;
      }
      if !target.positioned || reached {
        BeginArrival(target);
        arrived := true;
      }
    }

    method BeginArrival(target: OrderNode)
      requires Valid() && !arriving && engaged && nodeIndex < |nodes| && target == nodes[nodeIndex] && target.released
      modifies this
      ensures Valid() && arriving && View() == Arriving(old(View())) && lastNode == Some(target.node)
      ensures undisturbed == old(undisturbed)
      ensures active == old(active) && driving == old(driving) && newBaseRequest == old(newBaseRequest)
    {
      hide OnTrack, AtNode, Derailed, NodesWithout, EdgesWithout;
      if undisturbed {
        ArrivingAtNode(View());
      } else {
        DerailedStays(View());
      }
      nodeStates := NodesWithout(nodeStates, {target.sequence});
      if 0 <= edgeIndex < |edges| {
        edgeStates := EdgesWithout(edgeStates, {edges[edgeIndex].sequence});
      }
      lastNode := Some(target.node);
      arriving := true;
    }

    /** The actions of the node are over. */
    method FinishArrival()
      requires Valid() && arriving
      modifies this
      ensures Valid() && !arriving && undisturbed == old(undisturbed)
      ensures View() == Arrived(old(View()))
      ensures var finished := nodeIndex >= |nodes| && forall n :: n in nodeStates ==> !n.released;
              active == (old(active) && !finished) && driving == (old(driving) && !finished)
    {
      hide OnTrack, AtNode, Derailed;
      if engaged && undisturbed {
        ArrivedOnTrack(View());
      } else if engaged && Derailed(View()) {
        DerailedStays(View());
      } else if engaged {
        SpoiltIsDerailed(View());
      }
      nodeIndex, edgeIndex := nodeIndex + 1, edgeIndex + 1;
      arriving := false;
      var base := false;
      for i := 0 to |nodeStates|
        invariant View() == Arrived(old(View())) && active == old(active) && driving == old(driving)
        invariant base <==> exists k :: 0 <= k < i && nodeStates[k].released
      {
        base := base || nodeStates[i].released;
      }
      if !base && nodeIndex >= |nodes| {
        driving, active := false, false;
      }
    }
  }

  /** While an order is being driven, its progress is right exactly if the order was not taken during an
      arrival. */
  lemma ProgressExactly(robot: Robot)
    requires robot.Valid() && robot.engaged
    ensures robot.undisturbed <==> if robot.arriving then AtNode(robot.View()) else OnTrack(robot.View())
  {
    hide OnTrack, AtNode, Derailed;
    if Derailed(robot.View()) {
      DerailedStays(robot.View());
    } else if !robot.undisturbed {
      SpoiltIsDerailed(robot.View());
    }
  }

  // ----- The order manager ---------------------------------------------------------------------------

  datatype Order = Order(id: int, update: int, nodes: seq<OrderNode>, edges: seq<OrderEdge>)

  datatype Level = Fatal | Warning

  /** State `i` is the last of the released ones. */
  ghost predicate LastReleased(states: seq<OrderNode>, i: int) {
    0 <= i < |states| && states[i].released && forall k :: i < k < |states| ==> !states[k].released
  }

  /** The new order connects to where the robot is, or to the last released node it has left, if there is one. */
  ghost predicate Stitches(last: Option<NodeId>, states: seq<OrderNode>, first: NodeId) {
    last.None? || last == Some(first) || forall i :: LastReleased(states, i) ==> states[i].node == first
  }

  function LastBase(states: seq<OrderNode>): Option<NodeId> {
    if states == [] then None
    else if states[|states| - 1].released then Some(states[|states| - 1].node)
    else LastBase(states[..|states| - 1])
  }

  /** The end of the base is the node of the last released state, if any state is released. */
  lemma {:induction false} LastBaseExactly(states: seq<OrderNode>)
    ensures forall i :: LastReleased(states, i) ==> LastBase(states) == Some(states[i].node)
    ensures LastBase(states).Some? ==> exists i :: LastReleased(states, i)
    ensures LastBase(states) == None <==> forall i :: 0 <= i < |states| ==> !states[i].released
  {
    if states != [] {
      var front, last := states[..|states| - 1], |states| - 1;
      if states[last].released {
        assert LastReleased(states, last);
      } else {
        LastBaseExactly(front);
        assert forall i :: LastReleased(states, i) <==> LastReleased(front, i);
        assert forall i :: 0 <= i < |front| ==> front[i] == states[i];
      }
    }
  }

  /** The receiver takes the order. */
  ghost predicate Acceptable(current: Option<Order>, last: Option<NodeId>, states: seq<OrderNode>, order: Order) {
    && order.nodes != []
    && (if current.None? || order.id != current.value.id then order.nodes[0].positioned
        else order.update > current.value.update && Stitches(last, states, order.nodes[0].node))
    && InSequence(order)
  }

  /** No order at all, one without nodes, or a new one that does not say where it starts. */
  predicate Unusable(current: Option<Order>, payload: Option<Order>) {
    || payload.None? || payload.value.nodes == []
    || ((current.None? || payload.value.id != current.value.id) && !payload.value.nodes[0].positioned)
  }

  predicate InSequence(order: Order)
    requires order.nodes != []
  {
    && (forall i :: 0 <= i < |order.nodes| ==> order.nodes[i].sequence == order.nodes[0].sequence + 2 * i)
    && (forall i :: 0 <= i < |order.edges| ==> order.edges[i].sequence == order.nodes[0].sequence + 2 * i + 1)
  }

  /** An unusable order is never taken, and one that is usable is taken unless it is an update that is not newer or does not
      connect, or its numbers are wrong. */
  lemma RefusedExactly(current: Option<Order>, last: Option<NodeId>, states: seq<OrderNode>, order: Order)
    ensures Unusable(current, Some(order)) ==> !Acceptable(current, last, states, order)
    ensures !Unusable(current, Some(order)) ==>
              order.nodes != [] &&
              (!Acceptable(current, last, states, order) <==>
               || (current.Some? && order.id == current.value.id && order.update <= current.value.update)
               || (current.Some? && order.id == current.value.id && !Stitches(last, states, order.nodes[0].node))
               || !Sequenced(order.nodes, order.edges))
    ensures Unusable(current, None)
  {
  }

  class OrderManager {
    const robot: Robot
    var current: Option<Order>
    var errors: seq<Level>
    /** The orders accepted since the last cancellation. */
    ghost var accepted: seq<Order>

    ghost predicate Valid()
      reads this, robot
    {
      && robot.Valid()
      && (current.None? <==> accepted == [])
      && (current.Some? ==> accepted[|accepted| - 1] == current.value)
      && Increasing(accepted)
    }

    constructor (robot: Robot)
      requires robot.Valid()
      ensures Valid() && this.robot == robot && current == None && errors == [] && accepted == []
    {
      this.robot := robot;
      current, errors, accepted := None, [], [];
    }

    method ValidateSequence(order: Order) returns (ok: bool)
      requires order.nodes != []
      modifies `errors
      ensures ok <==> InSequence(order)
      ensures errors == old(errors) + (if ok then [] else [Warning])
    {
      var first := order.nodes[0].sequence;
      for i := 0 to |order.nodes|
        invariant errors == old(errors)
        invariant forall k :: 0 <= k < i ==> order.nodes[k].sequence == first + 2 * k
      {
        if order.nodes[i].sequence != first + 2 * i {
          errors := errors + [Warning];
          return false;
        }
      }
      for i := 0 to |order.edges|
        invariant errors == old(errors)
        invariant forall k :: 0 <= k < i ==> order.edges[k].sequence == first + 2 * k + 1
      {
        if order.edges[i].sequence != first + 2 * i + 1 {
          errors := errors + [Warning];
          return false;
        }
      }
      return true;
    }

    method ValidateStitching(order: Order) returns (ok: bool)
      requires order.nodes != []
      modifies `errors
      ensures ok <==> Stitches(robot.lastNode, robot.nodeStates, order.nodes[0].node)
      ensures errors == old(errors) + (if ok then [] else [Warning])
    {
      var first := order.nodes[0].node;
      LastBaseExactly(robot.nodeStates);
      if robot.lastNode.Some? && robot.lastNode != Some(first) {
        var base := LastBase(robot.nodeStates);
        if base.Some? && base != Some(first) {
          errors := errors + [Warning];
          return false;
        }
      }
      return true;
    }

    /** Take the order or refuse it with exactly one error, a fatal one if it is unusable in itself; a
        refused order changes nothing else. A payload that cannot be parsed is no order. */
    method ProcessOrder(payload: Option<Order>, geometry: Geometry) returns (ok: bool)
      requires Valid()
      modifies this, robot
      ensures Valid()
      ensures ok <==> payload.Some? && Acceptable(old(current), old(robot.lastNode), old(robot.nodeStates), payload.value)
      ensures ok ==> current == payload && errors == old(errors) && accepted == old(accepted) + [payload.value]
      ensures ok ==> robot.nodes == payload.value.nodes
      ensures ok ==> robot.orderId == payload.value.id && robot.updateId == payload.value.update
      ensures !ok ==> current == old(current) && accepted == old(accepted) && unchanged(robot)
      ensures !ok ==> errors == old(errors) + [if Unusable(old(current), payload) then Fatal else Warning]
    {
      hide Increasing, OnTrack, AtNode, Derailed, Stitches, LastBase, Applied, CountsAsPassed, Sequenced;
      if payload == None {
        errors := errors + [Fatal];
        return false;
      }
      var order := payload.value;
      if order.nodes == [] {
        errors := errors + [Fatal];
        return false;
      }
      if current == None || order.id != current.value.id {
        if !order.nodes[0].positioned {
          errors := errors + [Fatal];
          return false;
        }
      } else {
        if order.update <= current.value.update {
          errors := errors + [Warning];
          return false;
        }
        ok := ValidateStitching(order);
        if !ok {
          return;
        }
      }
      ok := ValidateSequence(order);
      if !ok {
        return;
      }
      IncreasingSnoc(accepted, order);
      InSequenceIs(order);
      current := Some(order);
      accepted := accepted + [order];
      var passed := robot.ApplyOrder(order.id, order.update, order.nodes, order.edges, geometry);
    }

    method CancelOrder()
      requires Valid()
      modifies this, robot
      ensures Valid() && current == None && accepted == []
      ensures robot.cancelled && robot.nodeStates == []
    {
      robot.CancelOrder();
      current, accepted := None, [];
    }
  }

  /** Between cancellations, consecutive accepted orders with one id have increasing
      update ids. */
  ghost predicate Increasing(accepted: seq<Order>) {
    forall i :: 0 <= i < |accepted| - 1 && accepted[i].id == accepted[i + 1].id ==>
      accepted[i].update < accepted[i + 1].update
  }

  lemma InSequenceIs(order: Order)
    requires order.nodes != [] && InSequence(order)
    ensures Sequenced(order.nodes, order.edges)
  {
  }

  lemma IncreasingSnoc(accepted: seq<Order>, order: Order)
    requires Increasing(accepted)
    requires accepted != [] && accepted[|accepted| - 1].id == order.id ==> accepted[|accepted| - 1].update < order.update
    ensures Increasing(accepted + [order])
  {
  }

  lemma EdgesInSequence(lanes: seq<Lane>, path: seq<NodeId>, base: int, first: int, order: Order)
    requires path != [] && OrderFor(order.nodes, order.edges, path, base, first, lanes)
    ensures forall i :: 0 <= i < |order.edges| ==> order.edges[i].sequence == first + 2 * i + 1
  {
    forall i | 0 <= i < |order.edges| ensures order.edges[i].sequence == first + 2 * i + 1 {
      assert order.edges[i]
          == OrderEdge(EdgeFor(lanes, path[i], path[i + 1]), first + 2 * i + 1, i < base, path[i], path[i + 1]);
    }
  }

  /** An order built for a shortest path through the graph of the lanes is taken as a new order,
      whatever the receiver was doing. */
  lemma BuiltOrderIsAccepted(
    known: set<NodeId>, lanes: seq<Lane>, path: seq<NodeId>, base: int, first: int, order: Order,
    current: Option<Order>, last: Option<NodeId>, states: seq<OrderNode>)
    requires path != [] && OrderFor(order.nodes, order.edges, path, base, first, lanes)
    requires current.None? || current.value.id != order.id
    ensures Acceptable(current, last, states, order)
  {
    assert order.nodes[0] == OrderNode(path[0], first, 0 <= base, true);
    EdgesInSequence(lanes, path, base, first, order);
  }
}
