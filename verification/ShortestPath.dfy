/** The navigation graph and its shortest paths: Dijkstra's algorithm with a heap from
    which outdated entries are skipped when they surface. Weights are real numbers;
    the rounding of floats is not part of this model. */
module ShortestPaths {
  import opened Models

  datatype Arc = Arc(to: NodeId, weight: real)

  type Adjacency = map<NodeId, seq<Arc>>

  /** No weight is negative, and every arc leads to a node of the graph. */
  ghost predicate Proper(adj: Adjacency) {
    forall u, a :: u in adj && a in adj[u] ==> a.weight >= 0.0 && a.to in adj
  }

  // ----- Walks ------------------------------------------------------------------------

  predicate IsWalk(adj: Adjacency, start: NodeId, walk: seq<Arc>)
    decreases |walk|
  {
    walk != [] ==> start in adj && walk[0] in adj[start] && IsWalk(adj, walk[0].to, walk[1..])
  }

  function End(start: NodeId, walk: seq<Arc>): NodeId
    decreases |walk|
  {
    if walk == [] then start else End(walk[0].to, walk[1..])
  }

  function Length(walk: seq<Arc>): real {
    if walk == [] then 0.0 else walk[0].weight + Length(walk[1..])
  }

  /** The nodes that a walk visits, in order. */
  function Stops(start: NodeId, walk: seq<Arc>): seq<NodeId>
    decreases |walk|
  {
    if walk == [] then [start] else [start] + Stops(walk[0].to, walk[1..])
  }

  lemma {:induction false} PrependArc(adj: Adjacency, u: NodeId, a: Arc, walk: seq<Arc>)
    requires u in adj && a in adj[u] && IsWalk(adj, a.to, walk)
    ensures IsWalk(adj, u, [a] + walk) && End(u, [a] + walk) == End(a.to, walk)
    ensures Length([a] + walk) == a.weight + Length(walk)
    ensures Stops(u, [a] + walk) == [u] + Stops(a.to, walk)
  {
  }

  lemma {:induction false} LengthNonNegative(adj: Adjacency, start: NodeId, walk: seq<Arc>)
    requires Proper(adj) && IsWalk(adj, start, walk)
    ensures Length(walk) >= 0.0
    decreases |walk|
  {
    if walk != [] {
      LengthNonNegative(adj, walk[0].to, walk[1..]);
    }
  }

  // ----- The search ---------------------------------------------------------------------

  datatype Entry = Entry(cost: real, node: NodeId) {
    /** Entries surface cheapest first, and by name among the equally cheap. */
    predicate Before(other: Entry) {
      cost < other.cost || (cost == other.cost && node <= other.node)
    }
  }

  /** The ends of the arcs that leave the settled nodes have been costed. */
  ghost predicate Relaxed(adj: Adjacency, costs: map<NodeId, real>, u: NodeId, count: nat) {
    && u in adj && u in costs && count <= |adj[u]|
    && forall i :: 0 <= i < count ==>
         adj[u][i].to in costs && costs[adj[u][i].to] <= costs[u] + adj[u][i].weight
  }

  /** Every costed node but the start has a settled predecessor, from which its cost comes;
      settled nodes were settled after their predecessors. */
  ghost predicate Traced(
    adj: Adjacency, start: NodeId, costs: map<NodeId, real>, previous: map<NodeId, NodeId>, rank: map<NodeId, nat>)
  {
    && start in costs && costs[start] == 0.0 && start !in previous
    && (forall v :: v in costs ==> v in adj && costs[v] >= 0.0)
    && (forall v :: v in rank ==> v in costs)
    && (forall v :: v in previous <==> v in costs && v != start)
    && (forall v :: v in previous ==> ComesFrom(adj, costs, rank, v, previous[v]))
  }

  ghost predicate ComesFrom(adj: Adjacency, costs: map<NodeId, real>, rank: map<NodeId, nat>, v: NodeId, u: NodeId) {
    && u in rank && u in costs && v in costs && u in adj
    && (v in rank ==> rank[u] < rank[v])
    && exists a :: a in adj[u] && a.to == v && costs[v] == costs[u] + a.weight
  }

  /** The heap holds the current cost of every unsettled node, and otherwise only outdated
      entries, none cheaper than a settled node. */
  ghost predicate Queued(costs: map<NodeId, real>, rank: map<NodeId, nat>, queue: multiset<Entry>) {
    && (forall v :: v in costs && v !in rank ==> Entry(costs[v], v) in queue)
    && (forall e :: e in queue ==> queue[e] == 1 && e.node in costs && e.cost >= costs[e.node])
    && (forall v :: v in rank && v in costs ==> Entry(costs[v], v) !in queue)
    && (forall u, e :: u in rank && u in costs && e in queue ==> costs[u] <= e.cost)
  }

  /** Nothing cheaper than `bound` is outside the settled nodes, so no walk that leaves
      them is. */
  lemma {:induction false} NoShorterWalk(
    adj: Adjacency, costs: map<NodeId, real>, rank: map<NodeId, nat>, u: NodeId, walk: seq<Arc>, bound: real)
    requires Proper(adj) && u in costs && IsWalk(adj, u, walk) && End(u, walk) !in rank
    requires forall v :: v in rank ==> v in adj && Relaxed(adj, costs, v, |adj[v]|)
    requires forall v :: v in costs && v !in rank ==> costs[v] >= bound
    ensures costs[u] + Length(walk) >= bound
    decreases |walk|
  {
    if u !in rank {
      LengthNonNegative(adj, u, walk);
    } else {
      var i :| 0 <= i < |adj[u]| && adj[u][i] == walk[0];
      assert Relaxed(adj, costs, u, |adj[u]|);
      NoShorterWalk(adj, costs, rank, walk[0].to, walk[1..], bound);
    }
  }

  /** When everything costed is settled, walks stay among the settled nodes. */
  lemma {:induction false} WalksStaySettled(
    adj: Adjacency, costs: map<NodeId, real>, rank: map<NodeId, nat>, u: NodeId, walk: seq<Arc>)
    requires IsWalk(adj, u, walk) && u in rank
    requires forall v :: v in rank ==> v in adj && Relaxed(adj, costs, v, |adj[v]|)
    requires forall v :: v in costs ==> v in rank
    ensures End(u, walk) in rank
    decreases |walk|
  {
    if walk != [] {
      var i :| 0 <= i < |adj[u]| && adj[u][i] == walk[0];
      assert Relaxed(adj, costs, u, |adj[u]|);
      WalksStaySettled(adj, costs, rank, walk[0].to, walk[1..]);
    }
  }

  lemma CheapestExists(queue: multiset<Entry>)
    requires |queue| > 0
    ensures exists e :: e in queue && forall f :: f in queue ==> e.Before(f)
    decreases |queue|
  {
    var e :| e in queue;
    var rest := queue - multiset{e};
    assert forall f :: f in queue ==> f == e || f in rest;
    if |rest| > 0 {
      CheapestExists(rest);
      var c :| c in rest && forall f :: f in rest ==> c.Before(f);
      CheaperOf(queue, rest, e, c);
    }
  }

  lemma CheaperOf(queue: multiset<Entry>, rest: multiset<Entry>, e: Entry, c: Entry)
    requires e in queue && c in queue && forall f :: f in queue ==> f == e || f in rest
    requires forall f :: f in rest ==> c.Before(f)
    ensures exists m :: m in queue && forall f :: f in queue ==> m.Before(f)
  {
  }

  // ----- The graph ------------------------------------------------------------------------

  class DirectedGraph {
    var adjacency: Adjacency
    var edges: set<(NodeId, NodeId)>

    ghost predicate Valid()
      reads this
    {
      Proper(adjacency)
    }

    constructor ()
      ensures Valid() && adjacency == map[] && edges == {}
    {
      adjacency := map[];
      edges := {};
    }

    method AddEdge(start: NodeId, end: NodeId, weight: real)
      requires Valid() && weight >= 0.0
      modifies this
      ensures Valid() && edges == old(edges) + {(start, end)}
      ensures forall u :: u in adjacency <==> u in old(adjacency) || u == start || u == end
      ensures forall u :: u in adjacency ==>
                adjacency[u] == (if u in old(adjacency) then old(adjacency)[u] else [])
                                + (if u == start then [Arc(end, weight)] else [])
    {
      if start !in adjacency {
        adjacency := adjacency[start := []];
      }
      adjacency := adjacency[start := adjacency[start] + [Arc(end, weight)]];
      if end !in adjacency {
        adjacency := adjacency[end := []];
      }
      edges := edges + {(start, end)};
    }

    /** One node has been settled: look at each arc that leaves it. */
    method Relax(node: NodeId, start: NodeId, costs0: map<NodeId, real>, previous0: map<NodeId, NodeId>,
        queue0: multiset<Entry>, ghost rank: map<NodeId, nat>)
      returns (costs: map<NodeId, real>, previous: map<NodeId, NodeId>, queue: multiset<Entry>)
      requires Valid() && node in rank && node in adjacency && node in costs0
      requires Books(adjacency, start, costs0, previous0, rank, queue0)
      requires RelaxedExcept(adjacency, costs0, rank, node) && SettledFirst(costs0, rank, node)
      ensures Books(adjacency, start, costs, previous, rank, queue)
      ensures forall v :: v in rank ==> v in adjacency && Relaxed(adjacency, costs, v, |adjacency[v]|)
      ensures forall v :: v in rank ==> v in costs && costs[v] == costs0[v]
    {
      hide Books, RelaxedExcept, Relaxed;
      costs, previous, queue := costs0, previous0, queue0;
      RelaxedNone(adjacency, costs, node);
      var arcs := adjacency[node];
      for i := 0 to |arcs|
        invariant Books(adjacency, start, costs, previous, rank, queue)
        invariant RelaxedExcept(adjacency, costs, rank, node) && Relaxed(adjacency, costs, node, i)
        invariant forall v :: v in rank ==> v in costs && costs[v] == costs0[v]
      {
        var next, cost := arcs[i].to, costs[node] + arcs[i].weight;
        if next !in costs || cost < costs[next] {
          Lowered(adjacency, start, costs, previous, queue, rank, node, i);
          costs := costs[next := cost];
          previous := previous[next := node];
          queue := queue + multiset{Entry(cost, next)};
        } else {
          RelaxedOneMore(adjacency, costs, node, i);
        }
      }
      AllRelaxed(adjacency, costs, rank, node);
    }

    /** Follow the predecessors back from the goal. `rank` shows that they never go round
        in a circle, not even along arcs of weight zero. */
    method TracePath(start: NodeId, goal: NodeId, ghost costs: map<NodeId, real>, previous: map<NodeId, NodeId>,
        ghost rank: map<NodeId, nat>, ghost count: nat)
      returns (path: seq<NodeId>, ghost walk: seq<Arc>)
      requires Valid() && Traced(adjacency, start, costs, previous, rank) && goal in costs && goal !in rank
      requires forall v :: v in rank ==> rank[v] < count
      ensures IsWalk(adjacency, start, walk) && End(start, walk) == goal && Length(walk) == costs[goal]
      ensures path == Stops(start, walk) && Distinct(path)
    {
      path := [goal];
      walk := [];
      while path[0] != start
        invariant path != [] && path[0] in costs && (path[0] == goal || path[0] in rank)
        invariant IsWalk(adjacency, path[0], walk) && End(path[0], walk) == goal
        invariant Length(walk) == costs[goal] - costs[path[0]] && path == Stops(path[0], walk)
        invariant Distinct(path)
        invariant forall v :: v in path[1..] ==> v == goal || (v in rank && path[0] in rank && rank[path[0]] < rank[v])
        invariant path[0] == goal ==> path == [goal]
        decreases if path[0] in rank then rank[path[0]] else count
      {
        var v, u := path[0], previous[path[0]];
        assert ComesFrom(adjacency, costs, rank, v, u);
        ghost var a :| a in adjacency[u] && a.to == v && costs[v] == costs[u] + a.weight;
        PrependArc(adjacency, u, a, walk);
        EarlierIsNew(rank, goal, path, u);
        walk := [a] + walk;
        path := [u] + path;
      }
    }

    /** A shortest path from `start` to `goal`, or none if there is no way. */
    method ComputePath(start: NodeId, goal: NodeId) returns (path: Option<seq<NodeId>>)
      requires Valid()
      ensures path.Some? ==> IsShortestPath(adjacency, start, goal, path.value)
      ensures path.None? <==>
                start !in adjacency || goal !in adjacency
                || forall walk :: IsWalk(adjacency, start, walk) ==> End(start, walk) != goal
    {
      if start !in adjacency || goal !in adjacency {
        return None;
      }
      var queue := multiset{Entry(0.0, start)};
      var costs: map<NodeId, real> := map[start := 0.0];
      var previous: map<NodeId, NodeId> := map[];
      ghost var rank: map<NodeId, nat> := map[];
      ghost var count: nat := 0;
      while |queue| > 0
        invariant Books(adjacency, start, costs, previous, rank, queue)
        invariant forall v :: v in rank ==> v in adjacency && Relaxed(adjacency, costs, v, |adjacency[v]|)
        invariant (forall v :: v in rank ==> rank[v] < count) && goal !in rank
        decreases adjacency.Keys - rank.Keys, |queue|
      {
        hide Books, Relaxed, Traced, Queued, IsWalk, End, Length, Stops, IsShortestPath;
        CheapestExists(queue);
        var e :| e in queue && forall f :: f in queue ==> e.Before(f);
        EntryKnown(adjacency, start, costs, previous, rank, queue, e);
        if e.cost != costs[e.node] {
          SkipOutdated(adjacency, start, costs, previous, rank, queue, e);
          queue := queue - multiset{e};
        } else if e.node == goal {
          ghost var walk;
          var found: seq<NodeId>;
          BooksTraced(adjacency, start, costs, previous, rank, queue);
          found, walk := TracePath(start, goal, costs, previous, rank, count);
          GoalIsOptimal(adjacency, start, goal, costs, previous, rank, queue, e, found, walk);
          return Some(found);
        } else {
          Settle(adjacency, start, costs, previous, rank, queue, e, count);
          queue := queue - multiset{e};
          rank := rank[e.node := count];
          count := count + 1;
          costs, previous, queue := Relax(e.node, start, costs, previous, queue, rank);
        }
      }
      NothingLeft(adjacency, start, goal, costs, previous, rank, queue);
      return None;
    }
  }

  predicate Distinct(path: seq<NodeId>) {
    forall i, j :: 0 <= i < j < |path| ==> path[i] != path[j]
  }

  /** A walk without repeated nodes, no longer than any other walk to the goal. */
  ghost predicate IsShortestPath(adj: Adjacency, start: NodeId, goal: NodeId, path: seq<NodeId>) {
    && Distinct(path)
    && exists walk ::
         && IsWalk(adj, start, walk) && End(start, walk) == goal && Stops(start, walk) == path
         && forall other :: IsWalk(adj, start, other) && End(start, other) == goal ==> Length(walk) <= Length(other)
  }

  lemma EarlierIsNew(rank: map<NodeId, nat>, goal: NodeId, path: seq<NodeId>, u: NodeId)
    requires path != [] && Distinct(path) && u in rank && goal !in rank
    requires path[0] in rank ==> rank[u] < rank[path[0]]
    requires path[0] == goal || path[0] in rank
    requires forall v :: v in path[1..] ==> v == goal || (v in rank && path[0] in rank && rank[path[0]] < rank[v])
    ensures Distinct([u] + path)
    ensures forall v :: v in path ==> v == goal || (v in rank && rank[u] < rank[v])
  {
  }

  // ----- The books of the search ---------------------------------------------------------------

  ghost predicate Books(adj: Adjacency, start: NodeId, costs: map<NodeId, real>, previous: map<NodeId, NodeId>,
    rank: map<NodeId, nat>, queue: multiset<Entry>)
  {
    Traced(adj, start, costs, previous, rank) && Queued(costs, rank, queue)
  }

  ghost predicate RelaxedExcept(adj: Adjacency, costs: map<NodeId, real>, rank: map<NodeId, nat>, node: NodeId) {
    forall v :: v in rank && v != node ==> v in adj && Relaxed(adj, costs, v, |adj[v]|)
  }

  /** The node was settled last: no settled node costs more. */
  ghost predicate SettledFirst(costs: map<NodeId, real>, rank: map<NodeId, nat>, node: NodeId)
    requires node in costs
  {
    forall v :: v in rank ==> v in costs && costs[v] <= costs[node]
  }

  lemma RelaxedNone(adj: Adjacency, costs: map<NodeId, real>, node: NodeId)
    requires node in adj && node in costs
    ensures Relaxed(adj, costs, node, 0)
  {
  }

  lemma RelaxedOneMore(adj: Adjacency, costs: map<NodeId, real>, node: NodeId, i: nat)
    requires Relaxed(adj, costs, node, i) && node in adj && i < |adj[node]| && node in costs
    requires adj[node][i].to in costs && costs[adj[node][i].to] <= costs[node] + adj[node][i].weight
    ensures Relaxed(adj, costs, node, i + 1)
  {
  }

  lemma AllRelaxed(adj: Adjacency, costs: map<NodeId, real>, rank: map<NodeId, nat>, node: NodeId)
    requires node in adj && RelaxedExcept(adj, costs, rank, node) && Relaxed(adj, costs, node, |adj[node]|)
    ensures forall v :: v in rank ==> v in adj && Relaxed(adj, costs, v, |adj[v]|)
  {
  }

  lemma LoweredTraced(adj: Adjacency, start: NodeId, costs: map<NodeId, real>, previous: map<NodeId, NodeId>,
    rank: map<NodeId, nat>, node: NodeId, a: Arc)
    requires Proper(adj) && Traced(adj, start, costs, previous, rank)
    requires node in rank && node in costs && node in adj && a in adj[node] && a.to !in rank
    requires a.to !in costs || costs[node] + a.weight < costs[a.to]
    ensures Traced(adj, start, costs[a.to := costs[node] + a.weight], previous[a.to := node], rank)
  {
  }

  lemma LoweredQueued(costs: map<NodeId, real>, queue: multiset<Entry>, rank: map<NodeId, nat>, node: NodeId, a: Arc)
    requires Queued(costs, rank, queue) && node in rank && node in costs && a.weight >= 0.0 && a.to !in rank
    requires SettledFirst(costs, rank, node)
    requires a.to !in costs || costs[node] + a.weight < costs[a.to]
    ensures Queued(costs[a.to := costs[node] + a.weight], rank, queue + multiset{Entry(costs[node] + a.weight, a.to)})
  {
  }

  lemma LoweredRelaxed(adj: Adjacency, costs: map<NodeId, real>, rank: map<NodeId, nat>, node: NodeId, i: nat)
    requires RelaxedExcept(adj, costs, rank, node) && Relaxed(adj, costs, node, i) && node in rank
    requires node in adj && i < |adj[node]| && node in costs
    requires var a := adj[node][i]; a.to !in rank && (a.to !in costs || costs[node] + a.weight < costs[a.to])
    ensures var a := adj[node][i];
            var after := costs[a.to := costs[node] + a.weight];
            RelaxedExcept(adj, after, rank, node) && Relaxed(adj, after, node, i + 1)
  {
  }

  /** A cheaper way to the end of an arc keeps the books, and never concerns a settled
      node. */
  lemma Lowered(adj: Adjacency, start: NodeId, costs: map<NodeId, real>, previous: map<NodeId, NodeId>,
    queue: multiset<Entry>, rank: map<NodeId, nat>, node: NodeId, i: nat)
    requires Proper(adj) && Books(adj, start, costs, previous, rank, queue)
    requires node in rank && node in costs && node in adj && i < |adj[node]|
    requires RelaxedExcept(adj, costs, rank, node) && Relaxed(adj, costs, node, i) && SettledFirst(costs, rank, node)
    requires var a := adj[node][i]; a.to !in costs || costs[node] + a.weight < costs[a.to]
    ensures var a := adj[node][i];
            var after := costs[a.to := costs[node] + a.weight];
            && a.to !in rank
            && Books(adj, start, after, previous[a.to := node], rank, queue + multiset{Entry(costs[node] + a.weight, a.to)})
            && RelaxedExcept(adj, after, rank, node) && Relaxed(adj, after, node, i + 1)
  {
    hide RelaxedExcept, Relaxed, Traced, Queued;
    var a := adj[node][i];
    assert a in adj[node];
    LoweredTraced(adj, start, costs, previous, rank, node, a);
    LoweredQueued(costs, queue, rank, node, a);
    LoweredRelaxed(adj, costs, rank, node, i);
  }

  // ----- Popping the cheapest entry -----------------------------------------------------------------

  lemma BooksTraced(adj: Adjacency, start: NodeId, costs: map<NodeId, real>, previous: map<NodeId, NodeId>,
    rank: map<NodeId, nat>, queue: multiset<Entry>)
    requires Books(adj, start, costs, previous, rank, queue)
    ensures Traced(adj, start, costs, previous, rank)
  {
  }

  lemma EntryKnown(adj: Adjacency, start: NodeId, costs: map<NodeId, real>, previous: map<NodeId, NodeId>,
    rank: map<NodeId, nat>, queue: multiset<Entry>, e: Entry)
    requires Books(adj, start, costs, previous, rank, queue) && e in queue
    ensures e.node in costs && e.node in adj && (e.cost == costs[e.node] ==> e.node !in rank)
  {
  }

  /** Skipping an outdated entry loses nothing. */
  lemma SkipOutdated(adj: Adjacency, start: NodeId, costs: map<NodeId, real>, previous: map<NodeId, NodeId>,
    rank: map<NodeId, nat>, queue: multiset<Entry>, e: Entry)
    requires Books(adj, start, costs, previous, rank, queue) && e in queue
    requires e.node in costs && e.cost != costs[e.node]
    ensures Books(adj, start, costs, previous, rank, queue - multiset{e})
  {
  }

  /** The cheapest up-to-date entry is settled. */
  lemma Settle(adj: Adjacency, start: NodeId, costs: map<NodeId, real>, previous: map<NodeId, NodeId>,
    rank: map<NodeId, nat>, queue: multiset<Entry>, e: Entry, count: nat)
    requires Books(adj, start, costs, previous, rank, queue) && e in queue && e.node in costs
    requires (forall f :: f in queue ==> e.Before(f)) && e.cost == costs[e.node] && e.node !in rank
    requires forall v :: v in rank ==> v in adj && Relaxed(adj, costs, v, |adj[v]|)
    requires forall v :: v in rank ==> rank[v] < count
    ensures var after := rank[e.node := count];
            && Books(adj, start, costs, previous, after, queue - multiset{e})
            && RelaxedExcept(adj, costs, after, e.node) && SettledFirst(costs, after, e.node)
  {
    hide Relaxed;
    var after := rank[e.node := count];
    assert e == Entry(costs[e.node], e.node);
    SettleTraced(adj, start, costs, previous, rank, e.node, count);
    hide Traced;
  }

  lemma SettleTraced(adj: Adjacency, start: NodeId, costs: map<NodeId, real>, previous: map<NodeId, NodeId>,
    rank: map<NodeId, nat>, node: NodeId, count: nat)
    requires Traced(adj, start, costs, previous, rank) && node in costs && node !in rank
    requires forall v :: v in rank ==> rank[v] < count
    ensures Traced(adj, start, costs, previous, rank[node := count])
  {
  }

  /** When the goal surfaces, no walk to it is shorter. */
  lemma GoalIsOptimal(adj: Adjacency, start: NodeId, goal: NodeId, costs: map<NodeId, real>,
    previous: map<NodeId, NodeId>, rank: map<NodeId, nat>, queue: multiset<Entry>, e: Entry,
    path: seq<NodeId>, walk: seq<Arc>)
    requires Proper(adj) && Books(adj, start, costs, previous, rank, queue)
    requires e in queue && (forall f :: f in queue ==> e.Before(f)) && e.node == goal && goal !in rank
    requires goal in costs && e.cost == costs[goal]
    requires forall v :: v in rank ==> v in adj && Relaxed(adj, costs, v, |adj[v]|)
    requires IsWalk(adj, start, walk) && End(start, walk) == goal && Length(walk) == costs[goal]
    requires path == Stops(start, walk) && Distinct(path)
    ensures IsShortestPath(adj, start, goal, path)
    ensures !forall other :: IsWalk(adj, start, other) ==> End(start, other) != goal
  {
    hide Relaxed, IsWalk, End, Length, Stops;
    forall v | v in costs && v !in rank ensures costs[v] >= costs[goal] {
      assert Entry(costs[v], v) in queue;
    }
    forall other | IsWalk(adj, start, other) && End(start, other) == goal ensures Length(walk) <= Length(other) {
      NoShorterWalk(adj, costs, rank, start, other, costs[goal]);
    }
  }

  /** When the heap is empty, everything reachable is settled, and the goal is not. */
  lemma NothingLeft(adj: Adjacency, start: NodeId, goal: NodeId, costs: map<NodeId, real>,
    previous: map<NodeId, NodeId>, rank: map<NodeId, nat>, queue: multiset<Entry>)
    requires Books(adj, start, costs, previous, rank, queue) && |queue| == 0 && goal !in rank
    requires forall v :: v in rank ==> v in adj && Relaxed(adj, costs, v, |adj[v]|)
    ensures forall walk :: IsWalk(adj, start, walk) ==> End(start, walk) != goal
  {
    hide Relaxed, IsWalk, End;
    forall v | v in costs ensures v in rank {
      assert Entry(costs[v], v) !in queue;
    }
    forall walk | IsWalk(adj, start, walk) ensures End(start, walk) != goal {
      WalksStaySettled(adj, costs, rank, start, walk);
    }
  }
}
