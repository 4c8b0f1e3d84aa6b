/** The relation-filtered, hop-bounded breadth-first search of
    `visualize_subgraph` (src/graph_visualizer.py:174-194): from the start
    nodes, follow only edges of one relation, at most `max_hops` of them,
    and collect the visited nodes and the edges met into a directed graph.
    Drawing that graph is left out. */
module Subgraph {
  import opened Common
  import opened Loader

  /** `node` is reachable from a start node along at most `k` edges of
      relation `rel`. */
  ghost predicate Within(kg: Graph, starts: seq<int>, rel: int, node: int, k: nat)
    decreases k
  {
    node in starts || (k > 0 && exists p | p in kg :: (node, rel) in kg[p] && Within(kg, starts, rel, p, k - 1))
  }

  lemma {:induction false} WithinMore(kg: Graph, starts: seq<int>, rel: int, node: int, k: nat, k': nat)
    requires k <= k' && Within(kg, starts, rel, node, k)
    ensures Within(kg, starts, rel, node, k')
    decreases k
  {
    if node !in starts {
      var p :| p in kg && (node, rel) in kg[p] && Within(kg, starts, rel, p, k - 1);
      WithinMore(kg, starts, rel, p, k - 1, k' - 1);
    }
  }

  lemma WithinStep(kg: Graph, starts: seq<int>, rel: int, node: int, tail: int, k: nat)
    requires Within(kg, starts, rel, node, k) && node in kg && (tail, rel) in kg[node]
    ensures Within(kg, starts, rel, tail, k + 1)
  {
  }

  /** Every node the search can meet: the start nodes and every tail. */
  function Universe(kg: Graph, starts: seq<int>): set<int>
  {
    Elems(starts) + set h, j | h in kg && 0 <= j < |kg[h]| :: kg[h][j].0
  }

  /** The edges of relation `rel` in `node`'s list. */
  function RelEdges(node: int, adj: seq<(int, int)>, rel: int): set<(int, int)>
  {
    set j | 0 <= j < |adj| && adj[j].1 == rel :: (node, adj[j].0)
  }

  /** The edges of relation `rel` out of the nodes in `visited`. */
  function EdgesFrom(kg: Graph, visited: set<int>, rel: int): set<(int, int)>
  {
    set v, j | v in visited && v in kg && 0 <= j < |kg[v]| && kg[v][j].1 == rel :: (v, kg[v][j].0)
  }

  function EdgeTails(edges: set<(int, int)>): set<int>
  {
    set e | e in edges :: e.1
  }

  lemma RelEdgesSnoc(node: int, adj: seq<(int, int)>, rel: int, j: int)
    requires 0 <= j < |adj|
    ensures RelEdges(node, adj[..j + 1], rel) == RelEdges(node, adj[..j], rel) + (if adj[j].1 == rel then {(node, adj[j].0)} else {})
  {
    var a, b := adj[..j + 1], adj[..j];
    forall e | e in RelEdges(node, a, rel) ensures e in RelEdges(node, b, rel) + (if adj[j].1 == rel then {(node, adj[j].0)} else {}) {
      var k :| 0 <= k < |a| && a[k].1 == rel && e == (node, a[k].0);
      if k < j {
        assert b[k] == a[k];
      }
    }
    forall e | e in RelEdges(node, b, rel) ensures e in RelEdges(node, a, rel) {
      var k :| 0 <= k < |b| && b[k].1 == rel && e == (node, b[k].0);
      assert a[k] == b[k];
    }
    if adj[j].1 == rel {
      assert a[j] == adj[j];
    }
  }

  lemma EdgesFromAdd(kg: Graph, visited: set<int>, node: int, rel: int)
    ensures EdgesFrom(kg, visited + {node}, rel)
            == EdgesFrom(kg, visited, rel) + (if node in kg then RelEdges(node, kg[node], rel) else {})
  {
    var extra := if node in kg then RelEdges(node, kg[node], rel) else {};
    forall e | e in EdgesFrom(kg, visited + {node}, rel) ensures e in EdgesFrom(kg, visited, rel) + extra {
      var v, j :| v in visited + {node} && v in kg && 0 <= j < |kg[v]| && kg[v][j].1 == rel && e == (v, kg[v][j].0);
      if v !in visited {
        assert e in RelEdges(node, kg[node], rel);
      }
    }
    forall e | e in extra ensures e in EdgesFrom(kg, visited + {node}, rel) {
      var j :| 0 <= j < |kg[node]| && kg[node][j].1 == rel && e == (node, kg[node][j].0);
    }
  }

  lemma EdgeTailsAdd(edges: set<(int, int)>, extra: set<(int, int)>)
    ensures EdgeTails(edges + extra) == EdgeTails(edges) + EdgeTails(extra)
  {
    forall t | t in EdgeTails(edges + extra) ensures t in EdgeTails(edges) + EdgeTails(extra) {
      var e :| e in edges + extra && e.1 == t;
      if e in edges {
        assert t in EdgeTails(edges);
      } else {
        assert t in EdgeTails(extra);
      }
    }
  }

  /** The loop over `node`'s list (src/graph_visualizer.py:188-194): every
      entry of relation `rel` becomes an edge of the graph, and its tail is
      queued one hop further when it is not visited and the hop bound is
      not reached. */
  method Expand(kg: Graph, node: int, hop: int, rel: int, maxHops: int, visited: set<int>,
                nodes: set<int>, edges: set<(int, int)>, queue: seq<(int, int)>)
    returns (nodes': set<int>, edges': set<(int, int)>, queue': seq<(int, int)>)
    requires node in kg
    ensures edges' == edges + RelEdges(node, kg[node], rel)
    ensures nodes' == nodes + {node} + EdgeTails(RelEdges(node, kg[node], rel))
    ensures |queue| <= |queue'| && queue'[..|queue|] == queue
    ensures forall q | q in queue'[|queue|..] ::
              && q.1 == hop + 1 && hop < maxHops && q.0 !in visited
              && (q.0, rel) in kg[node] && q.0 in Universe(kg, [])
  {
    var adj := kg[node];
    nodes', edges', queue' := nodes + {node}, edges, queue;
    for j := 0 to |adj|
      invariant edges' == edges + RelEdges(node, adj[..j], rel)
      invariant nodes' == nodes + {node} + EdgeTails(RelEdges(node, adj[..j], rel))
      invariant |queue| <= |queue'| && queue'[..|queue|] == queue
      invariant forall q | q in queue'[|queue|..] ::
                  && q.1 == hop + 1 && hop < maxHops && q.0 !in visited
                  && (q.0, rel) in adj && q.0 in Universe(kg, [])
    {
      var (tail, relation) := adj[j];
      RelEdgesSnoc(node, adj, rel, j);
      if relation == rel {
        EdgeTailsAdd(RelEdges(node, adj[..j], rel), {(node, tail)});
        assert EdgeTails({(node, tail)}) == {tail};
        edges' := edges' + {(node, tail)};
        nodes' := nodes' + {node, tail};
        if tail !in visited && hop < maxHops {
          assert adj[j] == (tail, rel);
          assert tail in Universe(kg, []) by {
            assert kg[node][j].0 == tail;
          }
          queue' := queue' + [(tail, hop + 1)];
        }
      }
    }
    assert adj[..|adj|] == adj;
  }

  /** Visiting `node`, reached at `hop` (src/graph_visualizer.py:185-194):
      its edges of relation `rel` join the graph, and the tails queued are
      one hop further, within the bound and reachable. */
  method Visit(kg: Graph, starts: seq<int>, rel: int, maxHops: int, node: int, hop: int,
               visited: set<int>, nodes: set<int>, edges: set<(int, int)>, queue: seq<(int, int)>)
    returns (nodes': set<int>, edges': set<(int, int)>, queue': seq<(int, int)>)
    requires 0 <= hop && Within(kg, starts, rel, node, hop)
    requires edges == EdgesFrom(kg, visited, rel) && nodes == visited + EdgeTails(edges)
    ensures edges' == EdgesFrom(kg, visited + {node}, rel)
    ensures nodes' == visited + {node} + EdgeTails(edges')
    ensures |queue| <= |queue'| && queue'[..|queue|] == queue
    ensures forall q | q in queue'[|queue|..] ::
              && q.0 in Universe(kg, starts) && 1 <= q.1 <= maxHops && q.1 == hop + 1
              && q.0 !in visited + {node} && Within(kg, starts, rel, q.0, q.1)
  {
    EdgesFromAdd(kg, visited, node, rel);
    if node in kg {
      EdgeTailsAdd(edges, RelEdges(node, kg[node], rel));
      nodes', edges', queue' := Expand(kg, node, hop, rel, maxHops, visited + {node}, nodes, edges, queue);
      forall q | q in queue'[|queue|..]
        ensures q.0 in Universe(kg, starts) && Within(kg, starts, rel, q.0, q.1)
      {
        WithinStep(kg, starts, rel, node, q.0, hop);
      }
    } else {
      nodes', edges', queue' := nodes + {node}, edges, queue;
    }
  }

  /** What holds of the search between two iterations of its loop: the
      queue holds reachable nodes at their hop, every hop ever queued is 0
      for a start node or within the bound, every start node is visited or
      still queued at hop 0, and the graph built so far holds the visited
      nodes, the edges of relation `rel` out of them, and their tails. */
  ghost predicate Searching(kg: Graph, starts: seq<int>, rel: int, maxHops: int, queue: seq<(int, int)>,
                            visited: set<int>, nodes: set<int>, edges: set<(int, int)>,
                            visits: seq<int>, enqueued: seq<(int, int)>)
  {
    && (forall q | q in queue :: q.0 in Universe(kg, starts) && 0 <= q.1 && Within(kg, starts, rel, q.0, q.1))
    && (forall q | q in queue :: q in enqueued)
    && (forall q | q in enqueued :: (q.0 in starts && q.1 == 0) || 1 <= q.1 <= maxHops)
    && visited <= Universe(kg, starts)
    && Distinct(visits) && Elems(visits) == visited
    && edges == EdgesFrom(kg, visited, rel)
    && nodes == visited + EdgeTails(edges)
    && (forall v | v in visited :: 0 <= maxHops && Within(kg, starts, rel, v, maxHops))
    && (0 <= maxHops ==> forall s | s in starts :: s in visited || (s, 0) in queue)
  }

  /** One iteration of the loop (src/graph_visualizer.py:175-194): pop the
      front of the queue; skip it when it is beyond the bound or already
      visited, otherwise visit it. Either fewer nodes remain unvisited or the
      queue is shorter. */
  method Step(kg: Graph, starts: seq<int>, rel: int, maxHops: int, queue: seq<(int, int)>,
              visited: set<int>, nodes: set<int>, edges: set<(int, int)>,
              ghost visits: seq<int>, ghost enqueued: seq<(int, int)>)
    returns (queue': seq<(int, int)>, visited': set<int>, nodes': set<int>, edges': set<(int, int)>,
             ghost visits': seq<int>, ghost enqueued': seq<(int, int)>)
    requires queue != []
    requires Searching(kg, starts, rel, maxHops, queue, visited, nodes, edges, visits, enqueued)
    ensures Searching(kg, starts, rel, maxHops, queue', visited', nodes', edges', visits', enqueued')
    ensures visited' == visited + {queue[0].0} || visited' == visited
    ensures visited' == visited ==> |queue'| < |queue|
    ensures visited' != visited ==> |Universe(kg, starts) - visited'| < |Universe(kg, starts) - visited|
  {
    var (node, hop) := queue[0];
    queue' := queue[1..];
    assert forall q | q in queue :: q == (node, hop) || q in queue';
    if hop > maxHops || node in visited {
      visited', nodes', edges', visits', enqueued' := visited, nodes, edges, visits, enqueued;
      return;
    }
    ghost var U := Universe(kg, starts);
    assert U - (visited + {node}) + {node} == U - visited;
    WithinMore(kg, starts, rel, node, hop, maxHops);
    var n := |queue'|;
    nodes', edges', queue' := Visit(kg, starts, rel, maxHops, node, hop, visited, nodes, edges, queue');
    assert forall q | q in queue' :: q in queue'[..n] || q in queue'[n..];
    assert forall q | q in queue[1..] :: q in queue' by {
      assert queue'[..n] == queue[1..];
    }
    enqueued' := enqueued + queue'[n..];
    DistinctSnoc(visits, node);
    visited' := visited + {node};
    visits' := visits + [node];
  }

  /** The queue of start nodes at hop 0 sets the search going. */
  lemma SearchStart(kg: Graph, starts: seq<int>, rel: int, maxHops: int, queue: seq<(int, int)>)
    requires queue == seq(|starts|, i requires 0 <= i < |starts| => (starts[i], 0))
    ensures Searching(kg, starts, rel, maxHops, queue, {}, {}, {}, [], queue)
  {
    forall s | s in starts ensures (s, 0) in queue {
      var i :| 0 <= i < |starts| && starts[i] == s;
      assert queue[i] == (s, 0);
    }
    forall q | q in queue ensures q.0 in starts && q.1 == 0 {
      var i :| 0 <= i < |queue| && queue[i] == q;
    }
    assert EdgesFrom(kg, {}, rel) == {};
    assert EdgeTails({}) == {};
  }

  /** Once the queue is empty, every edge built is an edge of relation `rel`
      out of a visited node, and every start node was visited. */
  lemma SearchDone(kg: Graph, starts: seq<int>, rel: int, maxHops: int, visited: set<int>,
                   nodes: set<int>, edges: set<(int, int)>, visits: seq<int>, enqueued: seq<(int, int)>)
    requires Searching(kg, starts, rel, maxHops, [], visited, nodes, edges, visits, enqueued)
    ensures forall e | e in edges :: e.0 in visited && e.0 in kg && (e.1, rel) in kg[e.0]
    ensures 0 <= maxHops ==> Elems(starts) <= visited
  {
    forall e | e in edges ensures e.0 in visited && e.0 in kg && (e.1, rel) in kg[e.0] {
      var v, j :| v in visited && v in kg && 0 <= j < |kg[v]| && kg[v][j].1 == rel && e == (v, kg[v][j].0);
      assert kg[v][j] == (e.1, rel);
    }
    if 0 <= maxHops {
      forall s | s in Elems(starts) ensures s in visited {
        assert s in starts;
      }
    }
  }

  /** The search (src/graph_visualizer.py:174-194) for one relation type:
      the nodes and edges of the graph it builds and the set of visited
      nodes. */
  method Bfs(kg: Graph, starts: seq<int>, rel: int, maxHops: int)
    returns (nodes: set<int>, edges: set<(int, int)>, visited: set<int>, ghost visits: seq<int>, ghost enqueued: seq<(int, int)>)
    ensures edges == EdgesFrom(kg, visited, rel)
    ensures forall e | e in edges :: e.0 in visited && e.0 in kg && (e.1, rel) in kg[e.0]
    ensures nodes == visited + EdgeTails(edges)
    ensures forall v | v in visited :: 0 <= maxHops && Within(kg, starts, rel, v, maxHops)
    ensures 0 <= maxHops ==> Elems(starts) <= visited
    ensures Distinct(visits) && Elems(visits) == visited
    ensures forall q | q in enqueued :: (q.0 in starts && q.1 == 0) || 1 <= q.1 <= maxHops
  {
    var queue := seq(|starts|, i requires 0 <= i < |starts| => (starts[i], 0));
    SearchStart(kg, starts, rel, maxHops, queue);
    nodes, edges, visited, visits, enqueued := {}, {}, {}, [], queue;
    while queue != []
      invariant Searching(kg, starts, rel, maxHops, queue, visited, nodes, edges, visits, enqueued)
      decreases |Universe(kg, starts) - visited|, |queue|
    {
      queue, visited, nodes, edges, visits, enqueued := Step(kg, starts, rel, maxHops, queue, visited, nodes, edges, visits, enqueued);
    }
    SearchDone(kg, starts, rel, maxHops, visited, nodes, edges, visits, enqueued);
  }
}
