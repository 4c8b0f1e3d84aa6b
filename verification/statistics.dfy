/** `get_graph_statistics` (src/graph_visualizer.py:294-330): one pass over
    the adjacency dictionary that collects the nodes, the edges, the degree
    of every node and the number of edges of every relation, and the
    summary drawn from them. The mean degree is left out. */
module Statistics {
  import opened Common
  import opened Tally
  import opened Loader

  datatype Edge = Edge(head: int, tail: int, relation: int)

  /** The edges out of `head`, one per `(tail, relation)` entry. */
  function Out(head: int, adj: seq<(int, int)>): seq<Edge>
  {
    seq(|adj|, j requires 0 <= j < |adj| => Edge(head, adj[j].0, adj[j].1))
  }

  /** `all_edges` after visiting `heads`, in iteration order. */
  function Edges(heads: seq<int>, kg: Graph): seq<Edge>
    requires forall h | h in heads :: h in kg
  {
    if heads == [] then []
    else
      var p := heads[..|heads| - 1];
      assert forall h | h in p :: h in heads;
      assert heads[|heads| - 1] in heads;
      Edges(p, kg) + Out(heads[|heads| - 1], kg[heads[|heads| - 1]])
  }

  /** Both ends of every edge, head first: each edge adds one to the degree
      of each end, so a self-loop adds two. */
  function Ends(edges: seq<Edge>): seq<int>
  {
    if edges == [] then []
    else
      var e := edges[|edges| - 1];
      Ends(edges[..|edges| - 1]) + [e.head, e.tail]
  }

  function EdgeTails(edges: seq<Edge>): seq<int>
  {
    seq(|edges|, i requires 0 <= i < |edges| => edges[i].tail)
  }

  function EdgeRelations(edges: seq<Edge>): seq<int>
  {
    seq(|edges|, i requires 0 <= i < |edges| => edges[i].relation)
  }

  /** The loop's variables: `all_nodes`, `all_edges`, `node_degrees` and
      `relation_counts`, each dictionary with its key order. */
  datatype Accumulators = Accumulators(allNodes: set<int>, allEdges: seq<Edge>,
                                       degreeOrder: seq<int>, nodeDegrees: map<int, int>,
                                       relationOrder: seq<int>, relationCounts: map<int, int>)

  /** The variables hold what visiting `heads`, whose edges are `edges`,
      collects. */
  ghost predicate Collected(acc: Accumulators, heads: seq<int>, edges: seq<Edge>)
  {
    && acc.allNodes == Elems(heads) + Elems(EdgeTails(edges))
    && acc.allEdges == edges
    && Tallies(acc.degreeOrder, acc.nodeDegrees, Ends(edges))
    && Tallies(acc.relationOrder, acc.relationCounts, EdgeRelations(edges))
  }

  lemma EdgeSnoc(edges: seq<Edge>, e: Edge)
    ensures Ends(edges + [e]) == Ends(edges) + [e.head] + [e.tail]
    ensures EdgeTails(edges + [e]) == EdgeTails(edges) + [e.tail]
    ensures EdgeRelations(edges + [e]) == EdgeRelations(edges) + [e.relation]
  {
    assert (edges + [e])[..|edges|] == edges;
  }

  /** One more entry of `head`'s list is one more edge. */
  lemma OutSnoc(edges: seq<Edge>, head: int, adj: seq<(int, int)>, j: int)
    requires 0 <= j < |adj|
    ensures var done, e := edges + Out(head, adj[..j]), Edge(head, adj[j].0, adj[j].1);
            && edges + Out(head, adj[..j + 1]) == done + [e]
            && Ends(done + [e]) == Ends(done) + [head] + [adj[j].0]
            && Elems(EdgeTails(done + [e])) == Elems(EdgeTails(done)) + {adj[j].0}
            && EdgeRelations(done + [e]) == EdgeRelations(done) + [adj[j].1]
  {
    var done, e := edges + Out(head, adj[..j]), Edge(head, adj[j].0, adj[j].1);
    assert Out(head, adj[..j + 1]) == Out(head, adj[..j]) + [e];
    EdgeSnoc(done, e);
  }

  /** The inner loop over one head's list (src/graph_visualizer.py:311-316). */
  method ScanTails(acc: Accumulators, head: int, tails: seq<(int, int)>, ghost heads: seq<int>, ghost edges: seq<Edge>)
    returns (acc': Accumulators)
    requires Collected(acc, heads, edges)
    ensures Collected(acc', heads, edges + Out(head, tails))
  {
    var allNodes, allEdges := acc.allNodes, acc.allEdges;
    var degreeOrder, nodeDegrees := acc.degreeOrder, acc.nodeDegrees;
    var relationOrder, relationCounts := acc.relationOrder, acc.relationCounts;
    assert edges + Out(head, tails[..0]) == edges;
    for j := 0 to |tails|
      invariant Collected(Accumulators(allNodes, allEdges, degreeOrder, nodeDegrees, relationOrder, relationCounts),
                          heads, edges + Out(head, tails[..j]))
    {
      var (tail, relation) := tails[j];
      ghost var done := edges + Out(head, tails[..j]);
      OutSnoc(edges, head, tails, j);
      allNodes := allNodes + {tail};
      allEdges := allEdges + [Edge(head, tail, relation)];
      degreeOrder, nodeDegrees := Increment(degreeOrder, nodeDegrees, Ends(done), head);
      degreeOrder, nodeDegrees := Increment(degreeOrder, nodeDegrees, Ends(done) + [head], tail);
      relationOrder, relationCounts := Increment(relationOrder, relationCounts, EdgeRelations(done), relation);
    }
    assert tails[..|tails|] == tails;
    acc' := Accumulators(allNodes, allEdges, degreeOrder, nodeDegrees, relationOrder, relationCounts);
  }

  lemma EdgesSnoc(heads: seq<int>, i: int, kg: Graph)
    requires 0 <= i < |heads| && forall h | h in heads :: h in kg
    ensures forall h | h in heads[..i + 1] :: h in kg
    ensures Edges(heads[..i + 1], kg) == Edges(heads[..i], kg) + Out(heads[i], kg[heads[i]])
  {
    assert heads[..i + 1][..i] == heads[..i];
  }

  /** The outer loop (src/graph_visualizer.py:309-316). */
  method Accumulate(heads: seq<int>, kg: Graph) returns (acc: Accumulators)
    requires forall h | h in heads :: h in kg
    ensures Collected(acc, heads, Edges(heads, kg))
  {
    acc := Accumulators({}, [], [], map[], [], map[]);
    for i := 0 to |heads|
      invariant forall h | h in heads[..i] :: h in kg
      invariant Collected(acc, heads[..i], Edges(heads[..i], kg))
    {
      var head := heads[i];
      EdgesSnoc(heads, i, kg);
      assert Elems(heads[..i + 1]) == Elems(heads[..i]) + {head};
      acc := acc.(allNodes := acc.allNodes + {head});
      acc := ScanTails(acc, head, kg[head], heads[..i + 1], Edges(heads[..i], kg));
    }
    assert heads[..|heads|] == heads;
  }

  datatype Stats = Stats(nodes: int, edges: int, relations: int, degreeMax: int, degreeMin: int,
                         distribution: map<int, int>)

  /** `get_graph_statistics`, without `degre_moyen`. */
  method GraphStatistics(heads: seq<int>, kg: Graph) returns (stats: Stats)
    requires Distinct(heads) && Elems(heads) == kg.Keys
    ensures var edges := Edges(heads, kg);
            && stats.nodes == |Elems(heads) + Elems(EdgeTails(edges))|
            && stats.edges == |edges|
            && stats.relations == |Elems(EdgeRelations(edges))|
            && stats.distribution.Keys == Elems(EdgeRelations(edges))
            && (forall r | r in stats.distribution :: stats.distribution[r] == Count(EdgeRelations(edges), r))
            && (edges == [] ==> stats.degreeMax == 0 && stats.degreeMin == 0)
            && (edges != [] ==>
                  && stats.degreeMin <= stats.degreeMax
                  && (forall n | n in Ends(edges) :: stats.degreeMin <= Count(Ends(edges), n) <= stats.degreeMax)
                  && (exists n | n in Ends(edges) :: Count(Ends(edges), n) == stats.degreeMax)
                  && (exists n | n in Ends(edges) :: Count(Ends(edges), n) == stats.degreeMin))
  {
    var acc := Accumulate(heads, kg);
    ghost var edges := Edges(heads, kg);
    var degrees := Values(acc.degreeOrder, acc.nodeDegrees);
    var degreeMax := if |degrees| > 0 then Max(degrees) else 0;
    var degreeMin := if |degrees| > 0 then Min(degrees) else 0;
    stats := Stats(|acc.allNodes|, |acc.allEdges|, |acc.relationCounts|, degreeMax, degreeMin, acc.relationCounts);
    DegreeExtremes(acc.degreeOrder, acc.nodeDegrees, edges, degrees);
  }

  lemma EndsLength(edges: seq<Edge>)
    ensures |Ends(edges)| == 2 * |edges|
  {
  }

  /** Position `i` of the degree list holds the degree of a node that ends
      some edge, and every such node has a position. */
  lemma DegreeAt(order: seq<int>, degrees: map<int, int>, edges: seq<Edge>, values: seq<int>)
    requires Tallies(order, degrees, Ends(edges))
    requires values == Values(order, degrees)
    ensures forall i | 0 <= i < |values| :: order[i] in Ends(edges) && values[i] == Count(Ends(edges), order[i])
    ensures forall n | n in Ends(edges) :: exists i | 0 <= i < |values| :: order[i] == n && values[i] == Count(Ends(edges), n)
  {
    forall i | 0 <= i < |values| ensures order[i] in Ends(edges) && values[i] == Count(Ends(edges), order[i]) {
      assert order[i] in Elems(order);
    }
    forall n | n in Ends(edges) ensures exists i | 0 <= i < |values| :: order[i] == n && values[i] == Count(Ends(edges), n) {
      assert n in Elems(order);
      var i :| 0 <= i < |order| && order[i] == n;
    }
  }

  lemma Extremes(order: seq<int>, values: seq<int>, s: seq<int>)
    requires values != [] && |values| == |order|
    requires forall i | 0 <= i < |values| :: order[i] in s && values[i] == Count(s, order[i])
    requires forall n | n in s :: exists i | 0 <= i < |values| :: order[i] == n && values[i] == Count(s, n)
    ensures Min(values) <= Max(values)
    ensures forall n | n in s :: Min(values) <= Count(s, n) <= Max(values)
    ensures exists n | n in s :: Count(s, n) == Max(values)
    ensures exists n | n in s :: Count(s, n) == Min(values)
  {
    forall n | n in s ensures Min(values) <= Count(s, n) <= Max(values) {
      var i :| 0 <= i < |values| && order[i] == n && values[i] == Count(s, n);
      assert values[i] in values;
    }
    var i :| 0 <= i < |values| && values[i] == Max(values);
    assert order[i] in s && Count(s, order[i]) == Max(values);
    var k :| 0 <= k < |values| && values[k] == Min(values);
    assert order[k] in s && Count(s, order[k]) == Min(values);
  }

  /** `max` and `min` of the degree list are a largest and a smallest
      degree of a node that is the end of some edge; there is no degree
      exactly when there is no edge. */
  lemma DegreeExtremes(order: seq<int>, degrees: map<int, int>, edges: seq<Edge>, values: seq<int>)
    requires Tallies(order, degrees, Ends(edges))
    requires values == Values(order, degrees)
    ensures values == [] <==> edges == []
    ensures values != [] ==>
              && Min(values) <= Max(values)
              && (forall n | n in Ends(edges) :: Min(values) <= Count(Ends(edges), n) <= Max(values))
              && (exists n | n in Ends(edges) :: Count(Ends(edges), n) == Max(values))
              && (exists n | n in Ends(edges) :: Count(Ends(edges), n) == Min(values))
  {
    EndsLength(edges);
    if edges != [] {
      assert Ends(edges)[0] in Elems(order);
    }
    DegreeAt(order, degrees, edges, values);
    if values != [] {
      Extremes(order, values, Ends(edges));
    }
  }

  /** The degrees add up to twice the number of edges. */
  lemma DegreeSum(order: seq<int>, degrees: map<int, int>, edges: seq<Edge>)
    requires Tallies(order, degrees, Ends(edges))
    ensures SumValues(order, degrees) == 2 * |edges|
  {
    TallySum(order, degrees, Ends(edges));
    EndsLength(edges);
  }

  /** The relation distribution adds up to the number of edges. */
  lemma DistributionSum(order: seq<int>, counts: map<int, int>, edges: seq<Edge>)
    requires Tallies(order, counts, EdgeRelations(edges))
    ensures SumValues(order, counts) == |edges|
  {
    TallySum(order, counts, EdgeRelations(edges));
  }

  /** `e` is an edge exactly when its head is a key and `(tail, relation)`
      is in the head's list; there are as many edges as list entries. */
  lemma {:induction false} EdgesOfGraph(heads: seq<int>, kg: Graph)
    requires forall h | h in heads :: h in kg
    ensures forall e :: e in Edges(heads, kg) <==> e.head in heads && (e.tail, e.relation) in kg[e.head]
    ensures |Edges(heads, kg)| == SumLengths(heads, kg)
  {
    if heads != [] {
      var p, h := heads[..|heads| - 1], heads[|heads| - 1];
      assert forall x | x in p :: x in heads;
      EdgesOfGraph(p, kg);
      assert heads == p + [h];
      forall e ensures e in Edges(heads, kg) <==> e.head in heads && (e.tail, e.relation) in kg[e.head] {
        if e in Out(h, kg[h]) {
          var j :| 0 <= j < |kg[h]| && Out(h, kg[h])[j] == e;
          assert kg[h][j] == (e.tail, e.relation);
        }
        if e.head == h && (e.tail, e.relation) in kg[h] {
          var j :| 0 <= j < |kg[h]| && kg[h][j] == (e.tail, e.relation);
          assert Out(h, kg[h])[j] == e;
        }
      }
    }
  }

  /** On the graph `load_kg` builds, every triple is one edge. */
  lemma LoadedEdgeCount(rows: seq<Row>, kg: Graph, heads: seq<int>)
    requires heads == FirstSeen(Heads(rows)) && kg.Keys == Elems(Heads(rows))
    requires forall h | h in kg :: kg[h] == Adjacency(rows, h)
    ensures forall h | h in heads :: h in kg
    ensures |Edges(heads, kg)| == |rows|
  {
    EdgesOfGraph(heads, kg);
    AdjacencySum(rows, kg, heads);
  }
}
