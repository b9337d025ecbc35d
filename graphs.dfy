/**
 * The two graph shapes the maximum-matching planner works with: a bipartite
 * graph of constraints against output properties, and a directed dependency
 * graph over properties and constraints. Edges are kept in a list and are
 * referred to by their position in it.
 */
module Graphs {
  import opened SetFacts

  datatype Edge = Edge(from: nat, to: nat)

  /** Left vertices 0 .. firstPartCount - 1, right vertices 0 .. secondPartCount - 1. */
  datatype BipartiteGraph = BipartiteGraph(firstPartCount: nat, secondPartCount: nat, edges: seq<Edge>)

  datatype Graph = Graph(verticesCount: nat, edges: seq<Edge>)

  /** Every edge leaves the left part and enters the right part. */
  ghost predicate ValidBipartite(g: BipartiteGraph) {
    forall id :: 0 <= id < |g.edges| ==>
      g.edges[id].from < g.firstPartCount && g.edges[id].to < g.secondPartCount
  }

  /** Every edge joins two vertices of the graph. */
  ghost predicate ValidGraph(g: Graph) {
    forall id :: 0 <= id < |g.edges| ==>
      g.edges[id].from < g.verticesCount && g.edges[id].to < g.verticesCount
  }

  /** A set of edge ids no two of which share a left or a right vertex. */
  ghost predicate IsMatching(g: BipartiteGraph, m: set<nat>) {
    && (forall id :: id in m ==> id < |g.edges|)
    && (forall a, b :: a in m && b in m && a != b ==>
          g.edges[a].from != g.edges[b].from && g.edges[a].to != g.edges[b].to)
  }

  /** A matching at least as large as every other matching of the graph. */
  ghost predicate IsMaximumMatching(g: BipartiteGraph, m: set<nat>) {
    IsMatching(g, m) && forall m' :: IsMatching(g, m') ==> |m'| <= |m|
  }

  /** Edge `id` shares neither endpoint with any other edge. */
  ghost predicate Isolated(g: BipartiteGraph, id: nat) {
    && id < |g.edges|
    && forall other :: 0 <= other < |g.edges| && other != id ==>
         g.edges[other].from != g.edges[id].from && g.edges[other].to != g.edges[id].to
  }

  /** An edge that touches no other edge belongs to every maximum matching. */
  lemma IsolatedEdgeIsMatched(g: BipartiteGraph, m: set<nat>, id: nat)
    requires IsMaximumMatching(g, m)
    requires Isolated(g, id)
    ensures id in m
  {
    if id !in m {
      var m' := m + {id};
      assert IsMatching(g, m');
    }
  }

  ghost predicate HasEdge(g: Graph, u: nat, v: nat) {
    exists id :: 0 <= id < |g.edges| && g.edges[id] == Edge(u, v)
  }

  /** A closed walk of at least one edge: it starts and ends at the same vertex. */
  ghost predicate IsCycle(g: Graph, c: seq<nat>) {
    && |c| >= 2
    && c[0] == c[|c| - 1]
    && forall k :: 0 <= k < |c| - 1 ==> HasEdge(g, c[k], c[k + 1])
  }

  ghost predicate HasCycle(g: Graph) {
    exists c :: IsCycle(g, c)
  }

  /**
   * A numbering of the vertices by 0 .. verticesCount - 1, each number used
   * once, that increases along every edge.
   */
  ghost predicate IsTopRank(g: Graph, rank: seq<nat>) {
    && |rank| == g.verticesCount
    && (forall w :: 0 <= w < |rank| ==> rank[w] < |rank|)
    && (forall u, w :: 0 <= u < w < |rank| ==> rank[u] != rank[w])
    && (forall id :: 0 <= id < |g.edges| ==>
          g.edges[id].from < |rank| && g.edges[id].to < |rank| &&
          rank[g.edges[id].from] < rank[g.edges[id].to])
  }

  lemma {:induction false} RankIncreasesAlongWalk(g: Graph, rank: seq<nat>, c: seq<nat>, k: nat)
    requires IsTopRank(g, rank)
    requires |c| >= 1 && forall j :: 0 <= j < |c| - 1 ==> HasEdge(g, c[j], c[j + 1])
    requires 1 <= k < |c|
    ensures c[0] < |rank| && c[k] < |rank| && rank[c[0]] < rank[c[k]]
  {
    assert HasEdge(g, c[k - 1], c[k]);
    var id :| 0 <= id < |g.edges| && g.edges[id] == Edge(c[k - 1], c[k]);
    assert g.edges[id].from == c[k - 1];
    if k > 1 {
      RankIncreasesAlongWalk(g, rank, c, k - 1);
    }
  }

  /** A graph that has a topological numbering has no cycle. */
  lemma TopRankExcludesCycle(g: Graph, rank: seq<nat>)
    requires IsTopRank(g, rank)
    ensures !HasCycle(g)
  {
    if HasCycle(g) {
      var c :| IsCycle(g, c);
      RankIncreasesAlongWalk(g, rank, c, |c| - 1);
    }
  }
}
