/**
 * The topological sort the maximum-matching planner runs on its dependency
 * graph: a three-colour depth-first search from every vertex in turn that
 * gives up as soon as it reaches a vertex still on its own stack, and
 * otherwise numbers the vertices in reverse order of completion.
 */
module TopOrder {
  import opened Tasks
  import opened SetFacts
  import opened Graphs

  /** The per-vertex mark: not yet entered, on the search stack, or finished. */
  datatype Colour = White | Gray | Black

  /** `adj[u]` lists the heads of the edges leaving `u`, and nothing else. */
  ghost predicate Successors(g: Graph, adj: seq<seq<nat>>) {
    && |adj| == g.verticesCount
    && (forall u, k :: 0 <= u < |adj| && 0 <= k < |adj[u]| ==>
          adj[u][k] < g.verticesCount && HasEdge(g, u, adj[u][k]))
    && (forall id :: 0 <= id < |g.edges| ==> g.edges[id].from < |adj| && g.edges[id].to in adj[g.edges[id].from])
  }

  /** Groups the edge heads by tail, in edge order. */
  method BuildSuccessors(g: Graph) returns (adj: seq<seq<nat>>)
    requires ValidGraph(g)
    ensures Successors(g, adj)
  {
    var none: seq<nat> := [];
    var lists: array<seq<nat>> := new seq<nat>[g.verticesCount](_ => none);
    var id := 0;
    while id < |g.edges|
      invariant 0 <= id <= |g.edges|
      invariant forall u, k :: 0 <= u < lists.Length && 0 <= k < |lists[u]| ==>
        lists[u][k] < g.verticesCount && HasEdge(g, u, lists[u][k])
      invariant forall j :: 0 <= j < id ==> g.edges[j].to in lists[g.edges[j].from]
    {
      var e := g.edges[id];
      assert HasEdge(g, e.from, e.to);
      lists[e.from] := lists[e.from] + [e.to];
      id := id + 1;
    }
    adj := lists[..];
  }

  /** Consecutive vertices of `path` are joined by edges. */
  ghost predicate Walk(g: Graph, path: seq<nat>) {
    forall k :: 0 <= k < |path| - 1 ==> HasEdge(g, path[k], path[k + 1])
  }

  /** The gray vertices are exactly those on the search stack `path`, which is a walk. */
  ghost predicate OnPath(g: Graph, colour: seq<Colour>, path: seq<nat>) {
    && Walk(g, path)
    && (forall k :: 0 <= k < |path| ==> path[k] < |colour|)
    && (forall w :: 0 <= w < |colour| ==> (colour[w] == Gray <==> w in path))
  }

  /** Every successor of a finished vertex finished before it. */
  ghost predicate Finished(g: Graph, order: seq<nat>) {
    forall i, v :: 0 <= i < |order| && HasEdge(g, order[i], v) ==> v in order[..i]
  }

  /** Colours only move forward: white to gray to black. */
  ghost predicate Advances(c0: seq<Colour>, c1: seq<Colour>) {
    && |c0| == |c1|
    && forall w :: 0 <= w < |c0| ==> (c0[w] == Black ==> c1[w] == Black) && (c1[w] == White ==> c0[w] == White)
  }

  /** The number of white vertices, which every entered vertex lowers. */
  ghost function Whites(colour: seq<Colour>): nat {
    if colour == [] then 0
    else Whites(colour[..|colour| - 1]) + (if colour[|colour| - 1] == White then 1 else 0)
  }

  lemma {:induction false} WhitesShrink(c0: seq<Colour>, c1: seq<Colour>)
    requires Advances(c0, c1)
    ensures Whites(c1) <= Whites(c0)
    ensures (exists x :: 0 <= x < |c0| && c0[x] == White && c1[x] != White) ==> Whites(c1) < Whites(c0)
  {
    if c0 != [] {
      var n := |c0| - 1;
      assert Advances(c0[..n], c1[..n]);
      WhitesShrink(c0[..n], c1[..n]);
      if exists x :: 0 <= x < |c0| && c0[x] == White && c1[x] != White {
        var x :| 0 <= x < |c0| && c0[x] == White && c1[x] != White;
        if x < n {
          assert c0[..n][x] == White && c1[..n][x] != White;
        }
      }
    }
  }

  lemma AdvancesTransitive(c0: seq<Colour>, c1: seq<Colour>, c2: seq<Colour>)
    requires Advances(c0, c1) && Advances(c1, c2)
    ensures Advances(c0, c2)
  {
  }

  /** Graying a white vertex reached from the top of the stack pushes it. */
  lemma EnterOnPath(g: Graph, colour: seq<Colour>, path: seq<nat>, u: nat)
    requires OnPath(g, colour, path) && u < |colour| && colour[u] == White
    requires |path| > 0 ==> HasEdge(g, path[|path| - 1], u)
    ensures u !in path && OnPath(g, colour[u := Gray], path + [u])
  {
    var p := path + [u];
    forall k | 0 <= k < |p| - 1
      ensures HasEdge(g, p[k], p[k + 1])
    {
      assert p[k] == path[k];
      if k + 1 < |path| {
        assert p[k + 1] == path[k + 1];
      }
    }
  }

  /** Reaching a vertex that is already on the stack closes a cycle. */
  lemma CycleThroughPath(g: Graph, path: seq<nat>, u: nat)
    requires Walk(g, path) && u in path
    requires HasEdge(g, path[|path| - 1], u)
    ensures HasCycle(g)
  {
    var k :| 0 <= k < |path| && path[k] == u;
    var c := path[k..] + [u];
    forall j | 0 <= j < |c| - 1 ensures HasEdge(g, c[j], c[j + 1]) {
      if j < |c| - 2 {
        assert c[j] == path[k + j] && c[j + 1] == path[k + j + 1];
      }
    }
    assert IsCycle(g, c);
  }

  /**
   * Numbering the vertices by reverse finishing order gives a topological
   * numbering once every vertex has finished.
   */
  lemma RankFromOrder(g: Graph, order: seq<nat>, rank: seq<nat>)
    requires ValidGraph(g) && |order| == g.verticesCount && |rank| == g.verticesCount
    requires Distinct(order) && Finished(g, order)
    requires forall w :: 0 <= w < g.verticesCount ==> w in order
    requires forall j :: 0 <= j < |order| ==> order[j] < |rank| && rank[order[j]] == |order| - j - 1
    ensures IsTopRank(g, rank)
  {
    forall w | 0 <= w < |rank| ensures rank[w] < |rank| {
      assert w in order;
      var j :| 0 <= j < |order| && order[j] == w;
    }
    forall u, w | 0 <= u < w < |rank| ensures rank[u] != rank[w] {
      assert u in order && w in order;
      var i :| 0 <= i < |order| && order[i] == u;
      var j :| 0 <= j < |order| && order[j] == w;
    }
    forall id | 0 <= id < |g.edges|
      ensures rank[g.edges[id].from] < rank[g.edges[id].to]
    {
      var e := g.edges[id];
      assert HasEdge(g, e.from, e.to) && e.from in order;
      var i :| 0 <= i < |order| && order[i] == e.from;
      assert e.to in order[..i];
      var j :| 0 <= j < i && order[..i][j] == e.to;
      assert order[j] == e.to;
    }
  }

  /**
   * The search state the recursive visits share: a colour per vertex and the
   * vertices in the order they finished.
   */
  class DepthFirst {
    const graph: Graph
    const adj: seq<seq<nat>>
    var colour: seq<Colour>
    var order: seq<nat>

    /** The finished vertices are the black ones, each once, after all their successors. */
    ghost predicate Valid()
      reads this
    {
      && ValidGraph(graph) && Successors(graph, adj)
      && |colour| == graph.verticesCount
      && Distinct(order)
      && (forall j :: 0 <= j < |order| ==> order[j] < |colour| && colour[order[j]] == Black)
      && (forall w :: 0 <= w < |colour| && colour[w] == Black ==> w in order)
      && Finished(graph, order)
    }

    constructor (g: Graph, lists: seq<seq<nat>>)
      requires ValidGraph(g) && Successors(g, lists)
      ensures Valid() && graph == g && adj == lists
      ensures colour == seq(g.verticesCount, _ => White) && order == []
    {
      graph, adj := g, lists;
      colour := seq(g.verticesCount, _ => White);
      order := [];
    }

    /**
     * Visits `u`, reached along the stack `path`. A `true` result means a
     * cycle was found; otherwise `u` and everything reachable from it has
     * finished and the stack is as it was.
     */
    method Dfs(u: nat, ghost path: seq<nat>) returns (cycle: bool)
      requires Valid() && u < |colour| && OnPath(graph, colour, path)
      requires |path| > 0 ==> HasEdge(graph, path[|path| - 1], u)
      modifies this
      decreases Whites(colour), 2
      ensures Valid() && Advances(old(colour), colour)
      ensures cycle ==> HasCycle(graph)
      ensures !cycle ==> colour[u] == Black && OnPath(graph, colour, path)
    {
      if colour[u] == Black {
        return false;
      }
      if colour[u] == Gray {
        CycleThroughPath(graph, path, u);
        return true;
      }
      Enter(u, path);
      ghost var entered := colour;
      cycle := VisitSuccessors(u, path, old(Whites(colour)));
      AdvancesTransitive(old(colour), entered, colour);
    }

    /** Puts the white vertex `u` on top of the stack. */
    method Enter(u: nat, ghost path: seq<nat>)
      requires Valid() && u < |colour| && colour[u] == White && OnPath(graph, colour, path)
      requires |path| > 0 ==> HasEdge(graph, path[|path| - 1], u)
      modifies this
      ensures Valid() && colour == old(colour)[u := Gray] && Advances(old(colour), colour)
      ensures u !in path && OnPath(graph, colour, path + [u]) && Whites(colour) < old(Whites(colour))
    {
      EnterOnPath(graph, colour, path, u);
      assert forall j :: 0 <= j < |order| ==> order[j] != u;
      colour := colour[u := Gray];
      WhitesShrink(old(colour), colour);
    }

    /**
     * The loop over the successors of the gray vertex `u` on top of the
     * stack: the first one that reports a cycle ends the visit, and once all
     * have finished so does `u`. `bound` is the white count `u` was entered
     * with.
     */
    method VisitSuccessors(u: nat, ghost path: seq<nat>, ghost bound: nat) returns (cycle: bool)
      requires Valid() && u < |colour| && colour[u] == Gray
      requires u !in path && OnPath(graph, colour, path + [u]) && Whites(colour) < bound
      modifies this
      decreases bound, 1
      ensures Valid() && Advances(old(colour), colour)
      ensures cycle ==> HasCycle(graph)
      ensures !cycle ==> colour[u] == Black && OnPath(graph, colour, path)
    {
      var k := 0;
      while k < |adj[u]|
        invariant Valid() && 0 <= k <= |adj[u]|
        invariant Advances(old(colour), colour) && colour[u] == Gray
        invariant OnPath(graph, colour, path + [u])
        invariant Whites(colour) < bound
        invariant forall j :: 0 <= j < k ==> colour[adj[u][j]] == Black
      {
        ghost var before := colour;
        var found := VisitSuccessor(u, k, path, bound);
        if found {
          AdvancesTransitive(old(colour), before, colour);
          return true;
        }
        AdvancesTransitive(old(colour), before, colour);
        k := k + 1;
      }
      FinishVertex(u);
      assert forall k :: 0 <= k < |path| ==> (path + [u])[k] == path[k];
      return false;
    }

    /** Visits the `k`-th successor of `u`, whose earlier successors have all finished. */
    method VisitSuccessor(u: nat, k: nat, ghost path: seq<nat>, ghost bound: nat) returns (cycle: bool)
      requires Valid() && u < |colour| && k < |adj[u]| && colour[u] == Gray
      requires u !in path && OnPath(graph, colour, path + [u]) && Whites(colour) < bound
      requires forall j :: 0 <= j < k ==> colour[adj[u][j]] == Black
      modifies this
      decreases bound, 0
      ensures Valid() && Advances(old(colour), colour)
      ensures cycle ==> HasCycle(graph)
      ensures !cycle ==> colour[u] == Gray && OnPath(graph, colour, path + [u]) && Whites(colour) < bound
      ensures !cycle ==> forall j :: 0 <= j <= k ==> colour[adj[u][j]] == Black
    {
      var v := adj[u][k];
      assert (path + [u])[|path + [u]| - 1] == u;
      cycle := Dfs(v, path + [u]);
      if !cycle {
        WhitesShrink(old(colour), colour);
      }
    }

    /** Marks `u`, all of whose successors have finished, as finished. */
    method FinishVertex(u: nat)
      requires Valid() && u < |colour| && colour[u] == Gray
      requires forall j :: 0 <= j < |adj[u]| ==> colour[adj[u][j]] == Black
      modifies this
      ensures Valid()
      ensures colour == old(colour)[u := Black] && order == old(order) + [u]
    {
      forall i, v | 0 <= i < |order| + 1 && HasEdge(graph, (order + [u])[i], v)
        ensures v in (order + [u])[..i]
      {
        if i == |order| {
          var id :| 0 <= id < |graph.edges| && graph.edges[id] == Edge(u, v);
          var j :| 0 <= j < |adj[u]| && adj[u][j] == v;
          assert (order + [u])[..i] == order;
        } else {
          assert (order + [u])[..i] == order[..i];
        }
      }
      colour := colour[u := Black];
      order := order + [u];
    }
  }

  /**
   * A topological numbering of `g`, or nothing when `g` has a cycle. Every
   * vertex is a search root in turn; the first cycle found ends the sort.
   */
  method GetTopOrder(g: Graph) returns (r: Option<seq<nat>>)
    requires ValidGraph(g)
    ensures r.None? <==> HasCycle(g)
    ensures r.Some? ==> IsTopRank(g, r.value)
  {
    var adj := BuildSuccessors(g);
    var dfs := new DepthFirst(g, adj);
    var i := 0;
    while i < g.verticesCount
      invariant dfs.Valid() && dfs.graph == g && 0 <= i <= g.verticesCount
      invariant OnPath(g, dfs.colour, [])
      invariant forall j :: 0 <= j < i ==> dfs.colour[j] == Black
    {
      var cycle := dfs.Dfs(i, []);
      if cycle {
        return None;
      }
      i := i + 1;
    }
    var order := dfs.order;
    AllFinished(g.verticesCount, order);
    var rank := NumberByFinish(order);
    RankFromOrder(g, order, rank);
    TopRankExcludesCycle(g, rank);
    return Some(rank);
  }

  /** With every vertex finished, the finishing order lists each vertex exactly once. */
  lemma AllFinished(n: nat, order: seq<nat>)
    requires Distinct(order) && forall j :: 0 <= j < |order| ==> order[j] < n
    requires forall w :: 0 <= w < n ==> w in order
    ensures |order| == n
  {
    assert Elements(order) == Range(n);
    DistinctCard(order);
    RangeCard(n);
  }

  /** Gives the vertex that finished `j`-th the number `|order| - j - 1`. */
  method NumberByFinish(order: seq<nat>) returns (rank: seq<nat>)
    requires Distinct(order) && forall j :: 0 <= j < |order| ==> order[j] < |order|
    ensures |rank| == |order|
    ensures forall j :: 0 <= j < |order| ==> rank[order[j]] == |order| - j - 1
  {
    rank := seq(|order|, _ => 0);
    var i := 0;
    while i < |order|
      invariant 0 <= i <= |order| && |rank| == |order|
      invariant forall j :: 0 <= j < i ==> rank[order[j]] == |order| - j - 1
    {
      rank := rank[order[i] := |order| - i - 1];
      i := i + 1;
    }
  }
}
