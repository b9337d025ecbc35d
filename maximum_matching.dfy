/**
 * The maximum-matching planner. It matches constraints to the property
 * each selected method writes, one method per matched pair, then orders the
 * selected methods so that every method runs after the methods producing
 * its inputs, or reports that no such order exists.
 */
module MaximumMatching {
  import opened Tasks
  import opened SetFacts
  import opened Graphs
  import opened Sorting
  import opened Kuhn
  import opened TopOrder

  /**
   * The applicability scan, front to back: the first method that fails a
   * usage check throws, the first method with several outputs makes the
   * task not applicable, and a task that passes them all may be applicable.
   * Methods after the first stop are never looked at.
   */
  function Verdict(task: Task, csms: seq<CSM>): Result<Applicability> {
    if csms == [] then Ok(MaybeApplicable)
    else match CheckCSM(task, csms[0])
      case Some(e) => Err(e)
      case None => if |csms[0].outputs| > 1 then Ok(NotApplicable) else Verdict(task, csms[1..])
  }

  /** A method that passes the scan and lets it go on. */
  ghost predicate Passes(task: Task, m: CSM) {
    ValidCSM(task, m) && |m.outputs| <= 1
  }

  /** The definite verdict is never reached by this planner. */
  lemma {:induction false} NeverApplicable(task: Task, csms: seq<CSM>)
    ensures Verdict(task, csms) != Ok(Applicable)
  {
    if csms != [] && CheckCSM(task, csms[0]).None? && |csms[0].outputs| <= 1 {
      NeverApplicable(task, csms[1..]);
    }
  }

  /** The scan says "maybe" exactly when every method passes it. */
  lemma {:induction false} MaybeIffAllPass(task: Task, csms: seq<CSM>)
    ensures Verdict(task, csms) == Ok(MaybeApplicable) <==> forall i :: 0 <= i < |csms| ==> Passes(task, csms[i])
  {
    if csms != [] {
      MaybeIffAllPass(task, csms[1..]);
      if forall i :: 0 <= i < |csms| ==> Passes(task, csms[i]) {
        assert forall i :: 0 <= i < |csms| - 1 ==> csms[1..][i] == csms[i + 1];
      } else if Passes(task, csms[0]) {
        var i :| 0 <= i < |csms| && !Passes(task, csms[i]);
        assert !Passes(task, csms[1..][i - 1]);
      }
    }
  }

  /** What the scan reports about the first method `m` that does not pass it. */
  function StopVerdict(task: Task, m: CSM): Result<Applicability> {
    if CheckCSM(task, m).Some? then Err(CheckCSM(task, m).value) else Ok(NotApplicable)
  }

  /**
   * Any other verdict comes from the first method that does not pass: its
   * usage error if it has one, and otherwise "not applicable".
   */
  lemma {:induction false} VerdictAtFirstStop(task: Task, csms: seq<CSM>)
    requires Verdict(task, csms) != Ok(MaybeApplicable)
    ensures exists i :: (0 <= i < |csms| && !Passes(task, csms[i]) &&
      (forall j :: 0 <= j < i ==> Passes(task, csms[j])) &&
      Verdict(task, csms) == StopVerdict(task, csms[i]))
  {
    if Passes(task, csms[0]) {
      VerdictAtFirstStop(task, csms[1..]);
      var i :| 0 <= i < |csms[1..]| && !Passes(task, csms[1..][i]) &&
        (forall j :: 0 <= j < i ==> Passes(task, csms[1..][j])) &&
        Verdict(task, csms[1..]) == StopVerdict(task, csms[1..][i]);
      assert forall j :: 1 <= j < i + 1 ==> csms[j] == csms[1..][j - 1];
      assert !Passes(task, csms[i + 1]) && Verdict(task, csms) == StopVerdict(task, csms[i + 1]);
    } else {
      assert Verdict(task, csms) == StopVerdict(task, csms[0]);
    }
  }

  /** The applicability scan as the source runs it, one method at a time. */
  method IsApplicable(task: Task) returns (r: Result<Applicability>)
    ensures r == Verdict(task, task.csms)
  {
    var i := 0;
    while i < |task.csms|
      invariant 0 <= i <= |task.csms|
      invariant Verdict(task, task.csms) == Verdict(task, task.csms[i..])
    {
      var m := task.csms[i];
      var e := ValidateCSM(task, m);
      if e.Some? {
        return Err(e.value);
      }
      if |m.outputs| > 1 {
        return Ok(NotApplicable);
      }
      assert task.csms[i..][1..] == task.csms[i + 1..];
      i := i + 1;
    }
    return Ok(MaybeApplicable);
  }

  /** The number of methods without outputs. */
  function DegenerateCount(csms: seq<CSM>): nat {
    if csms == [] then 0
    else DegenerateCount(csms[..|csms| - 1]) + (if csms[|csms| - 1].outputs == [] then 1 else 0)
  }

  /**
   * The matching-graph edge of method `i`: its constraint and its first
   * output, or, for a method without outputs, a fresh fictitious vertex on
   * each side numbered after the real ones.
   */
  function MatchingEdge(task: Task, i: nat): Edge
    requires i < |task.csms|
  {
    var m := task.csms[i];
    if m.outputs == [] then
      Edge(task.constraintsCount + DegenerateCount(task.csms[..i]), task.propertiesCount + DegenerateCount(task.csms[..i]))
    else
      Edge(m.constraintId, m.outputs[0])
  }

  /** Constraints against properties, one edge per method, edge `i` for method `i`. */
  function MatchingGraph(task: Task): BipartiteGraph {
    var d := DegenerateCount(task.csms);
    BipartiteGraph(task.constraintsCount + d, task.propertiesCount + d,
                   seq(|task.csms|, i requires 0 <= i < |task.csms| => MatchingEdge(task, i)))
  }

  /** Builds the matching graph edge by edge, adding fictitious vertices as it goes. */
  method BuildMatchingGraph(task: Task) returns (g: BipartiteGraph)
    ensures g == MatchingGraph(task)
  {
    var first, second := task.constraintsCount, task.propertiesCount;
    var edges: seq<Edge> := [];
    var i := 0;
    while i < |task.csms|
      invariant 0 <= i <= |task.csms|
      invariant first == task.constraintsCount + DegenerateCount(task.csms[..i])
      invariant second == task.propertiesCount + DegenerateCount(task.csms[..i])
      invariant |edges| == i && forall j :: 0 <= j < i ==> edges[j] == MatchingEdge(task, j)
    {
      var m := task.csms[i];
      assert task.csms[..i + 1][..i] == task.csms[..i];
      if m.outputs == [] {
        edges := edges + [Edge(first, second)];
        first, second := first + 1, second + 1;
      } else {
        edges := edges + [Edge(m.constraintId, m.outputs[0])];
      }
      i := i + 1;
    }
    assert task.csms[..i] == task.csms;
    g := BipartiteGraph(first, second, edges);
  }

  lemma {:induction false} DegenerateCountGrows(csms: seq<CSM>, i: nat, j: nat)
    requires i < j <= |csms| && csms[i].outputs == []
    ensures DegenerateCount(csms[..i]) < DegenerateCount(csms[..j])
  {
    assert csms[..j][..j - 1] == csms[..j - 1];
    if j > i + 1 {
      DegenerateCountGrows(csms, i, j - 1);
    }
  }

  /** When every method passes the scan, every matching-graph edge joins the two parts. */
  lemma MatchingGraphValid(task: Task)
    requires forall i :: 0 <= i < |task.csms| ==> Passes(task, task.csms[i])
    ensures ValidBipartite(MatchingGraph(task))
  {
    var g := MatchingGraph(task);
    forall id | 0 <= id < |g.edges|
      ensures g.edges[id].from < g.firstPartCount && g.edges[id].to < g.secondPartCount
    {
      if task.csms[id].outputs == [] {
        DegenerateCountGrows(task.csms, id, |task.csms|);
        assert task.csms[..|task.csms|] == task.csms;
      } else {
        assert task.csms[id].outputs[0] in task.csms[id].outputs;
      }
    }
  }

  /** The edge of a method without outputs shares no vertex with any other edge. */
  lemma DegenerateIsolated(task: Task, i: nat)
    requires forall j :: 0 <= j < |task.csms| ==> Passes(task, task.csms[j])
    requires i < |task.csms| && task.csms[i].outputs == []
    ensures Isolated(MatchingGraph(task), i)
  {
    var g := MatchingGraph(task);
    forall other | 0 <= other < |g.edges| && other != i
      ensures g.edges[other].from != g.edges[i].from && g.edges[other].to != g.edges[i].to
    {
      if task.csms[other].outputs == [] {
        if other < i {
          DegenerateCountGrows(task.csms, other, i);
        } else {
          DegenerateCountGrows(task.csms, i, other);
        }
      } else {
        assert task.csms[other].outputs[0] in task.csms[other].outputs;
      }
    }
  }

  /** Property `p` feeds the method's constraint: an edge from the property's vertex. */
  function InputEdges(cc: nat, m: CSM): seq<Edge> {
    seq(|m.inputs|, k requires 0 <= k < |m.inputs| => Edge(m.inputs[k] + cc, m.constraintId))
  }

  /** The method's constraint feeds each property it writes. */
  function OutputEdges(cc: nat, m: CSM): seq<Edge> {
    seq(|m.outputs|, k requires 0 <= k < |m.outputs| => Edge(m.constraintId, m.outputs[k] + cc))
  }

  /** The dependency edges of the methods `ids`, in plan order. */
  function DependencyEdges(task: Task, ids: seq<nat>): seq<Edge> {
    if ids == [] then []
    else
      var id := ids[|ids| - 1];
      DependencyEdges(task, ids[..|ids| - 1]) +
      (if id < |task.csms|
       then InputEdges(task.constraintsCount, task.csms[id]) + OutputEdges(task.constraintsCount, task.csms[id])
       else [])
  }

  /**
   * Constraints are vertices 0 .. constraintsCount - 1 and property `p` is
   * vertex `p + constraintsCount`.
   */
  function DependencyGraph(task: Task, ids: seq<nat>): Graph {
    Graph(task.propertiesCount + task.constraintsCount, DependencyEdges(task, ids))
  }

  /**
   * Method `id` reads property `u - cc` for its constraint `v`, or is a
   * method of constraint `u` that writes property `v - cc`.
   */
  ghost predicate MethodFeeds(task: Task, id: nat, u: nat, v: nat) {
    && id < |task.csms|
    && var m := task.csms[id];
       || (exists p :: p in m.inputs && u == p + task.constraintsCount && v == m.constraintId)
       || (exists p :: p in m.outputs && u == m.constraintId && v == p + task.constraintsCount)
  }

  /** Some method of the plan `ids` feeds `u` into `v`. */
  ghost predicate Feeds(task: Task, ids: seq<nat>, u: nat, v: nat) {
    exists j :: 0 <= j < |ids| && MethodFeeds(task, ids[j], u, v)
  }

  lemma MethodEdgesMeaning(cc: nat, m: CSM, e: Edge)
    ensures e in InputEdges(cc, m) + OutputEdges(cc, m) <==>
      || (exists p :: p in m.inputs && e == Edge(p + cc, m.constraintId))
      || (exists p :: p in m.outputs && e == Edge(m.constraintId, p + cc))
  {
    if exists p :: p in m.inputs && e == Edge(p + cc, m.constraintId) {
      var p :| p in m.inputs && e == Edge(p + cc, m.constraintId);
      var k :| 0 <= k < |m.inputs| && m.inputs[k] == p;
      assert InputEdges(cc, m)[k] == e;
    }
    if exists p :: p in m.outputs && e == Edge(m.constraintId, p + cc) {
      var p :| p in m.outputs && e == Edge(m.constraintId, p + cc);
      var k :| 0 <= k < |m.outputs| && m.outputs[k] == p;
      assert OutputEdges(cc, m)[k] == e;
    }
    if e in InputEdges(cc, m) {
      var k :| 0 <= k < |m.inputs| && InputEdges(cc, m)[k] == e;
      assert m.inputs[k] in m.inputs;
    } else if e in OutputEdges(cc, m) {
      var k :| 0 <= k < |m.outputs| && OutputEdges(cc, m)[k] == e;
      assert m.outputs[k] in m.outputs;
    }
  }

  /** The dependency graph has an edge exactly where the plan feeds one vertex into another. */
  lemma {:induction false} DependencyEdgesMeaning(task: Task, ids: seq<nat>, u: nat, v: nat)
    requires forall j :: 0 <= j < |ids| ==> ids[j] < |task.csms|
    ensures Edge(u, v) in DependencyEdges(task, ids) <==> Feeds(task, ids, u, v)
  {
    if ids != [] {
      var n := |ids| - 1;
      var front := ids[..n];
      var m := task.csms[ids[n]];
      assert forall j :: 0 <= j < |front| ==> front[j] == ids[j];
      DependencyEdgesMeaning(task, front, u, v);
      MethodFeedsEdges(task, ids[n], u, v);
      FeedsSnoc(task, ids, u, v);
      assert DependencyEdges(task, ids) ==
        DependencyEdges(task, front) + (InputEdges(task.constraintsCount, m) + OutputEdges(task.constraintsCount, m));
    }
  }

  /** Method `id` feeds `u` into `v` exactly when it has the edge from `u` to `v`. */
  lemma MethodFeedsEdges(task: Task, id: nat, u: nat, v: nat)
    requires id < |task.csms|
    ensures var m := task.csms[id];
      MethodFeeds(task, id, u, v) <==> Edge(u, v) in InputEdges(task.constraintsCount, m) + OutputEdges(task.constraintsCount, m)
  {
    MethodEdgesMeaning(task.constraintsCount, task.csms[id], Edge(u, v));
  }

  /** The plan `ids` feeds `u` into `v` when its front does or its last method does. */
  lemma FeedsSnoc(task: Task, ids: seq<nat>, u: nat, v: nat)
    requires ids != []
    ensures Feeds(task, ids, u, v) <==> Feeds(task, ids[..|ids| - 1], u, v) || MethodFeeds(task, ids[|ids| - 1], u, v)
  {
    var n := |ids| - 1;
    var front := ids[..n];
    if Feeds(task, ids, u, v) {
      var j :| 0 <= j < |ids| && MethodFeeds(task, ids[j], u, v);
      if j < n {
        assert front[j] == ids[j];
      }
    }
    if Feeds(task, front, u, v) {
      var j :| 0 <= j < |front| && MethodFeeds(task, front[j], u, v);
      assert ids[j] == front[j];
    }
  }

  lemma DependencyHasEdge(task: Task, ids: seq<nat>, u: nat, v: nat)
    requires forall j :: 0 <= j < |ids| ==> ids[j] < |task.csms|
    ensures HasEdge(DependencyGraph(task, ids), u, v) <==> Feeds(task, ids, u, v)
  {
    DependencyEdgesMeaning(task, ids, u, v);
    var edges := DependencyEdges(task, ids);
    if Edge(u, v) in edges {
      var id :| 0 <= id < |edges| && edges[id] == Edge(u, v);
    }
  }

  /** A selected method that writes `p` feeds its constraint into `p`. */
  lemma WriterFeeds(task: Task, ids: seq<nat>, id: nat, p: nat)
    requires id in ids && id < |task.csms| && p in task.csms[id].outputs
    ensures Feeds(task, ids, task.csms[id].constraintId, p + task.constraintsCount)
  {
    var j :| 0 <= j < |ids| && ids[j] == id;
    assert MethodFeeds(task, ids[j], task.csms[id].constraintId, p + task.constraintsCount);
  }

  /** A selected method that reads `p` feeds `p` into its constraint. */
  lemma ReaderFeeds(task: Task, ids: seq<nat>, id: nat, p: nat)
    requires id in ids && id < |task.csms| && p in task.csms[id].inputs
    ensures Feeds(task, ids, p + task.constraintsCount, task.csms[id].constraintId)
  {
    var j :| 0 <= j < |ids| && ids[j] == id;
    assert MethodFeeds(task, ids[j], p + task.constraintsCount, task.csms[id].constraintId);
  }

  /** Every topological numbering of the dependency graph ranks a feeding vertex first. */
  lemma RankRespectsFeeds(task: Task, ids: seq<nat>, rank: seq<nat>, u: nat, v: nat)
    requires forall j :: 0 <= j < |ids| ==> ids[j] < |task.csms|
    requires IsTopRank(DependencyGraph(task, ids), rank) && Feeds(task, ids, u, v)
    ensures u < |rank| && v < |rank| && rank[u] < rank[v]
  {
    DependencyHasEdge(task, ids, u, v);
    var g := DependencyGraph(task, ids);
    var id :| 0 <= id < |g.edges| && g.edges[id] == Edge(u, v);
  }

  /** A numbering of the vertices that ranks every feeding vertex first is topological. */
  lemma TopRankFromFeeds(task: Task, ids: seq<nat>, rank: seq<nat>)
    requires forall j :: 0 <= j < |ids| ==> ids[j] < |task.csms|
    requires |rank| == task.propertiesCount + task.constraintsCount
    requires forall w :: 0 <= w < |rank| ==> rank[w] < |rank|
    requires forall u, w :: 0 <= u < w < |rank| ==> rank[u] != rank[w]
    requires forall u: nat, v: nat :: Feeds(task, ids, u, v) ==> u < |rank| && v < |rank| && rank[u] < rank[v]
    ensures IsTopRank(DependencyGraph(task, ids), rank)
  {
    var g := DependencyGraph(task, ids);
    forall id | 0 <= id < |g.edges|
      ensures g.edges[id].from < |rank| && g.edges[id].to < |rank| && rank[g.edges[id].from] < rank[g.edges[id].to]
    {
      var e := g.edges[id];
      assert HasEdge(g, e.from, e.to);
      DependencyHasEdge(task, ids, e.from, e.to);
    }
  }

  /** Builds the dependency graph with one pass over each selected method's inputs and outputs. */
  method BuildDependencyGraph(task: Task, ids: seq<nat>) returns (g: Graph)
    requires forall j :: 0 <= j < |ids| ==> ids[j] < |task.csms|
    ensures g == DependencyGraph(task, ids)
  {
    var cc := task.constraintsCount;
    var edges: seq<Edge> := [];
    var j := 0;
    while j < |ids|
      invariant 0 <= j <= |ids|
      invariant edges == DependencyEdges(task, ids[..j])
    {
      var m := task.csms[ids[j]];
      ghost var base := edges;
      var k := 0;
      while k < |m.inputs|
        invariant 0 <= k <= |m.inputs|
        invariant edges == base + InputEdges(cc, m)[..k]
      {
        assert InputEdges(cc, m)[..k + 1] == InputEdges(cc, m)[..k] + [Edge(m.inputs[k] + cc, m.constraintId)];
        edges := edges + [Edge(m.inputs[k] + cc, m.constraintId)];
        k := k + 1;
      }
      assert InputEdges(cc, m)[..k] == InputEdges(cc, m);
      ghost var middle := edges;
      k := 0;
      while k < |m.outputs|
        invariant 0 <= k <= |m.outputs|
        invariant edges == middle + OutputEdges(cc, m)[..k]
      {
        assert OutputEdges(cc, m)[..k + 1] == OutputEdges(cc, m)[..k] + [Edge(m.constraintId, m.outputs[k] + cc)];
        edges := edges + [Edge(m.constraintId, m.outputs[k] + cc)];
        k := k + 1;
      }
      assert OutputEdges(cc, m)[..k] == OutputEdges(cc, m);
      assert ids[..j + 1][..j] == ids[..j];
      j := j + 1;
    }
    assert ids[..j] == ids;
    g := Graph(task.propertiesCount + cc, edges);
  }

  /** With valid methods selected, every dependency edge joins two vertices of the graph. */
  lemma DependencyGraphValid(task: Task, ids: seq<nat>)
    requires forall j :: 0 <= j < |ids| ==> ids[j] < |task.csms| && ValidCSM(task, task.csms[ids[j]])
    ensures ValidGraph(DependencyGraph(task, ids))
  {
    var g := DependencyGraph(task, ids);
    forall id | 0 <= id < |g.edges|
      ensures g.edges[id].from < g.verticesCount && g.edges[id].to < g.verticesCount
    {
      var e := g.edges[id];
      DependencyEdgesMeaning(task, ids, e.from, e.to);
    }
  }

  /** The sort key of each method: the rank of its constraint. */
  function ConstraintRank(task: Task, rank: seq<nat>): seq<int> {
    seq(|task.csms|, i requires 0 <= i < |task.csms| =>
      if task.csms[i].constraintId < |rank| then rank[task.csms[i].constraintId] else 0)
  }

  /**
   * `sol` rearranges the matched methods `m` so that the ranks of their
   * constraints never decrease, for some topological numbering of the
   * dependency graph.
   */
  ghost predicate OrderedPlan(task: Task, m: seq<nat>, sol: seq<nat>) {
    && multiset(sol) == multiset(m)
    && exists rank ::
         && IsTopRank(DependencyGraph(task, m), rank)
         && Indexes(sol, ConstraintRank(task, rank))
         && SortedByKey(sol, ConstraintRank(task, rank))
  }

  /**
   * What planning a "maybe applicable" task yields for a maximum matching
   * `m` (method ids, each once): no plan exactly when the dependency graph of
   * the matched methods has a cycle, and otherwise the matched methods in
   * dependency order.
   */
  ghost predicate Outcome(task: Task, m: seq<nat>, o: Option<Solution>) {
    && (forall j :: 0 <= j < |m| ==> m[j] < |task.csms|)
    && Distinct(m)
    && IsMaximumMatching(MatchingGraph(task), Elements(m))
    && (o.None? <==> HasCycle(DependencyGraph(task, m)))
    && (o.Some? ==> OrderedPlan(task, m, o.value.csmIds))
  }

  /**
   * The planner: a usage error and "not applicable" come straight from the
   * scan; otherwise it matches, builds the dependency graph of the matched
   * methods, sorts it topologically and orders the matched methods by the
   * rank of their constraints.
   */
  method TrySolve(task: Task) returns (r: Result<Option<Solution>>)
    ensures Verdict(task, task.csms).Err? ==> r == Err(Verdict(task, task.csms).error)
    ensures Verdict(task, task.csms) == Ok(NotApplicable) ==> r == Ok(None)
    ensures Verdict(task, task.csms) == Ok(MaybeApplicable) ==> r.Ok? && exists m :: Outcome(task, m, r.value)
  {
    var applicability := IsApplicable(task);
    if applicability.Err? {
      return Err(applicability.error);
    }
    if applicability.value == NotApplicable {
      return Ok(None);
    }
    NeverApplicable(task, task.csms);
    assert applicability.value == MaybeApplicable;
    MaybeIffAllPass(task, task.csms);
    MatchingGraphValid(task);
    var matchingGraph := BuildMatchingGraph(task);
    var ids := GetMaxCostMatching(matchingGraph);
    assert Distinct(ids) by {
      forall i, j | 0 <= i < j < |ids| ensures ids[i] != ids[j] {
        assert matchingGraph.edges[ids[i]].to < matchingGraph.edges[ids[j]].to;
      }
    }
    DependencyGraphValid(task, ids);
    var dependencyGraph := BuildDependencyGraph(task, ids);
    var topOrder := GetTopOrder(dependencyGraph);
    if topOrder.None? {
      assert Outcome(task, ids, None);
      return Ok(None);
    }
    var rank := topOrder.value;
    var key := ConstraintRank(task, rank);
    var a := new nat[|ids|](i requires 0 <= i < |ids| => ids[i]);
    assert a[..] == ids;
    SortByKey(a, key);
    var sol := a[..];
    assert OrderedPlan(task, ids, sol);
    assert Outcome(task, ids, Some(Solution(sol)));
    return Ok(Some(Solution(sol)));
  }

  /** A method without outputs is always among the matched methods. */
  lemma DegenerateAlwaysMatched(task: Task, m: seq<nat>, o: Option<Solution>, i: nat)
    requires Verdict(task, task.csms) == Ok(MaybeApplicable) && Outcome(task, m, o)
    requires i < |task.csms| && task.csms[i].outputs == []
    ensures i in m
    ensures o.Some? ==> i in o.value.csmIds
  {
    MaybeIffAllPass(task, task.csms);
    DegenerateIsolated(task, i);
    IsolatedEdgeIsMatched(MatchingGraph(task), Elements(m), i);
    if o.Some? {
      assert i in multiset(o.value.csmIds);
    }
  }

  /**
   * Producer before consumer: in a returned plan, a method writing property
   * `p` comes before every method reading `p`.
   */
  lemma ProducerBeforeConsumer(task: Task, m: seq<nat>, sol: seq<nat>, i: nat, j: nat, p: nat)
    requires Outcome(task, m, Some(Solution(sol)))
    requires i < |sol| && j < |sol| && sol[i] < |task.csms| && sol[j] < |task.csms|
    requires p in task.csms[sol[i]].outputs && p in task.csms[sol[j]].inputs
    ensures i < j
  {
    var rank :| && IsTopRank(DependencyGraph(task, m), rank)
                && Indexes(sol, ConstraintRank(task, rank))
                && SortedByKey(sol, ConstraintRank(task, rank));
    assert sol[i] in multiset(m) && sol[j] in multiset(m);
    WriterFeeds(task, m, sol[i], p);
    ReaderFeeds(task, m, sol[j], p);
    var cc := task.constraintsCount;
    var writer, reader := task.csms[sol[i]].constraintId, task.csms[sol[j]].constraintId;
    RankRespectsFeeds(task, m, rank, writer, p + cc);
    RankRespectsFeeds(task, m, rank, p + cc, reader);
    var key := ConstraintRank(task, rank);
    assert key[sol[i]] < key[sol[j]];
  }
}
