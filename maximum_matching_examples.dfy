/**
 * The maximum-matching planner on the tasks of its own test-suite. Each
 * lemma derives, from the outcome the planner promises for every maximum
 * matching, the answer the corresponding test expects; each method runs the
 * planner on that task and states the answer as its postcondition.
 */
module MaximumMatchingExamples {
  import opened Tasks
  import opened SetFacts
  import opened Graphs
  import opened Sorting
  import opened MaximumMatching

  /** A graph without edges has no cycle. */
  lemma NoEdgesNoCycle(g: Graph)
    requires g.edges == []
    ensures !HasCycle(g)
  {
    forall c ensures !IsCycle(g, c) {
      if |c| >= 2 {
        assert !HasEdge(g, c[0], c[1]);
      }
    }
  }

  /** A task without methods is planned as the empty plan, whatever its counts. */
  lemma EmptyTaskPlansNothing(pc: nat, cc: nat, m: seq<nat>, o: Option<Solution>)
    requires Outcome(Task(pc, cc, []), m, o)
    ensures o == Some(Solution([]))
  {
    var task := Task(pc, cc, []);
    assert Elements(m) == {};
    DistinctCard(m);
    NoEdgesNoCycle(DependencyGraph(task, m));
    var sol := o.value.csmIds;
    assert |sol| == |multiset(sol)| == 0;
  }

  method SolveEmptyTask(pc: nat, cc: nat) returns (r: Result<Option<Solution>>)
    ensures r == Ok(Some(Solution([])))
  {
    var task := Task(pc, cc, []);
    r := TrySolve(task);
    ghost var m :| Outcome(task, m, r.value);
    EmptyTaskPlansNothing(pc, cc, m, r.value);
  }

  /** Two constraints over three properties; only methods 1 and 2 can both be selected. */
  function SimpleTask(): Task {
    Task(3, 2, [CSM(0, [0], [1]), CSM(0, [0], [2]), CSM(1, [0], [1])])
  }

  /** The only maximum matching selects methods 1 and 2. */
  lemma SimpleMatchesOneAndTwo(m: seq<nat>)
    requires IsMaximumMatching(MatchingGraph(SimpleTask()), Elements(m))
    ensures Elements(m) == {1, 2}
  {
    var g := MatchingGraph(SimpleTask());
    assert g.edges == [Edge(0, 1), Edge(0, 2), Edge(1, 1)];
    var e := Elements(m);
    assert IsMatching(g, {1, 2});
    assert |{1, 2}| == 2;
    assert 0 !in e by {
      if 0 in e {
        assert 1 !in e && 2 !in e;
        assert e <= {0};
        SubsetCard(e, {0});
      }
    }
    assert e <= {1, 2};
    SubsetFull(e, {1, 2});
  }

  lemma SimplePlanUsesOneAndTwo(m: seq<nat>, o: Option<Solution>)
    requires Outcome(SimpleTask(), m, o)
    ensures o.Some? && multiset(o.value.csmIds) == multiset{1, 2}
  {
    SimpleMatchesOneAndTwo(m);
    SimpleHasPlan(m);
    var e := Elements(m);
    assert forall x :: x in m <==> x in e;
    DistinctSameSetMultiset(m, [1, 2]);
  }

  /** Methods 1 and 2 feed no cycle, so they have a plan. */
  lemma SimpleHasPlan(m: seq<nat>)
    requires Elements(m) == {1, 2} && forall j :: 0 <= j < |m| ==> m[j] < |SimpleTask().csms|
    ensures !HasCycle(DependencyGraph(SimpleTask(), m))
  {
    var task := SimpleTask();
    var e := Elements(m);
    var rank := [1, 2, 0, 3, 4];
    forall u: nat, v: nat | Feeds(task, m, u, v) ensures u < |rank| && v < |rank| && rank[u] < rank[v] {
      var j :| 0 <= j < |m| && MethodFeeds(task, m[j], u, v);
      assert m[j] in e;
    }
    TopRankFromFeeds(task, m, rank);
    TopRankExcludesCycle(DependencyGraph(task, m), rank);
  }

  method SolveSimpleTask() returns (r: Result<Option<Solution>>)
    ensures r.Ok? && r.value.Some? && multiset(r.value.value.csmIds) == multiset{1, 2}
  {
    r := TrySolve(SimpleTask());
    ghost var m :| Outcome(SimpleTask(), m, r.value);
    SimplePlanUsesOneAndTwo(m, r.value);
  }

  /** Three constraints each writing the property the next one reads, around a ring. */
  function RingTask(): Task {
    Task(3, 3, [CSM(0, [0], [1]), CSM(1, [1], [2]), CSM(2, [2], [0])])
  }

  /** Every method of the ring is matched. */
  lemma RingMatchesAll(m: seq<nat>)
    requires IsMaximumMatching(MatchingGraph(RingTask()), Elements(m))
    ensures Elements(m) == {0, 1, 2}
  {
    var g := MatchingGraph(RingTask());
    assert g.edges == [Edge(0, 1), Edge(1, 2), Edge(2, 0)];
    var e := Elements(m);
    assert IsMatching(g, {0, 1, 2});
    assert |{0, 1, 2}| == 3;
    assert e <= {0, 1, 2};
    SubsetFull(e, {0, 1, 2});
  }

  lemma RingHasNoPlan(m: seq<nat>, o: Option<Solution>)
    requires Outcome(RingTask(), m, o)
    ensures o == None
  {
    RingMatchesAll(m);
    RingCycle(m);
  }

  /** With every method matched, the ring's dependency graph runs around in a cycle. */
  lemma RingCycle(m: seq<nat>)
    requires Elements(m) == {0, 1, 2} && forall j :: 0 <= j < |m| ==> m[j] < |RingTask().csms|
    ensures HasCycle(DependencyGraph(RingTask(), m))
  {
    var task := RingTask();
    assert 0 in Elements(m) && 1 in Elements(m) && 2 in Elements(m);
    ReaderFeeds(task, m, 0, 0);
    WriterFeeds(task, m, 0, 1);
    ReaderFeeds(task, m, 1, 1);
    WriterFeeds(task, m, 1, 2);
    ReaderFeeds(task, m, 2, 2);
    WriterFeeds(task, m, 2, 0);
    var g := DependencyGraph(task, m);
    DependencyHasEdge(task, m, 3, 0);
    DependencyHasEdge(task, m, 0, 4);
    DependencyHasEdge(task, m, 4, 1);
    DependencyHasEdge(task, m, 1, 5);
    DependencyHasEdge(task, m, 5, 2);
    DependencyHasEdge(task, m, 2, 3);
    ClosedWalkOfSix(g, 3, 0, 4, 1, 5, 2);
  }

  /** Six edges that run around back to their start make a cycle. */
  lemma ClosedWalkOfSix(g: Graph, a: nat, b: nat, c: nat, d: nat, e: nat, f: nat)
    requires HasEdge(g, a, b) && HasEdge(g, b, c) && HasEdge(g, c, d)
    requires HasEdge(g, d, e) && HasEdge(g, e, f) && HasEdge(g, f, a)
    ensures HasCycle(g)
  {
    var walk := [a, b, c, d, e, f, a];
    assert IsCycle(g, walk);
  }

  method SolveRingTask() returns (r: Result<Option<Solution>>)
    ensures r == Ok(None)
  {
    r := TrySolve(RingTask());
    ghost var m :| Outcome(RingTask(), m, r.value);
    RingHasNoPlan(m, r.value);
  }

  /**
   * A chain of five constraints, constraint `c` reading property `c` and
   * writing `c + 1`, listed out of order.
   */
  function ChainTask(): Task {
    Task(6, 5, [CSM(3, [3], [4]), CSM(1, [1], [2]), CSM(0, [0], [1]), CSM(4, [4], [5]), CSM(2, [2], [3])])
  }

  /** Every method of the chain is matched. */
  lemma ChainMatchesAll(m: seq<nat>)
    requires IsMaximumMatching(MatchingGraph(ChainTask()), Elements(m))
    ensures Elements(m) == {0, 1, 2, 3, 4}
  {
    var g := MatchingGraph(ChainTask());
    ChainAllMatched();
    assert |{0, 1, 2, 3, 4}| == 5;
    assert |g.edges| == 5;
    BelowFive(Elements(m));
    MaximumCoversAll(g, Elements(m), {0, 1, 2, 3, 4});
  }

  /** The chain's edges share no endpoint, so together they form a matching. */
  lemma ChainAllMatched()
    ensures IsMatching(MatchingGraph(ChainTask()), {0, 1, 2, 3, 4})
  {
    var g := MatchingGraph(ChainTask());
    assert g.edges == [Edge(3, 4), Edge(1, 2), Edge(0, 1), Edge(4, 5), Edge(2, 3)];
  }

  lemma BelowFive(e: set<nat>)
    requires forall id :: id in e ==> id < 5
    ensures e <= {0, 1, 2, 3, 4}
  {
  }

  /** A maximum matching inside a matching at most as large is that matching. */
  lemma MaximumCoversAll(g: BipartiteGraph, e: set<nat>, all: set<nat>)
    requires IsMaximumMatching(g, e) && IsMatching(g, all) && e <= all
    ensures e == all
  {
    SubsetFull(e, all);
  }

  /** The chain is acyclic, so it has a plan. */
  lemma ChainHasPlan(m: seq<nat>)
    requires forall j :: 0 <= j < |m| ==> m[j] < |ChainTask().csms|
    ensures !HasCycle(DependencyGraph(ChainTask(), m))
  {
    var task := ChainTask();
    var rank := seq(11, v => if v < 5 then 2 * v + 1 else 2 * (v - 5));
    forall u: nat, v: nat | Feeds(task, m, u, v) ensures u < |rank| && v < |rank| && rank[u] < rank[v] {
      var j :| 0 <= j < |m| && MethodFeeds(task, m[j], u, v);
    }
    TopRankFromFeeds(task, m, rank);
    TopRankExcludesCycle(DependencyGraph(task, m), rank);
  }

  /** The chain's method of constraint `c`. */
  function ChainMethod(c: nat): nat
    requires c < 5
  {
    ChainOrder()[c]
  }

  /**
   * Constraint `c` writes property `c + 1`, which constraint `c + 1` reads,
   * so every topological numbering ranks `c` below `c + 1`.
   */
  lemma ChainLink(m: seq<nat>, rank: seq<nat>, c: nat)
    requires c < 4 && ChainMethod(c) in m && ChainMethod(c + 1) in m
    requires forall j :: 0 <= j < |m| ==> m[j] < 5
    requires IsTopRank(DependencyGraph(ChainTask(), m), rank)
    ensures c + 1 < |rank| && rank[c] < rank[c + 1]
  {
    var task := ChainTask();
    var writer, reader := ChainMethod(c), ChainMethod(c + 1);
    assert task.csms[writer] == CSM(c, [c], [c + 1]) && task.csms[reader] == CSM(c + 1, [c + 1], [c + 2]);
    WriterFeeds(task, m, writer, c + 1);
    ReaderFeeds(task, m, reader, c + 1);
    RankRespectsFeeds(task, m, rank, c, c + 6);
    RankRespectsFeeds(task, m, rank, c + 6, c + 1);
  }

  /** Any topological numbering ranks the chain's constraints in chain order. */
  lemma ChainRanks(m: seq<nat>, rank: seq<nat>)
    requires Elements(m) == {0, 1, 2, 3, 4}
    requires IsTopRank(DependencyGraph(ChainTask(), m), rank)
    ensures |rank| == 11 && rank[0] < rank[1] < rank[2] < rank[3] < rank[4]
  {
    assert forall j :: 0 <= j < |m| ==> m[j] in Elements(m);
    assert 0 in m && 1 in m && 2 in m && 3 in m && 4 in m;
    ChainLink(m, rank, 0);
    ChainLink(m, rank, 1);
    ChainLink(m, rank, 2);
    ChainLink(m, rank, 3);
  }

  /** The chain order, by method. */
  function ChainOrder(): seq<nat> {
    [2, 1, 4, 0, 3]
  }

  /** Keys that grow along the chain order sort it strictly and tell its methods apart. */
  lemma ChainOrderStrict(key: seq<int>)
    requires |key| == 5 && key[2] < key[1] < key[4] < key[0] < key[3]
    ensures Indexes(ChainOrder(), key) && StrictlySortedByKey(ChainOrder(), key) && Distinct(ChainOrder())
    ensures forall x, y :: x in ChainOrder() && y in ChainOrder() && x != y ==> key[x] != key[y]
  {
    var e := ChainOrder();
    assert key[e[0]] < key[e[1]] < key[e[2]] < key[e[3]] < key[e[4]];
    StepsStrictlySorted(e, key);
  }

  /**
   * A rearrangement `sol` of the distinct methods `m`, sorted by `key`, is
   * `expected` when `expected` holds the same methods strictly sorted by
   * keys that tell them apart.
   */
  lemma SortedPlanIs(sol: seq<nat>, m: seq<nat>, expected: seq<nat>, key: seq<int>)
    requires Distinct(m) && Distinct(expected) && multiset(sol) == multiset(m)
    requires forall x :: x in m <==> x in expected
    requires Indexes(sol, key) && SortedByKey(sol, key)
    requires Indexes(expected, key) && StrictlySortedByKey(expected, key)
    requires forall x, y :: x in expected && y in expected && x != y ==> key[x] != key[y]
    ensures sol == expected
  {
    DistinctSameSetMultiset(m, expected);
    PermutationDistinct(sol, m);
    forall x | x in sol ensures x in expected {
      assert x in multiset(sol);
    }
    SortedDistinctKeysStrict(sol, key);
    StrictlySortedUnique(sol, expected, key);
  }

  /**
   * A plan that lists the five chain methods once each, sorted by keys that
   * grow along the chain, is the chain order itself.
   */
  lemma ChainSortedPlan(sol: seq<nat>, m: seq<nat>, key: seq<int>)
    requires Elements(m) == {0, 1, 2, 3, 4} && Distinct(m) && multiset(sol) == multiset(m)
    requires |key| == 5 && key[2] < key[1] < key[4] < key[0] < key[3]
    requires Indexes(sol, key) && SortedByKey(sol, key)
    ensures sol == ChainOrder()
  {
    ChainOrderStrict(key);
    var e := ChainOrder();
    assert forall x :: x in m <==> x in Elements(m);
    assert forall x :: x in e <==> x in {0, 1, 2, 3, 4};
    SortedPlanIs(sol, m, e, key);
  }

  /** The shuffled chain is planned exactly in chain order. */
  lemma ChainPlanInOrder(m: seq<nat>, o: Option<Solution>)
    requires Outcome(ChainTask(), m, o)
    ensures o == Some(Solution(ChainOrder()))
  {
    ChainMatchesAll(m);
    ChainHasPlan(m);
    ChainOrderedPlan(m, o.value.csmIds);
  }

  /** Every order of the matched chain by constraint rank is the chain order. */
  lemma ChainOrderedPlan(m: seq<nat>, sol: seq<nat>)
    requires Elements(m) == {0, 1, 2, 3, 4} && Distinct(m)
    requires OrderedPlan(ChainTask(), m, sol)
    ensures sol == ChainOrder()
  {
    var task := ChainTask();
    var rank :| && IsTopRank(DependencyGraph(task, m), rank)
                && Indexes(sol, ConstraintRank(task, rank))
                && SortedByKey(sol, ConstraintRank(task, rank));
    ChainRanks(m, rank);
    var key := ConstraintRank(task, rank);
    assert key == [rank[3], rank[1], rank[0], rank[4], rank[2]];
    ChainSortedPlan(sol, m, key);
  }

  /** Every method of the chain passes the scan. */
  lemma ChainMaybeApplicable()
    ensures Verdict(ChainTask(), ChainTask().csms) == Ok(MaybeApplicable)
  {
    var task := ChainTask();
    forall i | 0 <= i < |task.csms| ensures Passes(task, task.csms[i]) {
    }
    MaybeIffAllPass(task, task.csms);
  }

  method SolveChainTask() returns (r: Result<Option<Solution>>)
    ensures r == Ok(Some(Solution([2, 1, 4, 0, 3])))
  {
    ChainMaybeApplicable();
    r := TrySolve(ChainTask());
    ghost var m :| Outcome(ChainTask(), m, r.value);
    ChainPlanInOrder(m, r.value);
  }

  /**
   * A constraint with a method writing property 1 and a method without
   * outputs reading properties 0 and 1: both methods are matched, the
   * second reads what the first writes, and the planner finds no plan.
   */
  function WriterAndCheckTask(): Task {
    Task(2, 1, [CSM(0, [0], [1]), CSM(0, [0, 1], [])])
  }

  /** Both methods are matched: the second goes to a fictitious vertex of its own. */
  lemma WriterAndCheckMatchBoth(m: seq<nat>)
    requires IsMaximumMatching(MatchingGraph(WriterAndCheckTask()), Elements(m))
    ensures Elements(m) == {0, 1}
  {
    var task := WriterAndCheckTask();
    var g := MatchingGraph(task);
    assert task.csms[..1] == [CSM(0, [0], [1])];
    assert g.edges == [Edge(0, 1), Edge(1, 2)];
    var e := Elements(m);
    assert IsMatching(g, {0, 1});
    assert |{0, 1}| == 2;
    assert e <= {0, 1};
    SubsetFull(e, {0, 1});
  }

  lemma WriterAndCheckHaveNoPlan(m: seq<nat>, o: Option<Solution>)
    requires Outcome(WriterAndCheckTask(), m, o)
    ensures o == None
  {
    var task := WriterAndCheckTask();
    WriterAndCheckMatchBoth(m);
    assert 0 in Elements(m) && 1 in Elements(m);
    WriterFeeds(task, m, 0, 1);
    ReaderFeeds(task, m, 1, 1);
    DependencyHasEdge(task, m, 0, 2);
    DependencyHasEdge(task, m, 2, 0);
    assert IsCycle(DependencyGraph(task, m), [0, 2, 0]);
  }

  method SolveWriterAndCheckTask() returns (r: Result<Option<Solution>>)
    ensures r == Ok(None)
  {
    r := TrySolve(WriterAndCheckTask());
    ghost var m :| Outcome(WriterAndCheckTask(), m, r.value);
    WriterAndCheckHaveNoPlan(m, r.value);
  }
}
