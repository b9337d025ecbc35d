# Property models: the planners and the model state, in Dafny

`property_models` is a C++ library for multi-way dataflow constraints. A
*property model* holds properties (typed values) and constraints. Each
constraint offers several constraint-satisfaction methods (CSMs), and each
method reads some properties and writes others. To keep the constraints
satisfied, a *planner* picks one method per constraint and puts them in an
order. A planner works on a *task*: a property count, a constraint count
and a flat list of methods. It answers with a *solution*, an ordered list of
method indices.

This project models the library's planning engine and the objects around it:

- **Maximum-matching planner** (`MaximumMatching`, `Kuhn`, `TopOrder`, `Graphs`, `Sorting`).
  - It validates the task and builds a bipartite graph of constraints against
    the property each method writes. A method without outputs gets a
    fictitious vertex on each side.
  - It runs Kuhn's augmenting-path matching.
  - It builds the dependency graph "input property → constraint → output
    property" of the matched methods and sorts it topologically with a
    three-colour depth-first search. A cycle means no plan.
  - It orders the matched methods by the rank of their constraint.
- **Quick-plan planner** (`QuickPlan`, `ConstraintGraphs`, `BidirectionalMaps`, `GraphSnapshots`, `SieveSteps`,
  and the loop-state modules `GraphTables`, `GraphBuildSteps`, `GraphEditSteps`, `TableEdits`).
  - It accepts a task when all methods of a constraint mention the same properties.
  - It builds a mutable constraint hyper-graph on bidirectional maps.
  - It sieves the graph down: drop a property of degree 1, or pick a method
    without live outputs and drop its constraint.
  - It sieves the rest back up, constraint by constraint.
  - It plans the reverse of the picked methods. The model runs the
    sieve-up picks first, so that every method runs after the writers of
    its inputs (see "## Findings").
- **Combined solver** (`Combined`).
  - It combines the slaves' applicability three ways.
  - It tries the slaves in two passes. The default slaves are quick-plan,
    then maximum matching.
- **Model orchestrator, constraints and properties** (`PropertyModels`, `ModelStates`).
  - Properties and constraints get dense ids.
  - A write clock stamps property writes.
  - A freeze flag suppresses updates, and a freeze guard holds it.
  - An update orders the properties by recency and fires the callback once.
  - Constraints can be enabled and disabled, and carry an importance.
  - Properties notify the model when they are written.

How the model is built:

- Usage errors that the C++ code throws become the `Err` case of a `Result`.
  "No plan" is `Ok(None)`. The constraint graph's own exceptions, which the
  planner never provokes, become `None` or a `false` result instead.
- The hash-set order the quick-plan graph relies on, where it takes "some
  property of degree 1" or "some method with no outputs", is a
  nondeterministic choice. Every property is proved for every choice.
- Each in-place operation is a method whose postcondition relates the new
  state to a function of the old one:
  - the constraint graph's contents are the `GraphSnapshots.Snapshot` value `Model()`;
  - a property model's observable state is the `ModelStates.ModelState` value `State()`.
- The lemmas about those functions carry the invariants that were proved:
  - the graph's tables stay coherent;
  - the clock stays ahead of every stamp;
  - the callback fires once per freeze.

Where the intended behaviour and the code disagree, the model follows the code, with one exception:

- The quick-plan applicability check does not quite demand equal domains.
  - It treats an empty recorded domain as "no method seen yet".
  - It compares the size of that domain with the *list* lengths of a later
    method's inputs and outputs.
  - So a constraint whose first method mentions nothing, or one whose later
    method repeats an id, can be accepted with differing domains.
  - `QuickPlan.EmptyDomainAccepted` and `QuickPlan.RepeatedIdAccepted` exhibit both cases.
- `SieveUp` walks every constraint in ascending id order once. Every
  candidate that sieves away completely replaces the previous one, so the
  *last* success is kept.
- The quick-plan planner always returns a plan for an applicable task. It
  never reports "no plan" when the sieves leave methods behind.
- In the combined solver, an applicable slave that finds no plan falls
  through into the deferred list and is asked again in the second pass.
- `Update` only orders the properties by recency and fires the callback.
  It builds no task and calls no planner.
- The exception: the quick-plan planner puts the sieve-up picks in front
  of the sieve-down picks and reverses the whole list. So the methods
  picked going down run before the core they read from.
  - `QuickPlan.AsWrittenPlan` is that assembly, and
    `QuickPlan.AsWrittenRunsReaderFirst` shows a task where it runs a
    reader before the writer of its input.
  - The model's planner uses `QuickPlan.CorrectedPlan`, which runs the
    sieve-up picks first. `QuickPlan.ProducerBeforeConsumer` proves that
    every writer then runs before its readers.

## Model

| member | source | states |
|---|---|---|
| Tasks.CheckCSM | src/solver/maximum_matching.cpp:145-166 | The usage error a method raises, in the order the checks run: its constraint id is out of range; else one of its property ids is out of range; else an input is also an output. The result is `None` exactly when the method is valid. |
| Tasks.ValidateCSM | src/solver/quick_plan.cpp:285-306 | The loop form of the per-method checks gives exactly `CheckCSM`'s verdict. |
| Tasks.OneMethodPerConstraintIsDistinct | src/solver/maximum_matching.cpp:213-215 | A plan with one method per constraint names no method twice. |
| Graphs.IsolatedEdgeIsMatched | src/solver/maximum_matching.cpp:196-205 | An edge sharing no endpoint with another edge is in every maximum matching. So the fictitious edge of a method without outputs is always matched. |
| Graphs.RankIncreasesAlongWalk | src/solver/maximum_matching.cpp:133-136 | Along any walk of the graph, a topological numbering strictly increases. |
| Graphs.TopRankExcludesCycle | src/solver/maximum_matching.cpp:125-139 | A graph that has a topological numbering has no cycle. |
| Sorting.SortByKey | src/solver/maximum_matching.cpp:245-253 | The in-place sort leaves the array a permutation of its old contents, ordered by non-decreasing key. |
| Sorting.InsertAt | src/solver/maximum_matching.cpp:245-253 | One insertion step extends the sorted prefix by one element and keeps the contents as a multiset. |
| Sorting.Swap | src/solver/maximum_matching.cpp:245-253 | Exchanging two neighbours changes exactly those two cells and keeps the multiset. |
| Sorting.SortedDistinctKeysStrict | src/solver/maximum_matching.cpp:245-253 | A sorted list whose keys are pairwise distinct is strictly sorted. |
| Sorting.StrictlySortedUnique | src/solver/maximum_matching.cpp:245-253 | Two strictly sorted permutations of each other are equal. So with distinct keys the unstable sort has only one outcome. |
| Kuhn.BuildAdjacency | src/solver/maximum_matching.cpp:28-33 | The list of each left vertex holds exactly the ids of the edges leaving it. |
| Kuhn.Search.constructor | src/solver/maximum_matching.cpp:35-38 | The search starts with no right vertex chosen and no left vertex visited. |
| Kuhn.Search.ResetVisited | src/solver/maximum_matching.cpp:61-64 | Clearing the visited marks keeps the chosen edges. |
| Kuhn.Search.TryKuhn | src/solver/maximum_matching.cpp:39-60 | The recursive search from `u` marks `u` visited and only adds visited marks. On failure the chosen edges are unchanged and everything newly visited is blocked. On success `u` was unvisited, the chosen edges gain exactly one owner `u`, and every other vertex that owned a right vertex still owns one. |
| Kuhn.Search.TryEdge | src/solver/maximum_matching.cpp:49-56 | One edge of the loop: either the edge's right vertex is now blocked and nothing changed, or the edge was taken (the right vertex was free or its owner was re-routed), giving `u` one more right vertex. |
| Kuhn.Search.Choose | src/solver/maximum_matching.cpp:54 | Choosing edge `id` for right vertex `v` changes only `chosen[v]`. |
| Kuhn.Search.Augment | src/solver/maximum_matching.cpp:67-73 | One iteration of the outer loop: a successful search adds one matched left vertex; a failed one adds its visited set to the closed certificate. |
| Kuhn.GetMaxCostMatching | src/solver/maximum_matching.cpp:26-86 | The result lists edge ids of the graph, ordered by right vertex. They form a matching, and no matching of the graph has more edges. |
| Kuhn.CollectChosen | src/solver/maximum_matching.cpp:75-85 | Gathering the chosen edge of every right vertex lists exactly the chosen edges, by ascending right vertex. |
| Kuhn.OwnersUpdate | src/solver/maximum_matching.cpp:54 | Re-choosing one right vertex changes the multiset of owning left vertices by exactly the old and the new owner. |
| Kuhn.DistinctOwnersPairwise | src/solver/maximum_matching.cpp:52-55 | While each left vertex owns at most one right vertex, two right vertices never share an owner. |
| Kuhn.ChosenEdgesMatching | src/solver/maximum_matching.cpp:77-83 | The chosen edges form a matching whose size is the number of matched left vertices. |
| Kuhn.MatchingBound | src/solver/maximum_matching.cpp:66-73 | Given the closed certificate, no matching has more edges than there are matched left vertices. |
| Kuhn.MaximalityCertificate | src/solver/maximum_matching.cpp:66-73 | Once every left vertex has been tried, the chosen edges are a maximum matching. |
| Kuhn.ClosedAfterFailure | src/solver/maximum_matching.cpp:59 | After a failed search, the vertices it visited join the closed set, and every edge out of that set still ends in a right vertex owned inside it. |
| Kuhn.ClosedAfterSuccess | src/solver/maximum_matching.cpp:54-55 | A successful search keeps the closed set closed. |
| Kuhn.UnvisitedShrinks | src/solver/maximum_matching.cpp:44-47 | Visiting a vertex lowers the number of unvisited vertices, which bounds the recursion. |
| TopOrder.BuildSuccessors | src/solver/maximum_matching.cpp:90-93 | The list of each vertex holds exactly the heads of the edges leaving it. |
| TopOrder.DepthFirst.constructor | src/solver/maximum_matching.cpp:95-97 | Every vertex starts white and the finishing order starts empty. |
| TopOrder.DepthFirst.Dfs | src/solver/maximum_matching.cpp:98-120 | Reporting a cycle means the graph has one. Otherwise `u` is black, the gray vertices are still the current path, and colours only advance. |
| TopOrder.DepthFirst.Enter | src/solver/maximum_matching.cpp:107 | A white vertex turns gray and joins the current path. |
| TopOrder.DepthFirst.VisitSuccessors | src/solver/maximum_matching.cpp:109-119 | On success every successor of `u` is black, and then `u` is finished. |
| TopOrder.DepthFirst.VisitSuccessor | src/solver/maximum_matching.cpp:109-115 | One successor: a cycle is real, and otherwise this and all earlier successors are black. |
| TopOrder.DepthFirst.FinishVertex | src/solver/maximum_matching.cpp:117-118 | A gray vertex turns black and is appended to the finishing order. |
| TopOrder.CycleThroughPath | src/solver/maximum_matching.cpp:104-105 | Reaching a gray vertex, which lies on the current path, closes a cycle. |
| TopOrder.RankFromOrder | src/solver/maximum_matching.cpp:133-136 | Numbering the vertices in reverse finishing order gives a topological numbering. |
| TopOrder.GetTopOrder | src/solver/maximum_matching.cpp:88-139 | The result is `None` exactly when the graph has a cycle. Otherwise it is a numbering of the vertices by 0..V-1, each number once, increasing along every edge. |
| TopOrder.NumberByFinish | src/solver/maximum_matching.cpp:133-136 | The i-th finished vertex gets number V-i-1. |
| MaximumMatching.IsApplicable | src/solver/maximum_matching.cpp:143-174 | The scan's verdict is exactly `Verdict`: the first method's usage error, or "not applicable" at the first method with several outputs, or else "maybe applicable". |
| MaximumMatching.NeverApplicable | src/solver/maximum_matching.cpp:168-173 | The verdict is never "applicable". |
| MaximumMatching.MaybeIffAllPass | src/solver/maximum_matching.cpp:143-173 | The verdict is "maybe applicable" exactly when every method is valid and has at most one output. |
| MaximumMatching.VerdictAtFirstStop | src/solver/maximum_matching.cpp:144-170 | Any other verdict comes from the first method that fails: its usage error if it has one, else "not applicable". Methods after it are not examined. |
| MaximumMatching.BuildMatchingGraph | src/solver/maximum_matching.cpp:191-211 | The graph has one edge per method, in method order: constraint to first output, or a fresh fictitious pair of vertices for a method without outputs. |
| MaximumMatching.MatchingGraphValid | src/solver/maximum_matching.cpp:191-211 | Every edge of the matching graph joins vertices of the two parts. |
| MaximumMatching.DegenerateIsolated | src/solver/maximum_matching.cpp:197-204 | The edge of a method without outputs shares no vertex with another edge. |
| MaximumMatching.DegenerateAlwaysMatched | src/solver/maximum_matching.cpp:196-215 | Every method without outputs is in the matching and in any plan. |
| MaximumMatching.BuildDependencyGraph | src/solver/maximum_matching.cpp:218-237 | The dependency graph has P+C vertices; property `p` is vertex `p+C`, and the matched methods' edges are added in order. |
| MaximumMatching.DependencyGraphValid | src/solver/maximum_matching.cpp:218-237 | Every edge of the dependency graph stays within its vertex count. |
| MaximumMatching.DependencyHasEdge | src/solver/maximum_matching.cpp:221-236 | The dependency graph has an edge u→v exactly when a matched method reads property u into constraint v, or its constraint u writes property v. |
| MaximumMatching.DependencyEdgesMeaning | src/solver/maximum_matching.cpp:221-236 | The edge list contains u→v exactly when some matched method feeds u into v. |
| MaximumMatching.MethodEdgesMeaning | src/solver/maximum_matching.cpp:224-235 | One method contributes exactly its input→constraint and constraint→output edges. |
| MaximumMatching.RankRespectsFeeds | src/solver/maximum_matching.cpp:239-243 | In a topological numbering, whatever feeds a vertex is numbered below it. |
| MaximumMatching.TrySolve | src/solver/maximum_matching.cpp:176-256 | A usage error and "not applicable" are passed on unchanged. For a "maybe applicable" task, for some maximum matching `m` of the matching graph: there is no plan exactly when `m`'s dependency graph has a cycle, and otherwise the plan is `m` reordered so that the constraints' ranks never decrease. |
| MaximumMatching.ProducerBeforeConsumer | src/solver/maximum_matching.cpp:245-253 | In a plan, a method writing a property comes strictly before every planned method of another constraint that reads it. |
| MaximumMatchingExamples.SolveEmptyTask | tests/solver/maximum_matching.cpp:115-144 | A task without methods is planned as the empty plan, whatever its counts. |
| MaximumMatchingExamples.EmptyTaskPlansNothing | src/solver/maximum_matching.cpp:191-255 | Every outcome of the empty task is the empty plan. |
| MaximumMatchingExamples.SolveSimpleTask | tests/solver/maximum_matching.cpp:229-265 | The simple task plans exactly methods 1 and 2. |
| MaximumMatchingExamples.SimpleMatchesOneAndTwo | src/solver/maximum_matching.cpp:66-73 | The only maximum matching of the simple task selects methods 1 and 2. |
| MaximumMatchingExamples.SolveRingTask | tests/solver/maximum_matching.cpp:187-227 | The three-constraint ring 0→1→2→0 has no plan. |
| MaximumMatchingExamples.RingHasNoPlan | src/solver/maximum_matching.cpp:239-243 | Every maximum matching of the ring has a cyclic dependency graph. |
| MaximumMatchingExamples.SolveChainTask | tests/solver/maximum_matching.cpp:330-368 | The shuffled chain is planned exactly as [2,1,4,0,3]. |
| MaximumMatchingExamples.ChainPlanInOrder | src/solver/maximum_matching.cpp:245-253 | Every outcome of the shuffled chain is the plan [2,1,4,0,3]. |
| MaximumMatchingExamples.ChainRanks | src/solver/maximum_matching.cpp:239-253 | Any topological numbering of the chain's dependency graph ranks constraints 0 to 4 in order. |
| MaximumMatchingExamples.SolveWriterAndCheckTask | src/solver/maximum_matching.cpp:196-243 | A constraint with a method writing property 1 and a method without outputs reading it gets both methods matched, the dependency graph closes a cycle, and there is no plan. |
| QuickPlan.IsApplicable | src/solver/quick_plan.cpp:282-337 | The loop's verdict is exactly `Verdict`, the scan that records each constraint's first domain. |
| QuickPlan.AgreesWith | src/solver/quick_plan.cpp:315-333 | A later method agrees with the recorded domain exactly when their sizes match and all its ids are in it. |
| QuickPlan.AllIn | src/solver/quick_plan.cpp:319-333 | True exactly when every listed id is in the domain. |
| QuickPlan.ScanNeverMaybe | src/solver/quick_plan.cpp:282-337 | The verdict is never "maybe applicable". |
| QuickPlan.ScanErrors | src/solver/quick_plan.cpp:284-306 | An error is the usage error of the first invalid method, none before it being invalid. An "applicable" verdict means every method is valid. |
| QuickPlan.ApplicableIffSameDomains | src/solver/quick_plan.cpp:308-336 | For well-formed tasks whose methods each mention some property and list no id twice, "applicable" holds exactly when all methods of each constraint have the same input∪output set. |
| QuickPlan.ScanSameDomains | src/solver/quick_plan.cpp:308-336 | From any point of the scan, the rest is accepted exactly when every later method's domain equals the domain recorded for its constraint. |
| QuickPlan.RecordedMeaning | src/solver/quick_plan.cpp:308-313 | A constraint's recorded domain is empty until one of its methods is seen, and is then that first method's domain. |
| QuickPlan.ApplicableWellFormed | src/solver/quick_plan.cpp:284-306 | An applicable task has all ids in range and no method whose inputs meet its outputs. |
| QuickPlan.EmptyDomainAccepted | src/solver/quick_plan.cpp:308-313 | A constraint whose first method mentions nothing is accepted together with a second method that mentions property 0. |
| QuickPlan.RepeatedIdAccepted | src/solver/quick_plan.cpp:315-333 | A method listing property 0 twice is accepted after a method with domain {0,1}, though its domain is {0}. |
| QuickPlan.SieveDown | src/solver/quick_plan.cpp:233-255 | The loop stops only where neither step applies. The picked methods have pairwise distinct constraints, exactly those constraints are gone, and the remaining constraints keep all their methods. Each pick wrote only properties already gone when it was picked: no later pick and no method left mentions what it writes, and a gone property is mentioned by at most one constraint left. |
| SieveSteps.SievedNone | src/solver/quick_plan.cpp:233-234 | Before the first step, the graph is related to itself with no picks: nothing is gone and every record holds. |
| SieveSteps.OnlyToucher | src/solver/quick_plan.cpp:237-240 | A live property of degree 1 is touched by exactly one constraint, the one whose method mentions it. |
| SieveSteps.PickInOrder | src/solver/quick_plan.cpp:243-248 | Picking a method without live outputs and dropping its constraint keeps the pick-order records: it mentions nothing an earlier pick writes, and nothing left mentions what it writes. |
| SieveSteps.DownThenUpInOrder | src/solver/quick_plan.cpp:339-352 | The sieve-down picks followed by the sieve-up picks of a part of what is left are in pick order: no method mentions what a method before it in that list writes. |
| QuickPlan.SieveUp | src/solver/quick_plan.cpp:257-278 | The constraints are tried in ascending id order. The graph ends with no methods, and it is what sieving some part of the old graph made of whole constraints down to nothing leaves; the picked methods are those of that sieve. |
| QuickPlan.TryConstraint | src/solver/quick_plan.cpp:263-269 | The candidate adds constraint `c` to the kept part. The candidate copy is sieved down fully, and `emptied` says whether no methods remain. |
| QuickPlan.CopiedWith | src/solver/quick_plan.cpp:263-264 | The copy of the kept part plus constraint `c` is still made of whole constraints of the graph. |
| QuickPlan.TrySolve | src/solver/quick_plan.cpp:339-355 | A usage error and "not applicable" give no plan. An applicable task always gets a plan: the sieve-up picks and then the sieve-down picks, each in reverse pick order. |
| QuickPlan.PlannedFromSieves | src/solver/quick_plan.cpp:346-352 | The picks of a downward sieve and of an upward sieve of part of what it left, assembled in data-flow order, are a quick plan. |
| QuickPlan.ReversedConcat | src/solver/quick_plan.cpp:350-352 | Reversing two lists put together gives the reversal of the second followed by that of the first. |
| QuickPlan.AsWrittenPlan | src/solver/quick_plan.cpp:346-352 | The source's assembly, reverse(up ++ down), is the reversed down picks followed by the reversed up picks. So the down picks run first. |
| QuickPlan.CorrectedPlan | src/solver/quick_plan.cpp:346-352 | The corrected assembly, reverse(down ++ up), is the reversed up picks followed by the reversed down picks. |
| QuickPlan.ReversedInOrder | src/solver/quick_plan.cpp:352 | Methods listed in pick order, reversed, are in data-flow order: no method mentions what a method running after it writes. |
| QuickPlan.DownPlanInOrder | src/solver/quick_plan.cpp:346-352 | The sieve-down picks alone, in reverse pick order, are in data-flow order. |
| QuickPlan.QuickPlannedInOrder | src/solver/quick_plan.cpp:339-355 | Every quick plan is in data-flow order. |
| QuickPlan.ProducerBeforeConsumer | src/solver/quick_plan.cpp:339-355 | In a quick plan of an applicable task, a method writing a property comes before every method reading it. |
| QuickPlan.WriterBeforeReader | src/solver/quick_plan.cpp:339-355 | In a data-flow-ordered list of valid methods, the writer of a property comes before its readers. |
| QuickPlan.AsWrittenRunsReaderFirst | src/solver/quick_plan.cpp:346-352 | For task (3 properties, 3 constraints; m0: p0→p1, m1: p1→p0, m2: p1→p2), which the planner accepts, the sieves pick [2] going down and [0] going up. The as-written plan is [2,0], which is not in data-flow order, since m2 reads p1 and m0 writes it. The corrected plan [0,2] is a quick plan. |
| QuickPlan.VerdictIsDefinite | src/solver/quick_plan.cpp:336 | The planner never answers "maybe applicable". |
| QuickPlan.QuickPlannedOneMethodPerConstraint | src/solver/quick_plan.cpp:346-352 | Every quick plan names valid methods of pairwise distinct constraints. |
| QuickPlan.PlanOwners | src/solver/quick_plan.cpp:346-350 | The sieve-up picks and the sieve-down picks never share a constraint. |
| QuickPlan.EmptyTaskEmptyPlan | tests/solver/quick_plan.cpp:108-136 | A task without methods can only be planned as the empty plan. |
| BidirectionalMaps.BiMap.Get | src/solver/quick_plan.cpp:13-15 | The value of a present key is one whose bucket holds the key. |
| BidirectionalMaps.BiMap.Contains | src/solver/quick_plan.cpp:38-40 | A key is present exactly when some value's bucket holds it. |
| BidirectionalMaps.BiMap.Insert | src/solver/quick_plan.cpp:17-21 | The forward map binds the key to the new value, the key is in that value's bucket, and the buckets stay the exact inverse. |
| BidirectionalMaps.BiMap.Erase | src/solver/quick_plan.cpp:23-36 | The key leaves the forward map and every bucket, emptied buckets are dropped, and a missing key changes nothing. |
| BidirectionalMaps.BiMap.ContainsValue | src/solver/quick_plan.cpp:42-44 | True exactly when some key is bound to the value. |
| BidirectionalMaps.BiMap.Keys | src/solver/quick_plan.cpp:46-52 | Exactly the keys bound to the value, or none. |
| BidirectionalMaps.EmptyBiMap | src/solver/quick_plan.cpp:54-56 | The empty map is a valid bidirectional map. |
| BidirectionalMaps.BucketsRemove | src/solver/quick_plan.cpp:23-36 | Removing a key from the forward map removes it from its value's bucket, and drops the bucket if it empties. |
| BidirectionalMaps.BucketsAdd | src/solver/quick_plan.cpp:17-21 | Adding a new key adds it to its value's bucket and to no other. |
| ConstraintGraphs.ConstraintGraph.constructor | src/solver/quick_plan.cpp:61 | The default graph is empty and coherent. |
| ConstraintGraphs.ConstraintGraph.OfTask | src/solver/quick_plan.cpp:63-96 | The graph of a task holds every constraint and property and every method with its constraint, output count, inputs and outputs. A property's degree is the number of distinct constraints mentioning it. |
| ConstraintGraphs.ConstraintGraph.Copy | src/solver/quick_plan.cpp:263 | A copy has the same contents. |
| ConstraintGraphs.ConstraintGraph.Assign | src/solver/quick_plan.cpp:271-276 | Assignment overwrites the contents with the other graph's. |
| ConstraintGraphs.ConstraintGraph.HasCSMs | src/solver/quick_plan.cpp:187-189 | True exactly when some method is still live. |
| ConstraintGraphs.ConstraintGraph.ConstraintIds | src/solver/quick_plan.cpp:191-193 | Exactly the live constraints. |
| ConstraintGraphs.ConstraintGraph.ConstraintIdByCSM | src/solver/quick_plan.cpp:195-197 | The owner of a live method, which is a live constraint. |
| ConstraintGraphs.ConstraintGraph.HasPropertyWithDegree | src/solver/quick_plan.cpp:199-201 | True exactly when some live property has that degree. |
| ConstraintGraphs.ConstraintGraph.PropertyWithDegree | src/solver/quick_plan.cpp:203-209 | Some live property of that degree, and `None` exactly where the source throws. |
| ConstraintGraphs.ConstraintGraph.HasCSMWithOutputDegree | src/solver/quick_plan.cpp:211-213 | True exactly when some live method has that output degree. |
| ConstraintGraphs.ConstraintGraph.CSMWithOutputDegree | src/solver/quick_plan.cpp:215-221 | Some live method of that output degree, and `None` exactly where the source throws. |
| ConstraintGraphs.ConstraintGraph.RemoveProperty | src/solver/quick_plan.cpp:98-111 | It fails exactly when the property is not live. Otherwise the property leaves every table, and each method that wrote it loses one output degree. |
| ConstraintGraphs.ConstraintGraph.RemoveConstraint | src/solver/quick_plan.cpp:113-142 | It fails exactly when the constraint is not live. Otherwise the constraint and all its methods leave every table, and each property they mentioned loses exactly one degree, once per constraint. |
| ConstraintGraphs.ConstraintGraph.CopyConstraintFrom | src/solver/quick_plan.cpp:144-185 | It refuses the copy (`false`, where the source throws) exactly when the constraint or one of its methods is already present. Otherwise the constraint comes over with its methods unchanged, missing properties appear with degree 0, and each property it mentions gains exactly one degree. |
| GraphSnapshots.EmptyCoherent | src/solver/quick_plan.cpp:61 | The empty graph satisfies the graph invariant. |
| GraphSnapshots.FromTaskCoherent | src/solver/quick_plan.cpp:63-96 | A freshly built graph satisfies the invariant: the tables share keys, owners are live, the users table inverts the inputs and outputs, and degrees count distinct constraints. |
| GraphSnapshots.FromTaskLinks | src/solver/quick_plan.cpp:74-90 | In a fresh graph, a method mentions exactly the properties it lists. |
| GraphSnapshots.WithoutPropertyCoherent | src/solver/quick_plan.cpp:98-111 | Removing a live property keeps the invariant. |
| GraphSnapshots.WithoutConstraintCoherent | src/solver/quick_plan.cpp:113-142 | Removing a constraint keeps the invariant; in particular, lowering each linked property's degree once keeps the degrees counting constraints. |
| GraphSnapshots.WithoutConstraintDegrees | src/solver/quick_plan.cpp:139-141 | Lowering each linked property's degree by exactly one keeps every degree equal to the number of constraints mentioning the property. |
| GraphSnapshots.WithConstraintCoherent | src/solver/quick_plan.cpp:144-185 | Copying in a constraint that is new here, with new methods, keeps the invariant. |
| GraphSnapshots.WithConstraintDegrees | src/solver/quick_plan.cpp:182-184 | Raising each linked property's degree by one keeps the degrees counting constraints. |
| GraphTables.LiveConstraints | src/solver/quick_plan.cpp:64-66 | The live constraints are exactly 0..C-1. |
| GraphTables.ZeroProperties | src/solver/quick_plan.cpp:67-70 | Every property 0..P-1 starts with degree 0 and no users. |
| GraphTables.AddMethods | src/solver/quick_plan.cpp:74-91 | After the loop over methods, the tables hold what the fresh graph holds for all methods. |
| GraphTables.AddMethod | src/solver/quick_plan.cpp:75-90 | One method is registered with its owner, output count, inputs and outputs, and linked to its properties. |
| GraphTables.SetDegrees | src/solver/quick_plan.cpp:93-95 | Each property's degree becomes the number of distinct constraints recorded for it. |
| GraphTables.StripUsers | src/solver/quick_plan.cpp:104-109 | The property leaves the inputs and outputs of each of its users, and each user that wrote it has its output degree lowered by one. |
| GraphTables.DetachMethods | src/solver/quick_plan.cpp:122-137 | Every method of the constraint leaves every table, and the properties they mentioned are collected. |
| GraphTables.DetachLinks | src/solver/quick_plan.cpp:123-132 | The method leaves the users of each of the listed properties, and those properties are added to the collected set. |
| GraphTables.LowerDegrees | src/solver/quick_plan.cpp:139-141 | Each collected property's degree drops by exactly one. |
| GraphTables.CopyMethods | src/solver/quick_plan.cpp:152-180 | Every method of the constraint comes over from the other graph, and its properties are collected and linked. |
| GraphTables.CopyMethod | src/solver/quick_plan.cpp:154-179 | One method comes over: its owner, output degree, inputs and outputs, with missing properties created at degree 0. |
| GraphTables.RaiseDegrees | src/solver/quick_plan.cpp:182-184 | Each collected property's degree rises by exactly one. |
| SieveSteps.SievedProperty | src/solver/quick_plan.cpp:237-240 | Removing a property of degree 1 keeps the sieve's relation between the start graph, the current graph and the picks. |
| SieveSteps.SievedConstraint | src/solver/quick_plan.cpp:243-248 | Removing the constraint of a method without live outputs, and picking that method, keeps the relation. |
| SieveSteps.PickFacts | src/solver/quick_plan.cpp:243-246 | A method picked at output degree 0 writes nothing still live, and its constraint was not picked before. |
| SieveSteps.CopiedPartOf | src/solver/quick_plan.cpp:263-264 | Adding a whole constraint of the graph to a part made of whole constraints gives such a part again. |
| Combined.Verdicts | src/solver/combined.cpp:11-12 | One verdict per slave, in slave order. |
| Combined.PlannerApplicability | src/solver/combined.cpp:12 | A slave's verdict is its own planner's verdict. |
| Combined.PlannerTrySolve | src/solver/combined.cpp:38 | A slave's answer is one its own planner's contract allows. |
| Combined.IsApplicable | src/solver/combined.cpp:9-28 | The loop gives the three-way combination of the slaves' verdicts, stopping at the first error. |
| Combined.VerdictFromMeaning | src/solver/combined.cpp:9-28 | "Applicable" exactly when some slave is applicable. Else "maybe applicable" exactly when some slave is maybe applicable. Else "not applicable" exactly when all slaves are not applicable. |
| Combined.VerdictFromError | src/solver/combined.cpp:11-23 | An error is the first slave's error that is reached, every earlier slave having answered without "applicable". |
| Combined.NoSlavesNotApplicable | src/solver/combined.cpp:26-27 | With no slaves, the verdict is "not applicable". |
| Combined.DefaultVerdict | src/solver/solver.cpp:11-13 | The default solver takes quick-plan's verdict, unless quick-plan is not applicable, in which case it takes maximum matching's. |
| Combined.TrySolve | src/solver/combined.cpp:30-60 | The result is what the two-pass order gives when each asked slave answers as its own contract allows. |
| Combined.FirstPassStep | src/solver/combined.cpp:32-47 | One slave of the first pass: a not-applicable slave is skipped, a maybe slave is deferred, and an applicable slave is asked and either stops the run or is deferred. |
| Combined.TryDeferred | src/solver/combined.cpp:50-59 | The second pass asks the deferred slaves in order and stops at the first answer that is not "no plan". |
| Combined.FirstPassInOrder | src/solver/combined.cpp:30-60 | The two passes ask the slaves in this order: the applicable ones in list order, then the deferred ones and the remaining hopeful ones. An applicable slave that fails is asked again in the second pass. |
| Combined.SecondPassMeaning | src/solver/combined.cpp:50-59 | A pass stops at the first answer that is a plan or an error and returns it. Otherwise it asks every slave in its order and returns "no plan". |
| Combined.FirstPassAnswer | src/solver/combined.cpp:32-47 | The first pass only asks hopeful slaves, and a plan it returns is the last answer it received. |
| Combined.FirstPassStopsAtError | src/solver/combined.cpp:11-23 | A verdict error ends the run, after only the applicable slaves before it were asked. |
| Combined.NoSlavesNoPlan | src/solver/combined.cpp:50-59 | With no slaves, no slave is asked and there is no plan. |
| Combined.SolutionFromSlave | src/solver/combined.cpp:38-41 | A returned plan or error is exactly the answer of the last slave asked. |
| Combined.NeverAsksNotApplicable | src/solver/combined.cpp:33-36 | No slave reporting "not applicable" is ever asked for a plan. |
| Combined.DefaultQuickPlanFirst | src/solver/solver.cpp:11-13 | For a task quick-plan accepts, the default solver asks only quick-plan, and its plan is a quick plan. |
| Combined.DefaultFallsBackToMatching | src/solver/solver.cpp:11-13 | For a task quick-plan rejects, the default solver's answer is one the maximum-matching planner allows. |
| ModelStates.WrittenStamps | include/property_models/internal/property_model.impl.h:50-53 | A write advances the clock by one. The written property takes the new time, strictly above every other stamp, and the other stamps are unchanged. |
| ModelStates.RunClock | include/property_models/internal/property_model.impl.h:38-53 | Any sequence of registrations, writes and constraint changes keeps the clock ahead of every stamp, advances it once per write, and leaves the freeze flag and the callback registration alone. |
| ModelStates.FrozenRunSilent | include/property_models/internal/property_model.impl.h:61-64 | While frozen, nothing fires the callback and the model stays frozen. |
| ModelStates.UnfrozenRunFires | include/property_models/internal/property_model.impl.h:61-74 | While not frozen, every write and every constraint change fires a registered callback exactly once, and the model stays unfrozen. |
| ModelStates.FreezeFiresOnce | include/property_models/internal/property_model.impl.h:22-30 | Whatever happens between a freeze and its end, the end leaves the model unfrozen, with the callback fired exactly once if one is registered. |
| ModelStates.NestedFreezeEndsEarly | include/property_models/internal/property_model.impl.h:77-85 | The flag is not a counter: ending an inner freeze unfreezes the model, so a write before the outer freeze ends fires the callback. |
| ModelStates.LatestFirst | include/property_models/internal/property_model.impl.h:67-69 | A property whose stamp is strictly the largest comes first in every order by recency. |
| ModelStates.WrittenFirst | include/property_models/internal/property_model.impl.h:50-53 | After a write, the order an update computes starts with the written property. |
| PropertyModels.CanRead | include/property_models/internal/property.impl.h:75-87 | True exactly for read and read-write access. |
| PropertyModels.CanWrite | include/property_models/internal/property.impl.h:89-101 | True exactly for write and read-write access; both hold only for read-write. |
| PropertyModels.PropertyModel.constructor | include/property_models/model.h:70-75 | A new model is unfrozen, has no callback, and has its clock at 0, with no properties and no constraints. |
| PropertyModels.PropertyModel.RegisterCallback | include/property_models/internal/property_model.impl.h:9-13 | A callback is registered and nothing else changes. |
| PropertyModels.PropertyModel.UnregisterCallback | include/property_models/internal/property_model.impl.h:15-18 | The callback is cleared and nothing else changes. |
| PropertyModels.PropertyModel.RegisterProperty | include/property_models/internal/property_model.impl.h:37-41 | The new id is the number of earlier properties, and the new stamp is 0. |
| PropertyModels.PropertyModel.RegisterConstraint | include/property_models/internal/property_model.impl.h:43-47 | The constraint is appended, and its id is the number of earlier constraints. |
| PropertyModels.PropertyModel.OnPropertySet | include/property_models/internal/property_model.impl.h:49-53 | The clock advances, even while frozen, and stamps the property; then an update runs. |
| PropertyModels.PropertyModel.OnConstraintSet | include/property_models/internal/property_model.impl.h:55-58 | An update runs; which constraint changed is not used. |
| PropertyModels.PropertyModel.Update | include/property_models/internal/property_model.impl.h:60-74 | While frozen, nothing happens. Otherwise the property ids are ordered by descending stamp, the model leaves the update unfrozen, and a registered callback fires once. |
| PropertyModels.PropertyModel.RecencyOrder | include/property_models/internal/property_model.impl.h:67-69 | Every property id exactly once, most recently written first. |
| PropertyModels.PropertyModel.DoFreeze | include/property_models/internal/property_model.impl.h:76-79 | Only the freeze flag is set. |
| PropertyModels.PropertyModel.DoUnfreeze | include/property_models/internal/property_model.impl.h:81-85 | The flag is cleared and one update runs. |
| PropertyModels.PropertyModel.DoCallback | include/property_models/internal/property_model.impl.h:87-94 | The callback fires once if registered; otherwise nothing happens. |
| PropertyModels.PropertyModel.Freeze | include/property_models/internal/property_model.impl.h:32-35 | It returns a fresh guard on this model and freezes the model. |
| PropertyModels.FreezeGuard.constructor | include/property_models/internal/property_model.impl.h:21-25 | Constructing a guard freezes its model. |
| PropertyModels.FreezeGuard.End | include/property_models/internal/property_model.impl.h:27-30 | Ending the guard unfreezes its model and runs one update. |
| PropertyModels.Constraint.constructor | include/property_models/internal/constraint.impl.h:55-60 | The constraint is registered with the model as its next id, enabled and fulfilled, with the given importance and methods in order. |
| PropertyModels.Constraint.WithoutImportance | include/property_models/internal/constraint.impl.h:62-67 | Like the constructor, with importance 0. |
| PropertyModels.Constraint.SetImportance | include/property_models/internal/constraint.impl.h:14-18 | It stores the importance and always notifies the model once, even when the value is unchanged. |
| PropertyModels.Constraint.Enable | include/property_models/internal/constraint.impl.h:25-33 | Afterwards the constraint is enabled. The model is notified exactly when it was disabled before. |
| PropertyModels.Constraint.Disable | include/property_models/internal/constraint.impl.h:35-43 | Afterwards the constraint is disabled and not fulfilled. The model is notified exactly when it was enabled before. |
| PropertyModels.Constraint.IsFulfilled | include/property_models/internal/constraint.impl.h:46-53 | A disabled constraint is never fulfilled; an enabled one is fulfilled exactly when its fulfilled flag is set. |
| PropertyModels.Constraint.GetCSMs | include/property_models/internal/constraint.impl.h:72-80 | One entry per stored method, in declaration order. |
| PropertyModels.Property.constructor | include/property_models/internal/property.impl.h:12-16 | The property registers with the model. Its id is the id the registration returned, and it holds the initial value. |
| PropertyModels.Property.Set | include/property_models/internal/property.impl.h:43-66 | It stores the value, notifies the model of a write to this property's id, and returns the stored value. |

## Left out

- Hash-set order: where the quick-plan graph takes `*s.begin()` of a set, the model lets any element be chosen. Every contract holds for every choice.
- Kuhn.GetMaxCostMatching: the contract promises a maximum matching ordered by right vertex, not the one Kuhn's tie-breaking picks. So the "hard" test's exact selection {0,1,3,7} is not derived.
- QuickPlan.TrySolve: the contract is the relation `QuickPlanned`, which covers every hash-set order. So the exact plans `[2,1,4,0,3]` for the quick-plan chain test and for its "simple" and "hard" tests are not derived. Only the empty task's plan is. The plan is assembled in the corrected order of "## Findings", not as written.
- QuickPlan.SieveUp: the constraints are walked in ascending order, as in the source, but the contract does not say which whole-constraint part is kept (the last candidate that sieves away completely), only that one is.
- QuickPlan.SieveDown: the contract records what it implies that each pick had no live outputs at its own step: no later pick and no method left mentions what it writes. It does not keep the graph of each step. So it does not say which properties were live when a method was picked, that a property of degree 1 always goes before any constraint, or which property went at which step.
- ConstraintGraphs.ConstraintGraph.CopyConstraintFrom: where the source throws, the model returns `false` and leaves the graph unchanged. The source throws before any change when the constraint is present. When one of its methods is present, it throws after the constraint id and the methods visited before the clash have been entered. That half-copied graph is not modelled. The planner never takes either path: `QuickPlan.CopiedWith` proves its copies succeed.
- Kuhn.GetMaxCostMatching: the `included` vector is never set in the source, so its `continue` never fires. The model has no such vector.
- Combined: the type-erased solver wrapper of `solver.h` is replaced by the `Planner` datatype with the two leaf planners. A combined solver nested inside another is not modelled.
- Combined.TrySolve: a slave's own `TrySolve` is the set of answers its contract allows. The result is stated for some choice of those answers, not tied to one execution.
- The callback and the methods' `Apply` closures are opaque. The model counts callback firings and keeps only whether a callback is registered, so what the callback does and `std::function` emptiness beyond that are not modelled.
- The write clock is an unbounded `nat`. The wrap-around of the 64-bit `Time_` counter after 2^64 writes is not modelled.
- PropertyModels.PropertyModel.Update: the recency order is kept in a ghost field for the contract. The source computes and discards it.
- PropertyModels.Constraint.GetCSMs: it returns copies of the method records, not references into the constraint.
- PropertyModels.Property.Get: the read-side hook `OnGet` is empty in the source, so reading is a plain function with no contract.
- The conversions `operator const TValue&` and `operator bool`, and `operator=`, are the same operations as `Get`, `IsFulfilled` and `Set`, and are not repeated.
- `TPropertyView`, `ViewProperties` and `GetIds` are compile-time access wrappers around properties and are not modelled.
- `Updating_` is declared and never used. The fulfilled flag is never recomputed in the code shown, so it only starts true.
- Destructors: the freeze guard's destructor is the explicit `FreezeGuard.End`. The constraint and property destructors are defaulted.
- `example/main.cpp` (terminal input and output) and `macros.impl.h` (class-generating macros) have no planning logic and are not part of this model.
- The constraint graph's members are held as one value (`GraphTables.Tables`), so copying a graph copies the value. Aliasing between graphs does not arise.

## Findings

| source | as written | input that shows it | evidently intended | confidence | as-written member | corrected member |
|---|---|---|---|---|---|---|
| src/solver/quick_plan.cpp:346-352 | The sieve-up picks are put in front of the sieve-down picks and the whole is reversed: reverse(up ++ down). So the sieve-down picks run first. | The task with 3 properties and 3 one-method constraints m0: p0→p1, m1: p1→p0, m2: p1→p2. The sieves pick [2] going down and [0] going up, so the plan is [2,0]. m2 reads p1 before m0 writes it. | reverse(down ++ up) = [0,2], in which every method runs after the writers of its inputs. | medium, not executed | QuickPlan.AsWrittenRunsReaderFirst | QuickPlan.ProducerBeforeConsumer |
