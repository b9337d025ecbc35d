/**
 * The quick-plan (local propagation) planner. It accepts a task when every
 * method of a constraint mentions the same properties, builds the
 * constraint graph of the task, sieves it down (dropping properties only one
 * constraint mentions, and picking constraints through a method that writes
 * nothing still live), sieves the rest back up constraint by constraint,
 * and plans the reverse of the picked methods.
 */
module QuickPlan {
  import opened SetFacts
  import opened Tasks
  import opened GraphSnapshots
  import opened ConstraintGraphs
  import opened SieveSteps

  // The applicability scan.

  /** A domain per constraint, none recorded yet. */
  function NoDomains(count: nat): (r: seq<set<nat>>)
    ensures |r| == count && forall c :: 0 <= c < count ==> r[c] == {}
  {
    seq(count, c => {})
  }

  /**
   * The applicability scan from method `i` on, `domains[c]` holding the
   * properties recorded for constraint `c`: a method failing a usage check
   * throws; a method whose constraint has nothing recorded records its
   * inputs and outputs; any other method makes the task not applicable
   * unless its input and output lists are as long as the recorded set and
   * every id in them is recorded.
   */
  function Scan(task: Task, i: nat, domains: seq<set<nat>>): Result<Applicability>
    requires i <= |task.csms| && |domains| == task.constraintsCount
    decreases |task.csms| - i
  {
    if i == |task.csms| then Ok(Applicable)
    else
      var m := task.csms[i];
      match CheckCSM(task, m)
      case Some(e) => Err(e)
      case None =>
        var d := domains[m.constraintId];
        if d == {} then Scan(task, i + 1, domains[m.constraintId := Domain(m)])
        else if |d| != |m.inputs| + |m.outputs| || !(Domain(m) <= d) then Ok(NotApplicable)
        else Scan(task, i + 1, domains)
  }

  /** The verdict of the scan over the whole task. */
  function Verdict(task: Task): Result<Applicability> {
    Scan(task, 0, NoDomains(task.constraintsCount))
  }

  /**
   * The applicability scan as the source runs it: one pass over the
   * methods, a per-constraint domain in an array, and one loop per list
   * looking the ids up in the recorded domain.
   */
  method IsApplicable(task: Task) returns (r: Result<Applicability>)
    ensures r == Verdict(task)
  {
    var domains := new set<nat>[task.constraintsCount](c => {});
    assert domains[..] == NoDomains(task.constraintsCount);
    for i := 0 to |task.csms|
      invariant Verdict(task) == Scan(task, i, domains[..])
    {
      var m := task.csms[i];
      var e := ValidateCSM(task, m);
      if e.Some? {
        return Err(e.value);
      }
      ghost var recorded := domains[..];
      var d := domains[m.constraintId];
      if d == {} {
        ScanRecords(task, i, recorded);
        domains[m.constraintId] := Domain(m);
        assert domains[..] == recorded[m.constraintId := Domain(m)];
        continue;
      }
      var agrees := AgreesWith(m, d);
      if !agrees {
        return Ok(NotApplicable);
      }
      ScanKeeps(task, i, recorded);
    }
    return Ok(Applicable);
  }

  /**
   * A method agrees with a recorded domain `d` when its two lists hold as
   * many entries as `d` has elements and every id in them is in `d`.
   */
  method AgreesWith(m: CSM, d: set<nat>) returns (b: bool)
    ensures b <==> |d| == |m.inputs| + |m.outputs| && Domain(m) <= d
  {
    if |d| != |m.inputs| + |m.outputs| {
      return false;
    }
    var inputsRecorded := AllIn(m.inputs, d);
    if !inputsRecorded {
      return false;
    }
    var outputsRecorded := AllIn(m.outputs, d);
    return outputsRecorded;
  }

  /** Every id of `ids` is in `d`; the scan runs this over a method's inputs, then its outputs. */
  method AllIn(ids: seq<nat>, d: set<nat>) returns (b: bool)
    ensures b <==> forall p :: p in ids ==> p in d
  {
    for k := 0 to |ids|
      invariant forall j :: 0 <= j < k ==> ids[j] in d
    {
      if ids[k] !in d {
        return false;
      }
    }
    return true;
  }

  /** This planner is never unsure: its verdict is never "maybe applicable". */
  lemma {:induction false} ScanNeverMaybe(task: Task, i: nat, domains: seq<set<nat>>)
    requires i <= |task.csms| && |domains| == task.constraintsCount
    ensures Scan(task, i, domains) != Ok(MaybeApplicable)
    decreases |task.csms| - i
  {
    if i < |task.csms| && CheckCSM(task, task.csms[i]).None? {
      var m := task.csms[i];
      if domains[m.constraintId] == {} {
        ScanNeverMaybe(task, i + 1, domains[m.constraintId := Domain(m)]);
      } else {
        ScanNeverMaybe(task, i + 1, domains);
      }
    }
  }

  /**
   * A usage error is the first one met: some method from `i` on fails the
   * checks with it, every method before it passing them; and an applicable
   * verdict means every method passes them.
   */
  lemma {:induction false} ScanErrors(task: Task, i: nat, domains: seq<set<nat>>)
    requires i <= |task.csms| && |domains| == task.constraintsCount
    ensures Scan(task, i, domains).Err? ==>
      exists j :: i <= j < |task.csms| && CheckCSM(task, task.csms[j]) == Some(Scan(task, i, domains).error) &&
        forall k :: i <= k < j ==> ValidCSM(task, task.csms[k])
    ensures Scan(task, i, domains) == Ok(Applicable) ==> forall k :: i <= k < |task.csms| ==> ValidCSM(task, task.csms[k])
    decreases |task.csms| - i
  {
    if i < |task.csms| && CheckCSM(task, task.csms[i]).None? {
      var m := task.csms[i];
      var next := if domains[m.constraintId] == {} then domains[m.constraintId := Domain(m)] else domains;
      ScanErrors(task, i + 1, next);
      if Scan(task, i, domains).Err? {
        assert Scan(task, i, domains) == Scan(task, i + 1, next);
        var j :| i + 1 <= j < |task.csms| && CheckCSM(task, task.csms[j]) == Some(Scan(task, i + 1, next).error) &&
          forall k :: i + 1 <= k < j ==> ValidCSM(task, task.csms[k]);
        assert forall k :: i <= k < j ==> ValidCSM(task, task.csms[k]);
      }
    }
  }

  /** An applicable task is well formed, and so its ids are in range. */
  lemma ApplicableWellFormed(task: Task)
    requires Verdict(task) == Ok(Applicable)
    ensures WellFormed(task) && IdsInRange(task)
  {
    ScanErrors(task, 0, NoDomains(task.constraintsCount));
  }

  /** Any two methods of one constraint mention the same properties. */
  ghost predicate SameDomains(task: Task, k: nat)
    requires k <= |task.csms|
  {
    forall a, b :: 0 <= a < b < k && task.csms[a].constraintId == task.csms[b].constraintId ==>
      Domain(task.csms[a]) == Domain(task.csms[b])
  }

  /** A method mentioning some property, and no property twice in a list. */
  ghost predicate Plain(m: CSM) {
    Domain(m) != {} && Distinct(m.inputs) && Distinct(m.outputs)
  }

  /**
   * The domains the scan has recorded after the first `i` methods, when it
   * has not stopped: a constraint's entry is set by its first method while
   * the entry is empty.
   */
  function Recorded(task: Task, i: nat): (r: seq<set<nat>>)
    requires i <= |task.csms| && WellFormed(task)
    ensures |r| == task.constraintsCount
  {
    if i == 0 then NoDomains(task.constraintsCount)
    else
      var prev := Recorded(task, i - 1);
      var m := task.csms[i - 1];
      if prev[m.constraintId] == {} then prev[m.constraintId := Domain(m)] else prev
  }

  /**
   * When domains are non-empty and agree within each constraint so far,
   * a constraint's recorded domain is empty exactly when none of its
   * methods came yet, and otherwise is the domain of each of them.
   */
  lemma {:induction false} RecordedMeaning(task: Task, i: nat, c: nat)
    requires i <= |task.csms| && WellFormed(task) && SameDomains(task, i) && c < task.constraintsCount
    requires forall j :: 0 <= j < |task.csms| ==> Plain(task.csms[j])
    ensures Recorded(task, i)[c] == {} <==> forall j :: 0 <= j < i ==> task.csms[j].constraintId != c
    ensures forall j :: 0 <= j < i && task.csms[j].constraintId == c ==> Recorded(task, i)[c] == Domain(task.csms[j])
  {
    if i > 0 {
      assert SameDomains(task, i - 1);
      RecordedMeaning(task, i - 1, c);
      assert ValidCSM(task, task.csms[i - 1]) && Plain(task.csms[i - 1]);
    }
  }

  /** A plain valid method mentions as many properties as its two lists hold. */
  lemma PlainCard(task: Task, m: CSM)
    requires ValidCSM(task, m) && Plain(m)
    ensures |Domain(m)| == |m.inputs| + |m.outputs|
  {
    DistinctCard(m.inputs);
    DistinctCard(m.outputs);
    assert Elements(m.inputs) * Elements(m.outputs) == {};
    assert Domain(m) == Elements(m.inputs) + Elements(m.outputs);
  }

  /** From method `i` on, the scan accepts exactly when all domains agree within each constraint. */
  lemma {:induction false} ScanSameDomains(task: Task, i: nat)
    requires i <= |task.csms| && WellFormed(task) && SameDomains(task, i)
    requires forall j :: 0 <= j < |task.csms| ==> Plain(task.csms[j])
    ensures Scan(task, i, Recorded(task, i)) == Ok(Applicable) <==> SameDomains(task, |task.csms|)
    decreases |task.csms| - i
  {
    if i < |task.csms| {
      var m := task.csms[i];
      var c := m.constraintId;
      var rec := Recorded(task, i);
      assert ValidCSM(task, m) && Plain(m);
      RecordedMeaning(task, i, c);
      if rec[c] == {} {
        SameDomainsNext(task, i);
        ScanRecords(task, i, rec);
        ScanSameDomains(task, i + 1);
      } else {
        var j :| 0 <= j < i && task.csms[j].constraintId == c;
        var d := rec[c];
        PlainCard(task, m);
        if Domain(m) == d {
          SameDomainsNext(task, i);
          ScanKeeps(task, i, rec);
          ScanSameDomains(task, i + 1);
        } else {
          if Domain(m) <= d && |d| == |Domain(m)| {
            SubsetFull(Domain(m), d);
          }
          assert Scan(task, i, rec) == Ok(NotApplicable);
          assert Domain(task.csms[j]) != Domain(task.csms[i]);
        }
      }
    }
  }

  /** Domains still agree after method `i` when it agrees with every earlier method of its constraint. */
  lemma SameDomainsNext(task: Task, i: nat)
    requires i < |task.csms| && SameDomains(task, i)
    requires forall a :: 0 <= a < i && task.csms[a].constraintId == task.csms[i].constraintId ==>
      Domain(task.csms[a]) == Domain(task.csms[i])
    ensures SameDomains(task, i + 1)
  {
  }

  /**
   * For well-formed tasks whose methods each mention some property and list
   * no property twice, the planner accepts exactly the tasks in which all
   * methods of a constraint mention the same properties.
   */
  lemma ApplicableIffSameDomains(task: Task)
    requires WellFormed(task)
    requires forall j :: 0 <= j < |task.csms| ==> Plain(task.csms[j])
    ensures Verdict(task) == Ok(Applicable) <==> SameDomains(task, |task.csms|)
  {
    assert SameDomains(task, 0);
    ScanSameDomains(task, 0);
  }

  /**
   * As written, a first method mentioning no property records nothing, so
   * the next method of its constraint records its own domain and the task
   * is accepted although the two domains differ.
   */
  lemma EmptyDomainAccepted()
    ensures var task := Task(1, 1, [CSM(0, [], []), CSM(0, [0], [])]);
      Verdict(task) == Ok(Applicable) && !SameDomains(task, |task.csms|)
  {
    var task := Task(1, 1, [CSM(0, [], []), CSM(0, [0], [])]);
    assert Domain(task.csms[0]) == {};
    assert Domain(task.csms[1]) == {0};
    var d1 := NoDomains(1)[0 := {0}];
    assert Scan(task, 2, d1) == Ok(Applicable);
    assert Scan(task, 1, NoDomains(1)) == Scan(task, 2, d1);
  }

  /** A task whose second method lists property 0 twice and omits property 1. */
  const RepeatedIdTask: Task := Task(2, 1, [CSM(0, [0], [1]), CSM(0, [0, 0], [])])

  /**
   * As written, the size check counts list entries: a method listing a
   * property twice passes it against a larger recorded domain, and the task
   * is accepted although the two domains differ.
   */
  lemma RepeatedIdAccepted()
    ensures Verdict(RepeatedIdTask) == Ok(Applicable) && !SameDomains(RepeatedIdTask, |RepeatedIdTask.csms|)
  {
    RepeatedIdScan();
    RepeatedIdDomainsDiffer();
  }

  lemma RepeatedIdDomainsDiffer()
    ensures !SameDomains(RepeatedIdTask, 2)
  {
    var task := RepeatedIdTask;
    assert 1 in Domain(task.csms[0]);
    assert Domain(task.csms[1]) == {0};
  }

  lemma RepeatedIdScan()
    ensures Verdict(RepeatedIdTask) == Ok(Applicable)
  {
    RepeatedIdRecords();
    RepeatedIdKeeps();
  }

  /** The first method records the domain {0, 1} for constraint 0. */
  lemma RepeatedIdRecords()
    ensures Verdict(RepeatedIdTask) == Scan(RepeatedIdTask, 1, [{0, 1}])
  {
    var task := RepeatedIdTask;
    var m0 := task.csms[0];
    assert Domain(m0) == {0, 1};
    assert ValidCSM(task, m0);
    ScanRecords(task, 0, NoDomains(1));
    assert NoDomains(1)[0 := {0, 1}] == [{0, 1}];
  }

  /** The second method lists two entries, as many as the recorded domain has, both within it. */
  lemma RepeatedIdKeeps()
    ensures Scan(RepeatedIdTask, 1, [{0, 1}]) == Ok(Applicable)
  {
    var task := RepeatedIdTask;
    var m1 := task.csms[1];
    assert Domain(m1) == {0};
    assert ValidCSM(task, m1);
    assert |{0, 1}| == 2;
    ScanKeeps(task, 1, [{0, 1}]);
  }

  /** A valid method whose constraint has nothing recorded records its domain. */
  lemma ScanRecords(task: Task, i: nat, domains: seq<set<nat>>)
    requires i < |task.csms| && |domains| == task.constraintsCount && ValidCSM(task, task.csms[i])
    requires domains[task.csms[i].constraintId] == {}
    ensures Scan(task, i, domains) == Scan(task, i + 1, domains[task.csms[i].constraintId := Domain(task.csms[i])])
  {
  }

  /** A valid method agreeing in size with, and within, its constraint's recorded domain passes. */
  lemma ScanKeeps(task: Task, i: nat, domains: seq<set<nat>>)
    requires i < |task.csms| && |domains| == task.constraintsCount && ValidCSM(task, task.csms[i])
    requires var d := domains[task.csms[i].constraintId];
      d != {} && |d| == |task.csms[i].inputs| + |task.csms[i].outputs| && Domain(task.csms[i]) <= d
    ensures Scan(task, i, domains) == Scan(task, i + 1, domains)
  {
  }

  // The sieves.

  /**
   * Sieves the graph down: while it has methods, removes a property of
   * degree 1 if there is one, or else the constraint of a method without
   * live outputs, picking that method; stops when neither applies. Each
   * step removes a property or a constraint, so the sieve terminates.
   */
  method SieveDown(graph: ConstraintGraph) returns (picked: seq<nat>)
    requires graph.Valid()
    modifies graph
    ensures graph.Valid()
    ensures Sieved(old(graph.Model()), graph.Model(), picked)
    ensures Stuck(graph.Model())
  {
    ghost var s := graph.Model();
    SievedNone(s);
    picked := [];
    while graph.HasCSMs()
      invariant graph.Valid()
      invariant Sieved(s, graph.Model(), picked)
      decreases graph.Model().constraints, graph.Model().degree.Keys
    {
      ghost var t := graph.Model();
      if graph.HasPropertyWithDegree(1) {
        var p := graph.PropertyWithDegree(1);
        WithoutPropertyFields(t, p.value);
        SievedProperty(s, t, picked, p.value, WithoutProperty(t, p.value));
        var removed := graph.RemoveProperty(p.value);
        continue;
      }
      if graph.HasCSMWithOutputDegree(0) {
        var csm := graph.CSMWithOutputDegree(0);
        assert csm.value in t.owner;
        var c := graph.ConstraintIdByCSM(csm.value);
        WithoutConstraintFields(t, c);
        SievedConstraint(s, t, picked, csm.value, WithoutConstraint(t, c));
        var removed := graph.RemoveConstraint(c);
        picked := picked + [csm.value];
        continue;
      }
      break;
    }
  }

  /**
   * Sieves the graph up: starting from an empty graph, copies the graph's
   * constraints in one at a time, in ascending id order (the graph hands its
   * constraint ids out as an ordered set); whenever the copy sieves down to
   * no methods, it is kept with the methods that sieve picked. The graph
   * becomes the last kept sieved copy.
   */
  method SieveUp(graph: ConstraintGraph) returns (picked: seq<nat>)
    requires graph.Valid()
    modifies graph
    ensures graph.Valid() && graph.Model().owner == map[]
    ensures exists sub :: PartOf(sub, old(graph.Model())) && Sieved(sub, graph.Model(), picked)
  {
    ghost var g := graph.Model();
    picked := [];
    var preGraph := new ConstraintGraph();
    var postGraph := new ConstraintGraph();
    ghost var pre := EmptySnapshot();
    ghost var post := EmptySnapshot();
    EmptyPartOf(g);
    EmptyCoherent();
    SievedNone(EmptySnapshot());
    var todo := graph.ConstraintIds();
    while todo != {}
      invariant fresh(preGraph) && fresh(postGraph)
      invariant graph.Valid() && graph.Model() == g && todo <= g.constraints
      invariant preGraph.Valid() && postGraph.Valid()
      invariant preGraph.Model() == pre && postGraph.Model() == post
      invariant pre.constraints !! todo && post.owner == map[]
      invariant PartOf(pre, g) && Sieved(pre, post, picked)
      decreases todo
    {
      HasLeast(todo);
      var c :| c in todo && forall d :: d in todo ==> c <= d;
      var newPreGraph, newPostGraph, newPicked, emptied := TryConstraint(preGraph, graph, c);
      ghost var newPre := newPreGraph.Model();
      ghost var newPost := newPostGraph.Model();
      if emptied {
        picked := newPicked;
        preGraph := newPreGraph;
        postGraph := newPostGraph;
        pre := newPre;
        post := newPost;
      }
      todo := todo - {c};
    }
    graph.Assign(postGraph);
    assert PartOf(pre, g) && Sieved(pre, graph.Model(), picked);
  }

  /**
   * One step of the upward sieve: `pre` with constraint `c` of `graph`
   * copied in, a copy of that sieved down, the methods the sieve picked,
   * and whether it left no methods.
   */
  method TryConstraint(pre: ConstraintGraph, graph: ConstraintGraph, c: nat)
    returns (newPre: ConstraintGraph, newPost: ConstraintGraph, picked: seq<nat>, emptied: bool)
    requires pre.Valid() && graph.Valid() && PartOf(pre.Model(), graph.Model())
    requires c in graph.Model().constraints && c !in pre.Model().constraints
    ensures fresh(newPre) && fresh(newPost) && newPre.Valid() && newPost.Valid()
    ensures newPre.Model().constraints == pre.Model().constraints + {c}
    ensures PartOf(newPre.Model(), graph.Model()) && Sieved(newPre.Model(), newPost.Model(), picked)
    ensures emptied <==> newPost.Model().owner == map[]
  {
    newPre := CopiedWith(pre, graph, c);
    newPost := new ConstraintGraph.Copy(newPre);
    picked := SieveDown(newPost);
    emptied := !newPost.HasCSMs();
  }

  /**
   * A copy of `pre` with constraint `c` of `graph` copied in; the copy
   * cannot fail, since `pre` holds whole constraints of `graph` other
   * than `c`.
   */
  method CopiedWith(pre: ConstraintGraph, graph: ConstraintGraph, c: nat) returns (r: ConstraintGraph)
    requires pre.Valid() && graph.Valid() && PartOf(pre.Model(), graph.Model())
    requires c in graph.Model().constraints && c !in pre.Model().constraints
    ensures fresh(r) && r.Valid()
    ensures r.Model().constraints == pre.Model().constraints + {c}
    ensures PartOf(r.Model(), graph.Model())
  {
    ghost var s := pre.Model();
    ghost var g := graph.Model();
    r := new ConstraintGraph.Copy(pre);
    CopiedDisjoint(s, g, c);
    var copied := r.CopyConstraintFrom(graph, c);
    assert copied;
    WithConstraintFields(s, g, c);
    CopiedPartOf(s, g, c, r.Model());
  }

  // The planner.

  function Reversed(s: seq<nat>): (r: seq<nat>)
    ensures |r| == |s| && forall i :: 0 <= i < |s| ==> r[i] == s[|s| - 1 - i]
  {
    if s == [] then [] else Reversed(s[1..]) + [s[0]]
  }

  /** Reversing two lists put together puts their reversals together the other way round. */
  lemma ReversedConcat(a: seq<nat>, b: seq<nat>)
    ensures Reversed(a + b) == Reversed(b) + Reversed(a)
  {
    var r, q := Reversed(a + b), Reversed(b) + Reversed(a);
    forall i | 0 <= i < |r|
      ensures r[i] == q[i]
    {
      if i < |b| {
        assert r[i] == (a + b)[|a| + |b| - 1 - i] == b[|b| - 1 - i];
      } else {
        assert r[i] == (a + b)[|a| + |b| - 1 - i] == a[|a| + |b| - 1 - i];
      }
    }
  }

  /**
   * The plan as the source assembles it: the up-picked methods put in front
   * of the down-picked ones and the whole reversed, so that the down-picked
   * methods run first, before the core they may read from. `AsWrittenRunsReaderFirst`
   * shows a task where this runs a method before the method writing its input.
   */
  function AsWrittenPlan(down: seq<nat>, up: seq<nat>): (r: seq<nat>)
    ensures r == Reversed(down) + Reversed(up)
  {
    ReversedConcat(up, down);
    Reversed(up + down)
  }

  /**
   * The plan in the order data flows: the methods picked sieving the core up
   * run first, in the reverse of their pick order, and then the methods
   * picked sieving down, again in the reverse of their pick order.
   */
  function CorrectedPlan(down: seq<nat>, up: seq<nat>): (r: seq<nat>)
    ensures r == Reversed(up) + Reversed(down)
  {
    ReversedConcat(down, up);
    Reversed(down + up)
  }

  /**
   * `ids` is a plan the quick-plan planner can produce for `task`: the
   * graph of the task is sieved down, picking `down`; a part of what is left
   * made of whole constraints is sieved up to no methods, picking `up`; the
   * plan is `CorrectedPlan(down, up)`.
   */
  ghost predicate QuickPlanned(task: Task, ids: seq<nat>) {
    exists down: seq<nat>, rest: Snapshot, up: seq<nat>, sub: Snapshot, emptied: Snapshot ::
      PlannedBy(task, ids, down, rest, up, sub, emptied)
  }

  /** The two sieves of `task` can pick `down`, leaving `rest`, and then `up` from the part `sub` of `rest`. */
  ghost predicate SievedOutcome(task: Task, down: seq<nat>, rest: Snapshot, up: seq<nat>, sub: Snapshot, emptied: Snapshot) {
    && Sieved(FromTask(task), rest, down) && Stuck(rest)
    && PartOf(sub, rest) && Sieved(sub, emptied, up) && emptied.owner == map[]
  }

  /** `ids` is planned from a downward sieve picking `down` and an upward one picking `up`. */
  ghost predicate PlannedBy(task: Task, ids: seq<nat>, down: seq<nat>, rest: Snapshot,
                            up: seq<nat>, sub: Snapshot, emptied: Snapshot) {
    SievedOutcome(task, down, rest, up, sub, emptied) && ids == CorrectedPlan(down, up)
  }

  /**
   * The planner: a usage error or a task that is not applicable gives no
   * plan; otherwise the graph of the task is sieved down, the rest sieved
   * up, and the plan runs the up-picked methods and then the down-picked
   * ones, each in the reverse of their pick order (`CorrectedPlan`).
   */
  method TrySolve(task: Task) returns (r: Result<Option<Solution>>)
    ensures Verdict(task).Err? ==> r == Err(Verdict(task).error)
    ensures Verdict(task) == Ok(NotApplicable) ==> r == Ok(None)
    ensures Verdict(task) == Ok(Applicable) ==> r.Ok? && r.value.Some? && QuickPlanned(task, r.value.value.csmIds)
  {
    var applicability := IsApplicable(task);
    if applicability.Err? {
      return Err(applicability.error);
    }
    if applicability.value != Applicable {
      return Ok(None);
    }
    ApplicableWellFormed(task);
    var graph := new ConstraintGraph.OfTask(task);
    var down := SieveDown(graph);
    ghost var rest := graph.Model();
    var up := SieveUp(graph);
    var ids := CorrectedPlan(down, up);
    ghost var sub :| PartOf(sub, rest) && Sieved(sub, graph.Model(), up);
    PlannedFromSieves(task, down, rest, up, sub, graph.Model());
    return Ok(Some(Solution(ids)));
  }

  /** The picks of the two sieves, assembled in data-flow order, are a plan of the planner. */
  lemma PlannedFromSieves(task: Task, down: seq<nat>, rest: Snapshot, up: seq<nat>, sub: Snapshot, emptied: Snapshot)
    requires Sieved(FromTask(task), rest, down) && Stuck(rest)
    requires PartOf(sub, rest) && Sieved(sub, emptied, up) && emptied.owner == map[]
    ensures QuickPlanned(task, CorrectedPlan(down, up))
  {
    assert PlannedBy(task, CorrectedPlan(down, up), down, rest, up, sub, emptied);
  }

  // The order of a plan.

  /**
   * No method of `ids` mentions a property that a method running after it
   * writes; so every method runs after the methods that write its inputs,
   * and no property is written twice.
   */
  ghost predicate WritersFirst(task: Task, ids: seq<nat>) {
    && (forall k :: 0 <= k < |ids| ==> ids[k] < |task.csms|)
    && (forall a, b :: 0 <= a < b < |ids| ==> Domain(task.csms[ids[a]]) !! Elements(task.csms[ids[b]].outputs))
  }

  /** Graph `s` has the task's methods, writing and mentioning what the task lists for them. */
  ghost predicate Describes(s: Snapshot, task: Task) {
    forall k :: 0 <= k < |task.csms| ==>
      Writes(s, k) == Elements(task.csms[k].outputs) && Links(s, k) == Domain(task.csms[k])
  }

  lemma FromTaskDescribes(task: Task)
    ensures Describes(FromTask(task), task)
  {
    forall k | 0 <= k < |task.csms|
      ensures Writes(FromTask(task), k) == Elements(task.csms[k].outputs)
      ensures Links(FromTask(task), k) == Domain(task.csms[k])
    {
      FromTaskLinks(task, k);
    }
  }

  /**
   * Methods of the task listed in pick order, reversed, are in data-flow
   * order: reversal puts each method after those it would have preceded.
   */
  lemma ReversedInOrder(task: Task, s: Snapshot, picks: seq<nat>, ids: seq<nat>)
    requires |ids| == |picks| && forall k :: 0 <= k < |ids| ==> ids[k] == picks[|picks| - 1 - k]
    requires Describes(s, task)
    requires forall i :: 0 <= i < |picks| ==> picks[i] < |task.csms|
    requires PickedInOrder(s, picks)
    ensures WritersFirst(task, ids)
  {
    var n := |picks|;
    forall k | 0 <= k < |ids|
      ensures ids[k] < |task.csms|
    {
      assert ids[k] == picks[n - 1 - k];
    }
    forall a, b | 0 <= a < b < |ids|
      ensures Domain(task.csms[ids[a]]) !! Elements(task.csms[ids[b]].outputs)
    {
      var x, y := ids[a], ids[b];
      assert x == picks[n - 1 - a] && y == picks[n - 1 - b];
      assert Writes(s, y) !! Links(s, x);
      DescribedPair(task, s, x, y);
    }
  }

  lemma DescribedPair(task: Task, s: Snapshot, x: nat, y: nat)
    requires Describes(s, task) && x < |task.csms| && y < |task.csms|
    requires Writes(s, y) !! Links(s, x)
    ensures Domain(task.csms[x]) !! Elements(task.csms[y].outputs)
  {
    assert Writes(s, y) == Elements(task.csms[y].outputs) && Links(s, x) == Domain(task.csms[x]);
  }

  /**
   * The methods picked sieving a task's graph down, taken in the reverse of
   * their pick order, are in data-flow order.
   */
  lemma DownPlanInOrder(task: Task, rest: Snapshot, down: seq<nat>)
    requires Sieved(FromTask(task), rest, down)
    ensures WritersFirst(task, Reversed(down))
  {
    forall i | 0 <= i < |down|
      ensures down[i] < |task.csms|
    {
      assert down[i] in FromTask(task).owner;
    }
    FromTaskDescribes(task);
    ReversedInOrder(task, FromTask(task), down, Reversed(down));
  }

  /** Every plan of this planner is in data-flow order. */
  lemma QuickPlannedInOrder(task: Task, ids: seq<nat>)
    requires QuickPlanned(task, ids)
    ensures WritersFirst(task, ids)
  {
    var down, rest, up, sub, emptied :| PlannedBy(task, ids, down, rest, up, sub, emptied);
    DownThenUpInOrder(FromTask(task), rest, down, sub, emptied, up);
    FromTaskOwned(task);
    PlanOwners(task, FromTask(task), down, rest, up, sub, emptied);
    FromTaskDescribes(task);
    ReversedInOrder(task, FromTask(task), down + up, ids);
  }

  /**
   * In a plan of an applicable task, a method writing a property runs before
   * every method reading it.
   */
  lemma ProducerBeforeConsumer(task: Task, sol: seq<nat>, i: nat, j: nat, p: nat)
    requires Verdict(task) == Ok(Applicable) && QuickPlanned(task, sol)
    requires i < |sol| && j < |sol| && sol[i] < |task.csms| && sol[j] < |task.csms|
    requires p in task.csms[sol[i]].outputs && p in task.csms[sol[j]].inputs
    ensures i < j
  {
    ApplicableWellFormed(task);
    QuickPlannedInOrder(task, sol);
    WriterBeforeReader(task, sol, i, j, p);
  }

  /** In a plan in data-flow order of well-formed methods, the writer of a property comes before its readers. */
  lemma WriterBeforeReader(task: Task, sol: seq<nat>, i: nat, j: nat, p: nat)
    requires WellFormed(task) && WritersFirst(task, sol)
    requires i < |sol| && j < |sol| && sol[i] < |task.csms| && sol[j] < |task.csms|
    requires p in task.csms[sol[i]].outputs && p in task.csms[sol[j]].inputs
    ensures i < j
  {
    assert ValidCSM(task, task.csms[sol[j]]);
    assert p in Domain(task.csms[sol[j]]) && p in Elements(task.csms[sol[i]].outputs);
  }

  // The order as written.

  /**
   * A task of three one-method constraints: m0 reads p0 and writes p1, m1
   * reads p1 and writes p0, and m2 reads p1 and writes p2.
   */
  const ReaderFirstTask: Task := Task(3, 3, [CSM(0, [0], [1]), CSM(1, [1], [0]), CSM(2, [1], [2])])

  /**
   * The planner accepts `ReaderFirstTask`, and its sieves can pick m2 going
   * down (p2 has degree 1, then m2 has no live output) and m0 going up (the
   * first constraint of the core sieves away alone). Assembled as written
   * the plan is [2, 0], which runs m2 before m0 although m2 reads p1 and m0
   * writes it; in data-flow order it is [0, 2].
   */
  lemma AsWrittenRunsReaderFirst()
    ensures Verdict(ReaderFirstTask) == Ok(Applicable)
    ensures SievedOutcome(ReaderFirstTask, [2], ReaderFirstRest, [0], ReaderFirstSub, EmptySnapshot())
    ensures AsWrittenPlan([2], [0]) == [2, 0] && !WritersFirst(ReaderFirstTask, [2, 0])
    ensures 1 in ReaderFirstTask.csms[2].inputs && 1 in ReaderFirstTask.csms[0].outputs
    ensures CorrectedPlan([2], [0]) == [0, 2] && QuickPlanned(ReaderFirstTask, [0, 2])
  {
    ReaderFirstApplicable();
    ReaderFirstOutcome();
    ReaderFirstOrders();
    assert PlannedBy(ReaderFirstTask, [0, 2], [2], ReaderFirstRest, [0], ReaderFirstSub, EmptySnapshot());
  }

  /** The two assemblies of the picks of `ReaderFirstTask`, and the written-before-read slip of the first. */
  lemma ReaderFirstOrders()
    ensures AsWrittenPlan([2], [0]) == [2, 0] && CorrectedPlan([2], [0]) == [0, 2]
    ensures 1 in ReaderFirstTask.csms[2].inputs && 1 in ReaderFirstTask.csms[0].outputs
    ensures !WritersFirst(ReaderFirstTask, [2, 0])
  {
    var task := ReaderFirstTask;
    var plan := [2, 0];
    assert Reversed([2]) == [2] && Reversed([0]) == [0];
    assert 1 in Domain(task.csms[plan[0]]) && 1 in Elements(task.csms[plan[1]].outputs);
  }

  lemma ReaderFirstApplicable()
    ensures Verdict(ReaderFirstTask) == Ok(Applicable)
  {
    var task := ReaderFirstTask;
    var d0 := NoDomains(3);
    assert ValidCSM(task, task.csms[0]) && ValidCSM(task, task.csms[1]) && ValidCSM(task, task.csms[2]);
    ScanRecords(task, 0, d0);
    var d1 := d0[0 := Domain(task.csms[0])];
    ScanRecords(task, 1, d1);
    var d2 := d1[1 := Domain(task.csms[1])];
    ScanRecords(task, 2, d2);
  }

  /** What is left of the graph of `ReaderFirstTask` once p2 and then c2 are gone. */
  const ReaderFirstRest: Snapshot :=
    Snapshot({0, 1}, map[0 := 2, 1 := 2], map[0 := 1, 1 := 1], map[0 := 0, 1 := 1],
             map[0 := {0, 1}, 1 := {0, 1}], map[0 := {0}, 1 := {1}], map[0 := {1}, 1 := {0}])

  /** Constraint 0 of the core, copied out on its own. */
  const ReaderFirstSub: Snapshot :=
    Snapshot({0}, map[0 := 1, 1 := 1], map[0 := 1], map[0 := 0],
             map[0 := {0}, 1 := {0}], map[0 := {0}], map[0 := {1}])

  lemma ReaderFirstOutcome()
    ensures SievedOutcome(ReaderFirstTask, [2], ReaderFirstRest, [0], ReaderFirstSub, EmptySnapshot())
  {
    ReaderFirstGraph();
    ReaderFirstDown(FromTask(ReaderFirstTask));
    ReaderFirstUp();
  }

  lemma ReaderFirstGraph()
    ensures ReaderFirstTables(FromTask(ReaderFirstTask))
  {
    FromTaskListed(ReaderFirstTask);
    ReaderFirstListed(FromTask(ReaderFirstTask));
  }

  /** The tables of graph `s` are those the task lists: every id in range is live, every method as listed. */
  ghost predicate ListedTables(s: Snapshot, task: Task) {
    && s.constraints == Range(task.constraintsCount) && s.degree.Keys == Range(task.propertiesCount)
    && s.owner.Keys == Range(|task.csms|) && s.inputs.Keys == Range(|task.csms|) && s.outputs.Keys == Range(|task.csms|)
    && forall k :: 0 <= k < |task.csms| ==>
         && s.owner[k] == task.csms[k].constraintId
         && s.inputs[k] == Elements(task.csms[k].inputs) && s.outputs[k] == Elements(task.csms[k].outputs)
  }

  lemma FromTaskListed(task: Task)
    ensures ListedTables(FromTask(task), task)
  {
  }

  lemma ReaderFirstListed(s: Snapshot)
    requires ListedTables(s, ReaderFirstTask)
    ensures ReaderFirstTables(s)
  {
    assert Range(3) == {0, 1, 2};
    ReaderFirstListedOwners(s);
    ReaderFirstListedInputs(s);
    ReaderFirstListedOutputs(s);
  }

  lemma ReaderFirstListedOwners(s: Snapshot)
    requires ListedTables(s, ReaderFirstTask) && Range(3) == {0, 1, 2}
    ensures s.owner == map[0 := 0, 1 := 1, 2 := 2]
  {
    assert s.owner[0] == 0 && s.owner[1] == 1 && s.owner[2] == 2;
  }

  lemma ReaderFirstListedInputs(s: Snapshot)
    requires ListedTables(s, ReaderFirstTask) && Range(3) == {0, 1, 2}
    ensures s.inputs == map[0 := {0}, 1 := {1}, 2 := {1}]
  {
    assert Elements([0]) == {0} && Elements([1]) == {1};
    assert s.inputs[0] == {0} && s.inputs[1] == {1} && s.inputs[2] == {1};
  }

  lemma ReaderFirstListedOutputs(s: Snapshot)
    requires ListedTables(s, ReaderFirstTask) && Range(3) == {0, 1, 2}
    ensures s.outputs == map[0 := {1}, 1 := {0}, 2 := {2}]
  {
    assert Elements([0]) == {0} && Elements([1]) == {1} && Elements([2]) == {2};
    assert s.outputs[0] == {1} && s.outputs[1] == {0} && s.outputs[2] == {2};
  }

  /** A graph with the tables of `ReaderFirstTask` sieves down to `ReaderFirstRest`, picking m2. */
  lemma ReaderFirstDown(s: Snapshot)
    requires ReaderFirstTables(s)
    ensures Sieved(s, ReaderFirstRest, [2]) && Stuck(ReaderFirstRest)
  {
    ReaderFirstPicks(s);
    ReaderFirstRemains(s);
    ReaderFirstRecords(s);
  }

  /** The tables of `FromTask(ReaderFirstTask)` that the sieve records look at. */
  ghost predicate ReaderFirstTables(s: Snapshot) {
    && s.constraints == {0, 1, 2} && s.degree.Keys == {0, 1, 2}
    && s.owner == map[0 := 0, 1 := 1, 2 := 2]
    && s.inputs == map[0 := {0}, 1 := {1}, 2 := {1}]
    && s.outputs == map[0 := {1}, 1 := {0}, 2 := {2}]
  }

  lemma ReaderFirstPicks(s: Snapshot)
    requires ReaderFirstTables(s)
    ensures Picks(s, ReaderFirstRest, [2])
  {
  }

  lemma ReaderFirstRemains(s: Snapshot)
    requires ReaderFirstTables(s)
    ensures Remains(s, ReaderFirstRest, [2])
  {
    ReaderFirstLeft(s);
    ReaderFirstKept(s);
  }

  lemma ReaderFirstKept(s: Snapshot)
    requires ReaderFirstTables(s)
    ensures forall csm :: csm in ReaderFirstRest.owner ==>
      && csm in ReaderFirstRest.outputs && csm in s.outputs
      && ReaderFirstRest.outputs[csm] == s.outputs[csm] * ReaderFirstRest.degree.Keys
    ensures forall csm :: csm in ReaderFirstRest.owner ==>
      && csm in ReaderFirstRest.inputs && csm in s.inputs
      && ReaderFirstRest.inputs[csm] == s.inputs[csm] * ReaderFirstRest.degree.Keys
  {
    assert ReaderFirstRest.owner.Keys == {0, 1} && ReaderFirstRest.degree.Keys == {0, 1};
    assert {1} * {0, 1} == {1} && {0} * {0, 1} == {0};
  }

  lemma ReaderFirstLeft(s: Snapshot)
    requires ReaderFirstTables(s)
    ensures ReaderFirstRest.constraints == s.constraints - OwnersOf(s, [2])
    ensures ReaderFirstRest.owner == OwnersWithin(s, ReaderFirstRest.constraints)
  {
    assert s.owner[[2][0]] in OwnersOf(s, [2]);
    assert OwnersOf(s, [2]) == {2};
  }

  lemma ReaderFirstRecords(s: Snapshot)
    requires ReaderFirstTables(s)
    ensures PickedInOrder(s, [2]) && PicksUnmentioned(s, ReaderFirstRest, [2]) && GoneAlone(s, ReaderFirstRest)
  {
    ReaderFirstCoreLinks(s);
    ReaderFirstUnmentioned(s);
  }

  lemma ReaderFirstUnmentioned(s: Snapshot)
    requires Links(s, 0) == {0, 1} && Links(s, 1) == {0, 1} && Writes(s, 2) == {2}
    ensures PicksUnmentioned(s, ReaderFirstRest, [2])
  {
    assert ReaderFirstRest.owner.Keys == {0, 1};
  }

  lemma ReaderFirstCoreLinks(s: Snapshot)
    requires ReaderFirstTables(s)
    ensures Links(s, 0) == {0, 1} && Links(s, 1) == {0, 1} && Writes(s, 2) == {2}
  {
  }

  lemma ReaderFirstUp()
    ensures PartOf(ReaderFirstSub, ReaderFirstRest) && Sieved(ReaderFirstSub, EmptySnapshot(), [0])
  {
    var sub := ReaderFirstSub;
    assert sub.owner[[0][0]] in OwnersOf(sub, [0]);
    assert OwnersOf(sub, [0]) == {0};
    assert sub.owner == OwnersWithin(ReaderFirstRest, sub.constraints);
    assert EmptySnapshot().owner == OwnersWithin(sub, {});
  }

  /** The planner never answers "maybe applicable". */
  lemma VerdictIsDefinite(task: Task)
    ensures Verdict(task) != Ok(MaybeApplicable)
  {
    ScanNeverMaybe(task, 0, NoDomains(task.constraintsCount));
  }

  /**
   * A plan of this planner runs methods of the task, no two of the same
   * constraint: the down-picked methods' constraints are gone from what is
   * sieved up, and each sieve picks each constraint at most once.
   */
  lemma QuickPlannedOneMethodPerConstraint(task: Task, ids: seq<nat>)
    requires QuickPlanned(task, ids)
    ensures OneMethodPerConstraint(task, ids)
  {
    var down, rest, up, sub, emptied :| PlannedBy(task, ids, down, rest, up, sub, emptied);
    FromTaskOwned(task);
    PlanOwners(task, FromTask(task), down, rest, up, sub, emptied);
    ReversedPlan(task, down + up, ids);
  }

  /** Reversing a sequence of methods of pairwise distinct constraints keeps it so. */
  lemma ReversedPlan(task: Task, all: seq<nat>, ids: seq<nat>)
    requires ids == Reversed(all)
    requires forall i :: 0 <= i < |all| ==> all[i] < |task.csms|
    requires forall i, j :: 0 <= i < j < |all| ==>
      task.csms[all[i]].constraintId != task.csms[all[j]].constraintId
    ensures OneMethodPerConstraint(task, ids)
  {
    forall i | 0 <= i < |ids|
      ensures ids[i] < |task.csms|
    {
      assert ids[i] == all[|all| - 1 - i];
    }
    forall i, j | 0 <= i < j < |ids|
      ensures task.csms[ids[i]].constraintId != task.csms[ids[j]].constraintId
    {
      assert ids[i] == all[|all| - 1 - i] && ids[j] == all[|all| - 1 - j];
    }
  }

  /** The methods of graph `s` are methods of the task, owned by the constraints the task lists. */
  ghost predicate OwnedAsListed(s: Snapshot, task: Task) {
    forall k :: k in s.owner ==> k < |task.csms| && s.owner[k] == task.csms[k].constraintId
  }

  lemma FromTaskOwned(task: Task)
    ensures OwnedAsListed(FromTask(task), task)
  {
  }

  /** The methods of `down + up` are methods of the task, owned by pairwise distinct constraints. */
  lemma PlanOwners(task: Task, f: Snapshot, down: seq<nat>, rest: Snapshot, up: seq<nat>, sub: Snapshot, emptied: Snapshot)
    requires OwnedAsListed(f, task)
    requires Picks(f, rest, down) && Remains(f, rest, down)
    requires PartOf(sub, rest) && Picks(sub, emptied, up)
    ensures forall i :: 0 <= i < |down + up| ==> (down + up)[i] < |task.csms|
    ensures forall i, j :: 0 <= i < j < |down + up| ==>
      task.csms[(down + up)[i]].constraintId != task.csms[(down + up)[j]].constraintId
  {
    var all: seq<nat> := down + up;
    var n := |down|;
    forall i | 0 <= i < |up|
      ensures up[i] in f.owner && f.owner[up[i]] in rest.constraints
    {
      assert up[i] in sub.owner && sub.owner[up[i]] == rest.owner[up[i]];
    }
    forall i | 0 <= i < |all|
      ensures all[i] < |task.csms| && task.csms[all[i]].constraintId == f.owner[all[i]]
    {
      if i >= n {
        assert all[i] == up[i - n];
      }
    }
    forall i, j | 0 <= i < j < |all|
      ensures f.owner[all[i]] != f.owner[all[j]]
    {
      if j < n {
        assert all[i] == down[i] && all[j] == down[j];
      } else if i >= n {
        assert all[i] == up[i - n] && all[j] == up[j - n];
        assert sub.owner[up[i - n]] != sub.owner[up[j - n]];
      } else {
        assert all[i] == down[i] && all[j] == up[j - n];
        assert f.owner[all[i]] in OwnersOf(f, down);
      }
    }
  }

  /** A task without methods gets the empty plan. */
  lemma EmptyTaskEmptyPlan(task: Task, ids: seq<nat>)
    requires task.csms == [] && QuickPlanned(task, ids)
    ensures ids == []
  {
    QuickPlannedOneMethodPerConstraint(task, ids);
  }
}
