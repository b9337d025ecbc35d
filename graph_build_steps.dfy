/**
 * The loops that build a constraint graph from a task, stated value by
 * value: after the first `k` methods the tables hold what `FromTask` holds
 * for them, and partway through method `k` the properties it has been
 * linked to so far already count it.
 */
module GraphBuildSteps {
  import opened SetFacts
  import opened Tasks
  import opened GraphSnapshots
  import opened BidirectionalMaps

  /**
   * The tables the loop of the graph's constructor over the task's methods
   * fills, and `constraintsOf`, the constraints mentioning each property.
   */
  datatype BuildState = BuildState(owner: BiMap, outputDegree: BiMap, inputs: map<nat, set<nat>>,
                                   outputs: map<nat, set<nat>>, users: map<nat, set<nat>>,
                                   constraintsOf: seq<set<nat>>)

  /** The tables hold the first `k` methods of `task`. */
  ghost predicate Built(b: BuildState, task: Task, k: nat)
    requires k <= |task.csms|
  {
    && b.owner.Valid() && b.outputDegree.Valid()
    && b.owner.keyToValue == (map i | i in Range(k) :: task.csms[i].constraintId)
    && b.outputDegree.keyToValue == (map i | i in Range(k) :: |task.csms[i].outputs|)
    && b.inputs == (map i | i in Range(k) :: Elements(task.csms[i].inputs))
    && b.outputs == (map i | i in Range(k) :: Elements(task.csms[i].outputs))
    && Linking(b.users, b.constraintsOf, task, k, {})
  }

  /**
   * The users and the constraints of every property of `task` count the
   * first `k` methods, and method `k` as well for the properties of `seen`.
   */
  ghost predicate Linking(users: map<nat, set<nat>>, constraintsOf: seq<set<nat>>, task: Task, k: nat,
                          seen: set<nat>)
    requires k <= |task.csms|
  {
    && users == (map p | p in Range(task.propertiesCount) ::
                   MethodsMentioning(task, k, p) + (if p in seen then {k} else {}))
    && |constraintsOf| == task.propertiesCount
    && forall p :: 0 <= p < task.propertiesCount ==>
         constraintsOf[p] == ConstraintsMentioning(task, k, p) + Pending(task, k, seen, p)
  }

  /** The constraint of method `k` for a property of `seen`, and nothing for the others. */
  function Pending(task: Task, k: nat, seen: set<nat>, p: nat): set<nat> {
    if p in seen && k < |task.csms| then {task.csms[k].constraintId} else {}
  }

  /** Before the loop over the methods, every property is live with no users. */
  lemma BuiltNone(task: Task, b: BuildState)
    requires b.owner.Valid() && b.owner.keyToValue == map[]
    requires b.outputDegree.Valid() && b.outputDegree.keyToValue == map[]
    requires b.inputs == map[] && b.outputs == map[]
    requires b.users == map p | p in Range(task.propertiesCount) :: {}
    requires |b.constraintsOf| == task.propertiesCount
    requires forall p :: 0 <= p < task.propertiesCount ==> b.constraintsOf[p] == {}
    ensures Built(b, task, 0)
  {
    assert Range(0) == {};
    var v := map p | p in Range(task.propertiesCount) :: MethodsMentioning(task, 0, p) + {};
    assert b.users == v by {
      forall p | p in v
        ensures v[p] == {}
      {
        assert MethodsMentioning(task, 0, p) == {};
      }
    }
    forall p | 0 <= p < task.propertiesCount
      ensures ConstraintsMentioning(task, 0, p) == {}
    {
    }
  }

  /** One more property of method `k` is linked, after those of `seen` and `linked`. */
  lemma LinkingNext(users: map<nat, set<nat>>, constraintsOf: seq<set<nat>>, task: Task, k: nat,
                    seen: set<nat>, linked: set<nat>, p: nat)
    requires k < |task.csms| && p < task.propertiesCount
    requires Linking(users, constraintsOf, task, k, seen + linked)
    ensures p in users
    ensures Linking(users[p := users[p] + {k}],
                    constraintsOf[p := constraintsOf[p] + {task.csms[k].constraintId}],
                    task, k, seen + (linked + {p}))
  {
    var all := seen + (linked + {p});
    UsersLinkNext(users, task, k, seen + linked, all, p);
    ConstraintsLinkNext(constraintsOf, task, k, seen + linked, all, p);
  }

  lemma UsersLinkNext(users: map<nat, set<nat>>, task: Task, k: nat, before: set<nat>, all: set<nat>, p: nat)
    requires k < |task.csms| && p < task.propertiesCount && all == before + {p}
    requires users == (map q | q in Range(task.propertiesCount) ::
                         MethodsMentioning(task, k, q) + (if q in before then {k} else {}))
    ensures p in users
    ensures users[p := users[p] + {k}] == (map q | q in Range(task.propertiesCount) ::
                                            MethodsMentioning(task, k, q) + (if q in all then {k} else {}))
  {
    var u := users[p := users[p] + {k}];
    var v := map q | q in Range(task.propertiesCount) ::
               MethodsMentioning(task, k, q) + (if q in all then {k} else {});
    assert u.Keys == v.Keys;
    forall q | q in u
      ensures u[q] == v[q]
    {
    }
  }

  lemma ConstraintsLinkNext(constraintsOf: seq<set<nat>>, task: Task, k: nat, before: set<nat>, all: set<nat>, p: nat)
    requires k < |task.csms| && p < task.propertiesCount && all == before + {p}
    requires |constraintsOf| == task.propertiesCount
    requires forall q :: 0 <= q < task.propertiesCount ==>
      constraintsOf[q] == ConstraintsMentioning(task, k, q) + Pending(task, k, before, q)
    ensures forall q :: 0 <= q < task.propertiesCount ==>
      constraintsOf[p := constraintsOf[p] + {task.csms[k].constraintId}][q] ==
      ConstraintsMentioning(task, k, q) + Pending(task, k, all, q)
  {
  }

  /** The constructor's loop over the property ids, one more property. */
  lemma ZerosNext(p: nat, next: nat, degree: map<nat, nat>, users: map<nat, set<nat>>)
    requires next == p + 1
    requires degree == map q | q in Range(p) :: 0
    requires users == map q | q in Range(p) :: {}
    ensures degree[p := 0] == map q | q in Range(next) :: 0
    ensures users[p := {}] == map q | q in Range(next) :: {}
  {
    assert Range(next) == Range(p) + {p};
  }

  /** The degrees of the properties below `p` set, the others still 0. */
  function DegreesBelow(constraintsOf: seq<set<nat>>, p: nat): map<nat, nat> {
    map q | q in Range(|constraintsOf|) :: if q < p then |constraintsOf[q]| else 0
  }

  lemma DegreesBelowNone(constraintsOf: seq<set<nat>>)
    ensures DegreesBelow(constraintsOf, 0) == map q | q in Range(|constraintsOf|) :: 0
  {
  }

  lemma DegreesBelowNext(constraintsOf: seq<set<nat>>, p: nat)
    requires p < |constraintsOf|
    ensures DegreesBelow(constraintsOf, p)[p := |constraintsOf[p]|] == DegreesBelow(constraintsOf, p + 1)
  {
  }

  lemma DegreesBelowAll(constraintsOf: seq<set<nat>>)
    ensures DegreesBelow(constraintsOf, |constraintsOf|) == map q | q in Range(|constraintsOf|) :: |constraintsOf[q]|
  {
  }

  /** Once method `k` is linked to every property it mentions, the tables hold the first `k + 1` methods. */
  lemma BuiltNext(b: BuildState, task: Task, k: nat, users: map<nat, set<nat>>, constraintsOf: seq<set<nat>>,
                  ins: set<nat>, outs: set<nat>)
    requires k < |task.csms|
    requires Built(b, task, k)
    requires ins == Elements(task.csms[k].inputs) && outs == Elements(task.csms[k].outputs)
    requires Linking(users, constraintsOf, task, k, ins + outs)
    ensures Built(BuildState(b.owner.Insert(k, task.csms[k].constraintId),
                             b.outputDegree.Insert(k, |task.csms[k].outputs|),
                             b.inputs[k := ins], b.outputs[k := outs], users, constraintsOf),
                  task, k + 1)
  {
    BuiltTablesNext(b, task, k);
    LinkingDone(users, constraintsOf, task, k, ins + outs);
  }

  lemma BuiltTablesNext(b: BuildState, task: Task, k: nat)
    requires k < |task.csms|
    requires Built(b, task, k)
    ensures (map i | i in Range(k + 1) :: task.csms[i].constraintId) == b.owner.keyToValue[k := task.csms[k].constraintId]
    ensures (map i | i in Range(k + 1) :: |task.csms[i].outputs|) == b.outputDegree.keyToValue[k := |task.csms[k].outputs|]
    ensures (map i | i in Range(k + 1) :: Elements(task.csms[i].inputs)) == b.inputs[k := Elements(task.csms[k].inputs)]
    ensures (map i | i in Range(k + 1) :: Elements(task.csms[i].outputs)) == b.outputs[k := Elements(task.csms[k].outputs)]
  {
    OwnersNext(task, k);
    CountsNext(task, k);
    InputsNext(task, k);
    OutputsNext(task, k);
  }

  lemma OwnersNext(task: Task, k: nat)
    requires k < |task.csms|
    ensures (map i | i in Range(k + 1) :: task.csms[i].constraintId) ==
            (map i | i in Range(k) :: task.csms[i].constraintId)[k := task.csms[k].constraintId]
  {
    assert Range(k + 1) == Range(k) + {k};
  }

  lemma CountsNext(task: Task, k: nat)
    requires k < |task.csms|
    ensures (map i | i in Range(k + 1) :: |task.csms[i].outputs|) ==
            (map i | i in Range(k) :: |task.csms[i].outputs|)[k := |task.csms[k].outputs|]
  {
    assert Range(k + 1) == Range(k) + {k};
  }

  lemma InputsNext(task: Task, k: nat)
    requires k < |task.csms|
    ensures (map i | i in Range(k + 1) :: Elements(task.csms[i].inputs)) ==
            (map i | i in Range(k) :: Elements(task.csms[i].inputs))[k := Elements(task.csms[k].inputs)]
  {
    assert Range(k + 1) == Range(k) + {k};
  }

  lemma OutputsNext(task: Task, k: nat)
    requires k < |task.csms|
    ensures (map i | i in Range(k + 1) :: Elements(task.csms[i].outputs)) ==
            (map i | i in Range(k) :: Elements(task.csms[i].outputs))[k := Elements(task.csms[k].outputs)]
  {
    assert Range(k + 1) == Range(k) + {k};
  }

  /** Linking method `k` to every property it mentions completes the first `k + 1` methods. */
  lemma LinkingDone(users: map<nat, set<nat>>, constraintsOf: seq<set<nat>>, task: Task, k: nat, seen: set<nat>)
    requires k < |task.csms| && seen == Domain(task.csms[k])
    requires Linking(users, constraintsOf, task, k, seen)
    ensures Linking(users, constraintsOf, task, k + 1, {})
  {
    UsersDone(task, k, seen);
    ConstraintsOfDone(constraintsOf, task, k, seen);
  }

  lemma ConstraintsOfDone(constraintsOf: seq<set<nat>>, task: Task, k: nat, seen: set<nat>)
    requires k < |task.csms| && seen == Domain(task.csms[k]) && |constraintsOf| == task.propertiesCount
    requires forall p :: 0 <= p < task.propertiesCount ==>
      constraintsOf[p] == ConstraintsMentioning(task, k, p) + Pending(task, k, seen, p)
    ensures forall p :: 0 <= p < task.propertiesCount ==>
      constraintsOf[p] == ConstraintsMentioning(task, k + 1, p) + Pending(task, k + 1, {}, p)
  {
    forall p | 0 <= p < task.propertiesCount
      ensures constraintsOf[p] == ConstraintsMentioning(task, k + 1, p) + {}
    {
      ConstraintsDone(task, k, seen, p);
    }
  }

  lemma UsersDone(task: Task, k: nat, seen: set<nat>)
    requires k < |task.csms| && seen == Domain(task.csms[k])
    ensures (map p | p in Range(task.propertiesCount) :: MethodsMentioning(task, k, p) + (if p in seen then {k} else {}))
         == (map p | p in Range(task.propertiesCount) :: MethodsMentioning(task, k + 1, p) + (if p in {} then {k + 1} else {}))
  {
    forall p | p in Range(task.propertiesCount)
      ensures MethodsMentioning(task, k, p) + (if p in seen then {k} else {}) == MethodsMentioning(task, k + 1, p) + {}
    {
      assert MethodsMentioning(task, k + 1, p) == MethodsMentioning(task, k, p) + (if p in seen then {k} else {});
    }
  }

  lemma ConstraintsDone(task: Task, k: nat, seen: set<nat>, p: nat)
    requires k < |task.csms| && seen == Domain(task.csms[k])
    ensures ConstraintsMentioning(task, k + 1, p) ==
            ConstraintsMentioning(task, k, p) + (if p in seen then {task.csms[k].constraintId} else {})
  {
  }

  /** Once every method is in, the tables and degrees are those of `FromTask`. */
  lemma BuiltFromTask(task: Task, ids: set<nat>, b: BuildState, degree: map<nat, nat>)
    requires Built(b, task, |task.csms|)
    requires ids == Range(task.constraintsCount)
    requires degree == map p | p in Range(task.propertiesCount) :: |b.constraintsOf[p]|
    ensures FromTask(task) ==
      Snapshot(ids, degree, b.outputDegree.keyToValue, b.owner.keyToValue, b.users, b.inputs, b.outputs)
  {
    DegreesBuilt(task, b.constraintsOf, degree);
    UsersBuilt(task);
  }

  lemma DegreesBuilt(task: Task, constraintsOf: seq<set<nat>>, degree: map<nat, nat>)
    requires |constraintsOf| == task.propertiesCount
    requires forall p :: 0 <= p < task.propertiesCount ==>
      constraintsOf[p] == ConstraintsMentioning(task, |task.csms|, p) + {}
    requires degree == map p | p in Range(task.propertiesCount) :: |constraintsOf[p]|
    ensures degree == map p | p in Range(task.propertiesCount) :: |ConstraintsMentioning(task, |task.csms|, p)|
  {
  }

  lemma UsersBuilt(task: Task)
    ensures (map p | p in Range(task.propertiesCount) :: MethodsMentioning(task, |task.csms|, p) + {})
         == (map p | p in Range(task.propertiesCount) :: MethodsMentioning(task, |task.csms|, p))
  {
    forall p | p in Range(task.propertiesCount)
      ensures MethodsMentioning(task, |task.csms|, p) + {} == MethodsMentioning(task, |task.csms|, p)
    {
    }
  }
}
