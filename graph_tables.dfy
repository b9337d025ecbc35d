/**
 * The members of a constraint graph as one value, and the loops of the
 * graph's constructor and edits, each stated over these values against a
 * predicate of `GraphBuildSteps` or `GraphEditSteps`.
 */
module GraphTables {
  import opened SetFacts
  import opened Tasks
  import opened TableEdits
  import opened GraphSnapshots
  import opened BidirectionalMaps
  import opened GraphEditSteps
  import opened GraphBuildSteps

  /**
   * The members of a constraint graph: the live constraint ids, three
   * bidirectional maps (property to degree, method to output degree, method
   * to owning constraint) and three tables of sets (property to the methods
   * mentioning it, method to its live inputs, method to its live outputs).
   */
  datatype Tables = Tables(
    constraintIds: set<nat>,
    propertyDegree: BiMap,
    csmOutputDegree: BiMap,
    csmConstraint: BiMap,
    propertyCSMs: map<nat, set<nat>>,
    csmInputs: map<nat, set<nat>>,
    csmOutputs: map<nat, set<nat>>)
  {
    /** What the members hold. */
    ghost function Contents(): Snapshot {
      Snapshot(constraintIds, propertyDegree.keyToValue, csmOutputDegree.keyToValue,
               csmConstraint.keyToValue, propertyCSMs, csmInputs, csmOutputs)
    }

    /** Well-formed bidirectional maps and coherent tables. */
    ghost predicate Valid() {
      && propertyDegree.Valid() && csmOutputDegree.Valid() && csmConstraint.Valid()
      && Coherent(Contents())
    }
  }

  /**
   * The loop of `RemoveConstraint` over the methods of the constraint: each
   * leaves the users of its inputs and outputs, the properties it mentioned
   * are gathered in `removed`, and its entries in the per-method tables go.
   */
  method DetachMethods(csmIds: set<nat>, start: DetachState, ghost s: Snapshot) returns (t: DetachState)
    requires Coherent(s) && Detaching(start, s, {}) && csmIds <= s.owner.Keys
    ensures Detaching(t, s, csmIds)
  {
    t := start;
    var todo := csmIds;
    assert csmIds - todo == {};
    while todo != {}
      invariant todo <= csmIds
      invariant Detaching(t, s, csmIds - todo)
      decreases todo
    {
      var csm :| csm in todo;
      DetachingReady(t, s, csmIds, todo, csm);
      var users, removed := DetachLinks(t.users, t.removed, csm, t.inputs[csm]);
      users, removed := DetachLinks(users, removed, csm, t.outputs[csm]);
      DetachingNext(t, s, csmIds, todo, csm, users, removed);
      t := DetachState(users, t.inputs - {csm}, t.outputs - {csm}, t.owner.Erase(csm), t.outputDegree.Erase(csm), removed);
      todo := todo - {csm};
    }
    assert csmIds - todo == csmIds;
  }

  /** The loops of `RemoveConstraint` over the inputs, then the outputs, of one method. */
  method DetachLinks(users: map<nat, set<nat>>, removed: set<nat>, csm: nat, props: set<nat>)
    returns (u: map<nat, set<nat>>, r: set<nat>)
    requires props <= users.Keys
    ensures u == Detached(users, csm, props) && r == removed + props
  {
    DetachedNone(users, csm);
    u, r := users, removed;
    var todo := props;
    while todo != {}
      invariant todo <= props
      invariant u == Detached(users, csm, props - todo) && r == removed + (props - todo)
      decreases todo
    {
      var p :| p in todo;
      DetachedNext(users, csm, props, todo, p);
      u := u[p := u[p] - {csm}];
      r := r + {p};
      todo := todo - {p};
    }
    assert props - todo == props;
  }

  /** The last loop of `RemoveConstraint`: each property of `props` loses one degree. */
  method LowerDegrees(degree: BiMap, props: set<nat>) returns (r: BiMap)
    requires degree.Valid()
    requires forall q :: q in props ==> q in degree.keyToValue && degree.keyToValue[q] > 0
    ensures r.Valid() && r.keyToValue == Decreased(degree.keyToValue, props)
  {
    DecreasedNone(degree.keyToValue);
    r := degree;
    var todo := props;
    while todo != {}
      invariant todo <= props
      invariant r.Valid() && r.keyToValue == Decreased(degree.keyToValue, props - todo)
      decreases todo
    {
      var q :| q in todo;
      DecreasedNext(degree.keyToValue, props, todo, q);
      r := r.Insert(q, r.Get(q) - 1);
      todo := todo - {q};
    }
    assert props - todo == props;
  }

  /**
   * The loop of `RemoveProperty`: each method of `users` loses `p` from its
   * inputs and outputs, and one output degree if `p` was among its outputs.
   */
  method StripUsers(p: nat, users: set<nat>, start: StripState) returns (t: StripState)
    requires start.outputDegree.Valid() && CountsOutput(start.outputDegree.keyToValue, start.outputs, p)
    requires users <= start.inputs.Keys && users <= start.outputs.Keys && users <= start.outputDegree.keyToValue.Keys
    ensures Stripped(t, start, p, users)
  {
    StripNone(start.inputs, p);
    StripNone(start.outputs, p);
    LowerNone(start.outputDegree.keyToValue, start.outputs, p);
    var inputs, outputs, outputDegree := start.inputs, start.outputs, start.outputDegree;
    var todo := users;
    while todo != {}
      invariant todo <= users
      invariant Stripped(StripState(inputs, outputs, outputDegree), start, p, users - todo)
      decreases todo
    {
      var csm :| csm in todo;
      StrippedNext(StripState(inputs, outputs, outputDegree), start, p, users, todo, csm);
      inputs := inputs[csm := inputs[csm] - {p}];
      var wasOutput := p in outputs[csm];
      outputs := outputs[csm := outputs[csm] - {p}];
      if wasOutput {
        outputDegree := outputDegree.Insert(csm, outputDegree.Get(csm) - 1);
      }
      todo := todo - {csm};
    }
    assert users - todo == users;
    return StripState(inputs, outputs, outputDegree);
  }

  /**
   * The loop of `CopyConstraintFrom` over the methods of the copied
   * constraint, one `CopyMethod` per method.
   */
  method CopyMethods(c: nat, csmIds: set<nat>, start: CopyState, from: Tables, ghost s: Snapshot)
    returns (t: CopyState)
    requires from.Valid() && csmIds <= from.Contents().owner.Keys
    requires Copying(start, s, from.Contents(), c, {})
    ensures Copying(t, s, from.Contents(), c, csmIds)
  {
    t := start;
    var todo := csmIds;
    assert csmIds - todo == {};
    while todo != {}
      invariant todo <= csmIds
      invariant Copying(t, s, from.Contents(), c, csmIds - todo)
      decreases todo
    {
      var csm :| csm in todo;
      t := CopyMethod(c, csmIds, todo, csm, t, from, s);
      todo := todo - {csm};
    }
    assert csmIds - todo == csmIds;
  }

  /**
   * Method `csm` of `from` becomes a method of `c` with the output degree,
   * inputs and outputs it has there, and joins the users of its inputs and
   * outputs; the properties it mentions are recorded in `added`.
   */
  method CopyMethod(c: nat, all: set<nat>, todo: set<nat>, csm: nat, t: CopyState, from: Tables,
                    ghost s: Snapshot)
    returns (r: CopyState)
    requires from.Valid() && all <= from.Contents().owner.Keys
    requires csm in todo && todo <= all
    requires Copying(t, s, from.Contents(), c, all - todo)
    ensures Copying(r, s, from.Contents(), c, all - (todo - {csm}))
  {
    var ins := from.csmInputs[csm];
    var outs := from.csmOutputs[csm];
    var users, degree := AttachAllLinks(t.users, t.degree, csm, ins, outs);
    var added := t.added + (ins + outs);
    CopyingNext(t, s, from.Contents(), c, all, todo, csm, users, degree, added);
    r := CopyState(t.owner.Insert(csm, c), t.outputDegree.Insert(csm, from.csmOutputDegree.Get(csm)),
                   t.inputs[csm := ins], t.outputs[csm := outs], users, degree, added);
  }

  /** The two loops of `CopyConstraintFrom` over the inputs and then the outputs of method `csm`. */
  method AttachAllLinks(users: map<nat, set<nat>>, degree: BiMap, csm: nat, ins: set<nat>, outs: set<nat>)
    returns (u: map<nat, set<nat>>, d: BiMap)
    requires degree.Valid()
    ensures d.Valid() && d.keyToValue == Padded(degree.keyToValue, ins + outs)
    ensures u == Attached(users, csm, ins + outs)
  {
    u, d := AttachLinks(users, degree, csm, ins);
    u, d := AttachLinks(u, d, csm, outs);
    AttachedTwice(users, csm, ins, outs);
    PaddedTwice(degree.keyToValue, ins, outs);
  }

  /**
   * The loop of `CopyConstraintFrom` over the inputs (or the outputs) of
   * method `csm`: a property missing from the degree table gets degree 0,
   * and `csm` joins its users, which start empty for a property not seen
   * before. (The same loop records each property in `added`; the caller
   * adds `props` as a whole.)
   */
  method AttachLinks(users: map<nat, set<nat>>, degree: BiMap, csm: nat, props: set<nat>)
    returns (u: map<nat, set<nat>>, d: BiMap)
    requires degree.Valid()
    ensures d.Valid() && d.keyToValue == Padded(degree.keyToValue, props)
    ensures u == Attached(users, csm, props)
  {
    PaddedNone(degree.keyToValue);
    AttachedNone(users, csm);
    u, d := users, degree;
    var todo := props;
    assert props - todo == {};
    while todo != {}
      invariant todo <= props
      invariant d.Valid() && d.keyToValue == Padded(degree.keyToValue, props - todo)
      invariant u == Attached(users, csm, props - todo)
      decreases todo
    {
      var p :| p in todo;
      PaddedNext(degree.keyToValue, props, todo, p);
      AttachedNext(users, csm, props, todo, p, u);
      if !d.Contains(p) {
        d := d.Insert(p, 0);
      }
      var entry := if p in u then u[p] else {};
      u := u[p := entry + {csm}];
      todo := todo - {p};
    }
    assert props - todo == props;
  }

  /** The last loop of `CopyConstraintFrom`: every linked property gains one degree. */
  method RaiseDegrees(degree: BiMap, props: set<nat>) returns (r: BiMap)
    requires degree.Valid() && props <= degree.keyToValue.Keys
    ensures r.Valid() && r.keyToValue == Raised(degree.keyToValue, props)
  {
    RaisedNone(degree.keyToValue);
    r := degree;
    var todo := props;
    while todo != {}
      invariant todo <= props
      invariant r.Valid() && r.keyToValue == Raised(degree.keyToValue, props - todo)
      decreases todo
    {
      var q :| q in todo;
      RaisedNext(degree.keyToValue, props, todo, q);
      r := r.Insert(q, r.Get(q) + 1);
      todo := todo - {q};
    }
    assert props - todo == props;
  }

  // The loops of the graph's constructor.

  /** The loop over the constraint ids: every constraint of the task is live. */
  method LiveConstraints(count: nat) returns (ids: set<nat>)
    ensures ids == Range(count)
  {
    ids := {};
    for c := 0 to count
      invariant ids == Range(c)
    {
      ids := ids + {c};
    }
  }

  /** The loop over the property ids: every property starts with degree 0 and no users. */
  method ZeroProperties(count: nat) returns (degree: BiMap, users: map<nat, set<nat>>)
    ensures degree.Valid() && degree.keyToValue == map p | p in Range(count) :: 0
    ensures users == map p | p in Range(count) :: {}
  {
    degree := EmptyBiMap();
    users := map[];
    for p := 0 to count
      invariant degree.Valid() && degree.keyToValue == map q | q in Range(p) :: 0
      invariant users == map q | q in Range(p) :: {}
    {
      ZerosNext(p, p + 1, degree.keyToValue, users);
      degree := degree.Insert(p, 0);
      users := users[p := {}];
    }
  }

  /** The loop over the task's methods, one `AddMethod` per method. */
  method AddMethods(task: Task, start: BuildState) returns (b: BuildState)
    requires IdsInRange(task)
    requires Built(start, task, 0)
    ensures Built(b, task, |task.csms|)
  {
    b := start;
    for i := 0 to |task.csms|
      invariant Built(b, task, i)
    {
      b := AddMethod(task, i, b);
    }
  }

  /**
   * Method `i` of the task gets its constraint, its output degree (the
   * length of its output list) and its inputs and outputs; the properties
   * it mentions gain it as a user and its constraint as a constraint.
   */
  method AddMethod(task: Task, i: nat, b: BuildState) returns (r: BuildState)
    requires IdsInRange(task) && i < |task.csms|
    requires Built(b, task, i)
    ensures Built(r, task, i + 1)
  {
    var m := task.csms[i];
    var owner := b.owner.Insert(i, m.constraintId);
    var outputDegree := b.outputDegree.Insert(i, |m.outputs|);
    var users, constraintsOf, ins, outs := LinkMethod(task, i, b.users, b.constraintsOf);
    BuiltNext(b, task, i, users, constraintsOf, ins, outs);
    r := BuildState(owner, outputDegree, b.inputs[i := ins], b.outputs[i := outs], users, constraintsOf);
  }

  /** The two loops over the inputs and then the outputs of method `i`. */
  method LinkMethod(task: Task, i: nat, users: map<nat, set<nat>>, constraintsOf: seq<set<nat>>)
    returns (u: map<nat, set<nat>>, cs: seq<set<nat>>, ins: set<nat>, outs: set<nat>)
    requires IdsInRange(task) && i < |task.csms|
    requires Linking(users, constraintsOf, task, i, {})
    ensures ins == Elements(task.csms[i].inputs) && outs == Elements(task.csms[i].outputs)
    ensures Linking(u, cs, task, i, ins + outs)
  {
    var m := task.csms[i];
    assert forall j :: 0 <= j < |m.inputs| ==> m.inputs[j] in Domain(m);
    assert forall j :: 0 <= j < |m.outputs| ==> m.outputs[j] in Domain(m);
    u, cs, ins := LinkProperties(task, i, m.inputs, users, constraintsOf, {});
    assert {} + ins == ins;
    u, cs, outs := LinkProperties(task, i, m.outputs, u, cs, ins);
  }

  /**
   * The loop over one property list of method `k`: each property gains `k`
   * as a user and the constraint of `k` as a constraint, and is recorded in
   * `linked`, the method's set of inputs (or outputs).
   */
  method LinkProperties(task: Task, k: nat, list: seq<nat>, users: map<nat, set<nat>>,
                        constraintsOf: seq<set<nat>>, ghost seen: set<nat>)
    returns (u: map<nat, set<nat>>, cs: seq<set<nat>>, linked: set<nat>)
    requires k < |task.csms|
    requires forall j :: 0 <= j < |list| ==> list[j] < task.propertiesCount
    requires Linking(users, constraintsOf, task, k, seen)
    ensures linked == Elements(list)
    ensures Linking(u, cs, task, k, seen + linked)
  {
    u, cs, linked := users, constraintsOf, {};
    assert seen + linked == seen;
    for j := 0 to |list|
      invariant linked == Elements(list[..j])
      invariant Linking(u, cs, task, k, seen + linked)
    {
      var p := list[j];
      LinkingNext(u, cs, task, k, seen, linked, p);
      ElementsNext(list, j);
      cs := cs[p := cs[p] + {task.csms[k].constraintId}];
      u := u[p := u[p] + {k}];
      linked := linked + {p};
    }
    assert list[..|list|] == list;
  }

  /** The last loop of the constructor: each property's degree is the number of its constraints. */
  method SetDegrees(degree: BiMap, constraintsOf: seq<set<nat>>) returns (r: BiMap)
    requires degree.Valid() && degree.keyToValue == map p | p in Range(|constraintsOf|) :: 0
    ensures r.Valid() && r.keyToValue == map p | p in Range(|constraintsOf|) :: |constraintsOf[p]|
  {
    r := degree;
    DegreesBelowNone(constraintsOf);
    for p := 0 to |constraintsOf|
      invariant r.Valid() && r.keyToValue == DegreesBelow(constraintsOf, p)
    {
      DegreesBelowNext(constraintsOf, p);
      r := r.Insert(p, |constraintsOf[p]|);
    }
    DegreesBelowAll(constraintsOf);
  }
}
