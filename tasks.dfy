/**
 * The solver-facing view of a property model: a task is a property count, a
 * constraint count and a flat list of constraint-satisfaction methods (CSMs);
 * a solution is an ordered list of indices into that list.
 */
module Tasks {
  import opened SetFacts

  /** One method of a constraint: the properties it reads and those it writes. */
  datatype CSM = CSM(constraintId: nat, inputs: seq<nat>, outputs: seq<nat>)

  datatype Task = Task(propertiesCount: nat, constraintsCount: nat, csms: seq<CSM>)

  /** The accepted plan: method indices in execution order. */
  datatype Solution = Solution(csmIds: seq<nat>)

  datatype Applicability = NotApplicable | Applicable | MaybeApplicable

  /** The three malformed-task conditions both planners reject as usage errors. */
  datatype UsageError = ConstraintIdTooLarge | PropertyIdTooLarge | InputsAndOutputsIntersect

  datatype Option<T> = None | Some(value: T)

  /** A usage error is thrown through, and so is a separate outcome from any planning result. */
  datatype Result<T> = Ok(value: T) | Err(error: UsageError)

  /** Every property a method mentions, read or written. */
  function Domain(m: CSM): set<nat> {
    (set p | p in m.inputs) + (set p | p in m.outputs)
  }

  /**
   * The checks both planners run on one method, in the order they run them:
   * the constraint id, then every input id, then every output id, then
   * disjointness of inputs and outputs.
   */
  function CheckCSM(task: Task, m: CSM): (r: Option<UsageError>)
    ensures r == Some(ConstraintIdTooLarge) <==> m.constraintId >= task.constraintsCount
    ensures r == Some(PropertyIdTooLarge) <==>
      m.constraintId < task.constraintsCount &&
      exists p :: (p in m.inputs || p in m.outputs) && p >= task.propertiesCount
    ensures r == Some(InputsAndOutputsIntersect) <==>
      m.constraintId < task.constraintsCount &&
      (forall p :: p in m.inputs || p in m.outputs ==> p < task.propertiesCount) &&
      exists p :: p in m.inputs && p in m.outputs
    ensures r == None <==> ValidCSM(task, m)
  {
    if m.constraintId >= task.constraintsCount then Some(ConstraintIdTooLarge)
    else if exists p :: p in m.inputs && p >= task.propertiesCount then Some(PropertyIdTooLarge)
    else if exists p :: p in m.outputs && p >= task.propertiesCount then Some(PropertyIdTooLarge)
    else if exists p :: p in m.inputs && p in m.outputs then Some(InputsAndOutputsIntersect)
    else None
  }

  /**
   * The per-method checks as both planners run them: one loop over the
   * inputs, one over the outputs, then a lookup of every output in the set
   * of inputs. Each failing check is a thrown usage error.
   */
  method ValidateCSM(task: Task, m: CSM) returns (r: Option<UsageError>)
    ensures r == CheckCSM(task, m)
  {
    if m.constraintId >= task.constraintsCount {
      return Some(ConstraintIdTooLarge);
    }
    var k := 0;
    while k < |m.inputs|
      invariant 0 <= k <= |m.inputs|
      invariant forall j :: 0 <= j < k ==> m.inputs[j] < task.propertiesCount
    {
      if m.inputs[k] >= task.propertiesCount {
        assert m.inputs[k] in m.inputs;
        return Some(PropertyIdTooLarge);
      }
      k := k + 1;
    }
    k := 0;
    while k < |m.outputs|
      invariant 0 <= k <= |m.outputs|
      invariant forall p :: p in m.inputs ==> p < task.propertiesCount
      invariant forall j :: 0 <= j < k ==> m.outputs[j] < task.propertiesCount
    {
      if m.outputs[k] >= task.propertiesCount {
        assert m.outputs[k] in m.outputs;
        return Some(PropertyIdTooLarge);
      }
      k := k + 1;
    }
    var inputSet := set p | p in m.inputs;
    k := 0;
    while k < |m.outputs|
      invariant 0 <= k <= |m.outputs|
      invariant forall p :: p in m.inputs || p in m.outputs ==> p < task.propertiesCount
      invariant forall j :: 0 <= j < k ==> m.outputs[j] !in inputSet
    {
      if m.outputs[k] in inputSet {
        return Some(InputsAndOutputsIntersect);
      }
      k := k + 1;
    }
    return None;
  }

  /** A method whose ids are in range and whose inputs and outputs are disjoint. */
  ghost predicate ValidCSM(task: Task, m: CSM) {
    && m.constraintId < task.constraintsCount
    && (forall p :: p in m.inputs || p in m.outputs ==> p < task.propertiesCount)
    && (forall p :: p in m.inputs ==> p !in m.outputs)
  }

  /** Every method of the task passes the usage checks. */
  ghost predicate WellFormed(task: Task) {
    forall i :: 0 <= i < |task.csms| ==> ValidCSM(task, task.csms[i])
  }

  /** The ids of a solution index methods of the task and belong to pairwise distinct constraints. */
  ghost predicate OneMethodPerConstraint(task: Task, ids: seq<nat>) {
    && (forall i :: 0 <= i < |ids| ==> ids[i] < |task.csms|)
    && (forall i, j :: 0 <= i < j < |ids| ==>
          task.csms[ids[i]].constraintId != task.csms[ids[j]].constraintId)
  }

  lemma OneMethodPerConstraintIsDistinct(task: Task, ids: seq<nat>)
    requires OneMethodPerConstraint(task, ids)
    ensures Distinct(ids)
  {
    forall i, j | 0 <= i < j < |ids| ensures ids[i] != ids[j] {
      assert task.csms[ids[i]].constraintId != task.csms[ids[j]].constraintId;
    }
  }
}
