/**
 * The mutable constraint hyper-graph of the quick-plan planner. Properties,
 * constraints and methods are numbered; the graph keeps, for every live
 * property, its degree (how many live constraints mention it) and the live
 * methods mentioning it, and for every live method its owning constraint,
 * its output degree and its live inputs and outputs. The degree, output
 * degree and owner tables are bidirectional maps, so that a property of a
 * given degree, a method of a given output degree or the methods of a
 * constraint can be found directly.
 *
 * The contents of a graph are the `Snapshot` value `Model()`; each edit is
 * specified by the function of `GraphSnapshots` it performs.
 */
module ConstraintGraphs {
  import opened Tasks
  import opened SetFacts
  import opened TableEdits
  import opened GraphSnapshots
  import opened BidirectionalMaps
  import opened GraphEditSteps
  import opened GraphTables
  import opened GraphBuildSteps

  /**
   * The constraint hyper-graph the quick-plan planner sieves. Its members
   * are held as one `Tables` value, so that copying or assigning a
   * graph copies all of them at once, as the graph's copy constructor and
   * copy assignment do.
   */
  class ConstraintGraph {
    var tables: Tables

    /** The contents of the graph. */
    ghost function Model(): Snapshot
      reads this
    {
      tables.Contents()
    }

    ghost predicate Valid()
      reads this
    {
      tables.Valid()
    }

    /** The empty graph, the starting point of the rebuilt graphs. */
    constructor ()
      ensures Valid() && Model() == EmptySnapshot()
    {
      tables := Tables({}, EmptyBiMap(), EmptyBiMap(), EmptyBiMap(), map[], map[], map[]);
      new;
      EmptyCoherent();
    }

    /**
     * The graph of `task`: every constraint and property is live, every
     * method is copied in with its constraint, output degree, inputs and
     * outputs, and every property's degree is the number of distinct
     * constraints mentioning it. The task's ids must be in range, which the
     * planner checks before building the graph.
     */
    constructor OfTask(task: Task)
      requires IdsInRange(task)
      ensures Valid() && Model() == FromTask(task)
    {
      var ids := LiveConstraints(task.constraintsCount);
      var degree, users := ZeroProperties(task.propertiesCount);
      var constraintsOf: seq<set<nat>> := seq(task.propertiesCount, p => {});
      var start := BuildState(EmptyBiMap(), EmptyBiMap(), map[], map[], users, constraintsOf);
      BuiltNone(task, start);
      var b := AddMethods(task, start);
      degree := SetDegrees(degree, b.constraintsOf);
      BuiltFromTask(task, ids, b, degree.keyToValue);
      FromTaskCoherent(task);
      tables := Tables(ids, degree, b.outputDegree, b.owner, b.users, b.inputs, b.outputs);
    }

    /** A copy of `other`. */
    constructor Copy(other: ConstraintGraph)
      requires other.Valid()
      ensures Valid() && Model() == other.Model()
    {
      tables := other.tables;
    }

    /** Overwrites this graph with the contents of `other`. */
    method Assign(other: ConstraintGraph)
      requires other.Valid()
      modifies this
      ensures Valid() && Model() == old(other.Model())
    {
      tables := other.tables;
    }

    /** The graph still has methods. */
    predicate HasCSMs()
      reads this
      requires Valid()
      ensures HasCSMs() <==> Model().owner != map[]
    {
      assert tables.csmInputs.Keys == tables.csmConstraint.keyToValue.Keys;
      tables.csmInputs != map[]
    }

    /** The live constraint ids; callers iterate them in ascending order. */
    function ConstraintIds(): (r: set<nat>)
      reads this
      ensures r == Model().constraints
    {
      tables.constraintIds
    }

    /** The owner of a live method. */
    function ConstraintIdByCSM(csm: nat): (r: nat)
      reads this
      requires Valid() && csm in Model().owner
      ensures r == Model().owner[csm] && r in Model().constraints
    {
      tables.csmConstraint.Get(csm)
    }

    /** Some live property has exactly `degree` live constraints mentioning it. */
    predicate HasPropertyWithDegree(degree: nat)
      reads this
      requires Valid()
      ensures HasPropertyWithDegree(degree) <==> exists p :: p in Model().degree && Model().degree[p] == degree
    {
      assert Model().degree == tables.propertyDegree.keyToValue;
      tables.propertyDegree.ContainsValue(degree)
    }

    /** Some live property of that degree, whichever the hash set yields first; `None` where the source throws. */
    method PropertyWithDegree(degree: nat) returns (r: Option<nat>)
      requires Valid()
      ensures r.None? <==> !HasPropertyWithDegree(degree)
      ensures r.Some? ==> r.value in Model().degree && Model().degree[r.value] == degree
    {
      var keys := tables.propertyDegree.Keys(degree);
      if keys == {} {
        return None;
      }
      var p :| p in keys;
      return Some(p);
    }

    /** Some live method has output degree `degree`. */
    predicate HasCSMWithOutputDegree(degree: nat)
      reads this
      requires Valid()
      ensures HasCSMWithOutputDegree(degree) <==>
        exists csm :: csm in Model().outputDegree && Model().outputDegree[csm] == degree
    {
      assert Model().outputDegree == tables.csmOutputDegree.keyToValue;
      tables.csmOutputDegree.ContainsValue(degree)
    }

    /** Some live method of that output degree, whichever the hash set yields first; `None` where the source throws. */
    method CSMWithOutputDegree(degree: nat) returns (r: Option<nat>)
      requires Valid()
      ensures r.None? <==> !HasCSMWithOutputDegree(degree)
      ensures r.Some? ==> r.value in Model().outputDegree && Model().outputDegree[r.value] == degree
    {
      var keys := tables.csmOutputDegree.Keys(degree);
      if keys == {} {
        return None;
      }
      var csm :| csm in keys;
      return Some(csm);
    }

    /**
     * Removes a live property: its degree entry, its users entry, and its
     * occurrences among the inputs and outputs of the methods mentioning it,
     * each removed output lowering that method's output degree. Removing a
     * property that is not live is an error (`false`) and changes nothing.
     */
    method RemoveProperty(p: nat) returns (ok: bool)
      requires Valid()
      modifies this
      ensures Valid()
      ensures ok <==> p in old(Model()).degree
      ensures Model() == if ok then WithoutProperty(old(Model()), p) else old(Model())
    {
      var g := tables;
      if !g.propertyDegree.Contains(p) {
        return false;
      }
      var users := g.propertyCSMs[p];
      var start := StripState(g.csmInputs, g.csmOutputs, g.csmOutputDegree);
      StripUsersReady(g.Contents(), p, start);
      var t := StripUsers(p, users, start);
      StrippedWithoutProperty(g.Contents(), p, start, t);
      tables := g.(propertyDegree := g.propertyDegree.Erase(p), propertyCSMs := g.propertyCSMs - {p},
                   csmInputs := t.inputs, csmOutputs := t.outputs, csmOutputDegree := t.outputDegree);
      return true;
    }

    /**
     * Removes a live constraint: its methods leave every table, and each
     * property they mentioned loses one degree, once for the constraint
     * however many of its methods mention it. Removing a constraint that is
     * not live is an error (`false`) and changes nothing.
     */
    method RemoveConstraint(c: nat) returns (ok: bool)
      requires Valid()
      modifies this
      ensures Valid()
      ensures ok <==> c in old(Model()).constraints
      ensures Model() == if ok then WithoutConstraint(old(Model()), c) else old(Model())
    {
      var g := tables;
      if c !in g.constraintIds {
        return false;
      }
      ghost var s := g.Contents();
      var csmIds := g.csmConstraint.Keys(c);
      assert csmIds == MethodsOf(s, c);
      DroppedNone(s.users);
      var t := DetachMethods(csmIds, DetachState(g.propertyCSMs, g.csmInputs, g.csmOutputs, g.csmConstraint,
                                                 g.csmOutputDegree, {}), s);
      LinkedReady(s, c);
      var degree := LowerDegrees(g.propertyDegree, t.removed);
      DetachedWithoutConstraint(s, c, t, degree.keyToValue);
      tables := Tables(g.constraintIds - {c}, degree, t.outputDegree, t.owner, t.users, t.inputs, t.outputs);
      return true;
    }

    /**
     * Copies constraint `c` with its methods from `other`: the methods come
     * over with their output degrees and their inputs and outputs, the
     * properties they mention are created with degree 0 where missing, and
     * every property linked to the copied constraint gains one degree.
     * When `c` or one of its methods is already here the copy is refused:
     * `ok` is false and the graph is left as it was. This stands in for the
     * exception of the original, which in the second case is raised only
     * after `c` and the methods visited before the clash have been entered.
     */
    method CopyConstraintFrom(other: ConstraintGraph, c: nat) returns (ok: bool)
      requires Valid() && other.Valid()
      modifies this
      ensures Valid()
      ensures ok <==> c !in old(Model()).constraints && MethodsOf(old(other.Model()), c) !! old(Model()).owner.Keys
      ensures Model() == if ok then WithConstraint(old(Model()), old(other.Model()), c) else old(Model())
    {
      var g := tables;
      var h := other.tables;
      if c in g.constraintIds {
        return false;
      }
      ghost var s := g.Contents();
      ghost var o := h.Contents();
      var csmIds := h.csmConstraint.Keys(c);
      assert csmIds == MethodsOf(o, c);
      if csmIds * g.csmConstraint.keyToValue.Keys != {} {
        return false;
      }
      var start := CopyState(g.csmConstraint, g.csmOutputDegree, g.csmInputs, g.csmOutputs,
                             g.propertyCSMs, g.propertyDegree, {});
      CopyingNone(s, o, c, start);
      var t := CopyMethods(c, csmIds, start, h, s);
      var degree := RaiseDegrees(t.degree, t.added);
      CopiedWithConstraint(s, o, c, t, degree.keyToValue);
      tables := Tables(g.constraintIds + {c}, degree, t.outputDegree, t.owner, t.users, t.inputs, t.outputs);
      return true;
    }
  }
}
