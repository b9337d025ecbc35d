/**
 * The combined solver: a list of slave planners whose applicability is
 * combined three ways, and which are tried in two passes. The first pass
 * tries every applicable slave at once, in list order, and defers the
 * slaves that may be applicable; an applicable slave that finds no plan is
 * deferred as well. The second pass tries the deferred slaves in order.
 */
module Combined {
  import opened Tasks
  import QuickPlan
  import MaximumMatching

  /** The planners a combined solver can hold. */
  datatype Planner = QuickPlanPlanner | MaximumMatchingPlanner

  /** The default solver's slaves: quick-plan first, then maximum matching. */
  const DefaultSlaves: seq<Planner> := [QuickPlanPlanner, MaximumMatchingPlanner]

  /** A planner's applicability verdict on a task. */
  function PlannerVerdict(p: Planner, task: Task): Result<Applicability> {
    match p
    case QuickPlanPlanner => QuickPlan.Verdict(task)
    case MaximumMatchingPlanner => MaximumMatching.Verdict(task, task.csms)
  }

  /** The verdict of each slave, in list order. */
  function Verdicts(slaves: seq<Planner>, task: Task): (vs: seq<Result<Applicability>>)
    ensures |vs| == |slaves| && forall k :: 0 <= k < |slaves| ==> vs[k] == PlannerVerdict(slaves[k], task)
  {
    seq(|slaves|, k requires 0 <= k < |slaves| => PlannerVerdict(slaves[k], task))
  }

  /** The results a planner's `TrySolve` may give, as its own contract states them. */
  ghost predicate Allowed(p: Planner, task: Task, r: Result<Option<Solution>>) {
    var v := PlannerVerdict(p, task);
    && (v.Err? ==> r == Err(v.error))
    && (v == Ok(NotApplicable) ==> r == Ok(None))
    && match p
       case QuickPlanPlanner =>
         v == Ok(Applicable) ==> r.Ok? && r.value.Some? && QuickPlan.QuickPlanned(task, r.value.value.csmIds)
       case MaximumMatchingPlanner =>
         v == Ok(MaybeApplicable) ==> r.Ok? && exists m :: MaximumMatching.Outcome(task, m, r.value)
  }

  method PlannerApplicability(p: Planner, task: Task) returns (r: Result<Applicability>)
    ensures r == PlannerVerdict(p, task)
  {
    match p
    case QuickPlanPlanner => r := QuickPlan.IsApplicable(task);
    case MaximumMatchingPlanner => r := MaximumMatching.IsApplicable(task);
  }

  method PlannerTrySolve(p: Planner, task: Task) returns (r: Result<Option<Solution>>)
    ensures Allowed(p, task, r)
  {
    match p
    case QuickPlanPlanner => r := QuickPlan.TrySolve(task);
    case MaximumMatchingPlanner => r := MaximumMatching.TrySolve(task);
  }

  // Applicability.

  /**
   * The combined verdict over the slaves' verdicts from `k` on: the first
   * usage error or "applicable" decides; otherwise "maybe applicable" when
   * some slave may be (`unknown` recording one seen before `k`), else "not
   * applicable".
   */
  function VerdictFrom(vs: seq<Result<Applicability>>, k: nat, unknown: bool): Result<Applicability>
    requires k <= |vs|
    decreases |vs| - k
  {
    if k == |vs| then Ok(if unknown then MaybeApplicable else NotApplicable)
    else match vs[k]
      case Err(e) => Err(e)
      case Ok(Applicable) => Ok(Applicable)
      case Ok(NotApplicable) => VerdictFrom(vs, k + 1, unknown)
      case Ok(MaybeApplicable) => VerdictFrom(vs, k + 1, true)
  }

  function CombinedVerdict(vs: seq<Result<Applicability>>): Result<Applicability> {
    VerdictFrom(vs, 0, false)
  }

  /** The combined applicability check, asking each slave in list order. */
  method IsApplicable(slaves: seq<Planner>, task: Task) returns (r: Result<Applicability>)
    ensures r == CombinedVerdict(Verdicts(slaves, task))
  {
    ghost var vs := Verdicts(slaves, task);
    var unknownEncountered := false;
    for k := 0 to |slaves|
      invariant CombinedVerdict(vs) == VerdictFrom(vs, k, unknownEncountered)
    {
      var v := PlannerApplicability(slaves[k], task);
      if v.Err? {
        return Err(v.error);
      }
      match v.value
      case NotApplicable =>
      case Applicable =>
        return Ok(Applicable);
      case MaybeApplicable =>
        unknownEncountered := true;
    }
    return Ok(if unknownEncountered then MaybeApplicable else NotApplicable);
  }

  /**
   * Without usage errors from `k` on, the combined verdict is "applicable"
   * exactly when some slave is, "maybe applicable" exactly when none is but
   * one may be (or `unknown`), and "not applicable" exactly when every slave
   * is not (and not `unknown`).
   */
  lemma {:induction false} VerdictFromMeaning(vs: seq<Result<Applicability>>, k: nat, unknown: bool)
    requires k <= |vs| && forall j :: k <= j < |vs| ==> vs[j].Ok?
    ensures VerdictFrom(vs, k, unknown) == Ok(Applicable) <==> exists j :: k <= j < |vs| && vs[j] == Ok(Applicable)
    ensures VerdictFrom(vs, k, unknown) == Ok(MaybeApplicable) <==>
      (forall j :: k <= j < |vs| ==> vs[j] != Ok(Applicable)) &&
      (unknown || exists j :: k <= j < |vs| && vs[j] == Ok(MaybeApplicable))
    ensures VerdictFrom(vs, k, unknown) == Ok(NotApplicable) <==>
      !unknown && forall j :: k <= j < |vs| ==> vs[j] == Ok(NotApplicable)
    decreases |vs| - k
  {
    if k < |vs| {
      VerdictFromMeaning(vs, k + 1, unknown || vs[k] == Ok(MaybeApplicable));
      if vs[k] == Ok(Applicable) {
        assert vs[k] != Ok(NotApplicable);
      }
    }
  }

  /**
   * A usage error is reported by some slave, every slave before it being
   * not applicable or maybe applicable.
   */
  lemma {:induction false} VerdictFromError(vs: seq<Result<Applicability>>, k: nat, unknown: bool)
    requires k <= |vs| && VerdictFrom(vs, k, unknown).Err?
    ensures exists j :: k <= j < |vs| && vs[j] == VerdictFrom(vs, k, unknown) &&
                        forall i :: k <= i < j ==> vs[i].Ok? && vs[i] != Ok(Applicable)
    decreases |vs| - k
  {
    if vs[k].Ok? {
      var next := unknown || vs[k] == Ok(MaybeApplicable);
      VerdictFromError(vs, k + 1, next);
      var j :| k + 1 <= j < |vs| && vs[j] == VerdictFrom(vs, k + 1, next) &&
        forall i :: k + 1 <= i < j ==> vs[i].Ok? && vs[i] != Ok(Applicable);
      assert forall i :: k <= i < j ==> vs[i].Ok? && vs[i] != Ok(Applicable);
    }
  }

  /** Conversely, a slave's usage error is reported when no slave before it is applicable or in error. */
  lemma {:induction false} VerdictFromReachesError(vs: seq<Result<Applicability>>, k: nat, unknown: bool, j: nat)
    requires k <= j < |vs| && vs[j].Err?
    requires forall i :: k <= i < j ==> vs[i].Ok? && vs[i] != Ok(Applicable)
    ensures VerdictFrom(vs, k, unknown) == vs[j]
    decreases j - k
  {
    if k < j {
      VerdictFromReachesError(vs, k + 1, unknown || vs[k] == Ok(MaybeApplicable), j);
    }
  }

  /** A combined solver without slaves is not applicable. */
  lemma NoSlavesNotApplicable(task: Task)
    ensures CombinedVerdict(Verdicts([], task)) == Ok(NotApplicable)
  {
  }

  /**
   * The default solver is applicable exactly when quick-plan is; when
   * quick-plan is not, maximum matching decides (it never says
   * "applicable"); a usage error is reported by quick-plan first.
   */
  lemma DefaultVerdict(task: Task)
    ensures var qp := QuickPlan.Verdict(task);
      CombinedVerdict(Verdicts(DefaultSlaves, task)) ==
        if qp == Ok(NotApplicable) then MaximumMatching.Verdict(task, task.csms) else qp
  {
    var vs := Verdicts(DefaultSlaves, task);
    QuickPlan.VerdictIsDefinite(task);
    MaximumMatching.NeverApplicable(task, task.csms);
    assert vs[0] == QuickPlan.Verdict(task) && vs[1] == MaximumMatching.Verdict(task, task.csms);
    if vs[0] == Ok(NotApplicable) {
      assert CombinedVerdict(vs) == VerdictFrom(vs, 1, false);
      if vs[1].Ok? {
        assert VerdictFrom(vs, 1, false) == VerdictFrom(vs, 2, vs[1] == Ok(MaybeApplicable));
      }
    }
  }

  // Solving.

  /** What a run of the combined `TrySolve` gave, and which slaves it asked to solve, in order. */
  datatype Run = Run(result: Result<Option<Solution>>, calls: seq<nat>)

  /** The answer to the `j`-th solve call, in a given sequence of answers. */
  function Answer(answers: seq<Result<Option<Solution>>>, j: nat): Result<Option<Solution>> {
    if j < |answers| then answers[j] else Ok(None)
  }

  /**
   * The first pass from slave `k` on, given the slaves' verdicts and the
   * answers their solve calls give in call order: a usage error stops the
   * run; a slave that is not applicable is skipped; an applicable slave is
   * asked to solve, its plan or error ending the run, and is deferred when
   * it finds no plan; a slave that may be applicable is deferred.
   */
  function FirstPass(vs: seq<Result<Applicability>>, answers: seq<Result<Option<Solution>>>, k: nat,
                     deferred: seq<nat>, calls: seq<nat>): Run
    requires k <= |vs|
    decreases |vs| - k
  {
    if k == |vs| then SecondPass(answers, deferred, calls)
    else match vs[k]
      case Err(e) => Run(Err(e), calls)
      case Ok(NotApplicable) => FirstPass(vs, answers, k + 1, deferred, calls)
      case Ok(MaybeApplicable) => FirstPass(vs, answers, k + 1, deferred + [k], calls)
      case Ok(Applicable) =>
        var a := Answer(answers, |calls|);
        if a.Err? || a.value.Some? then Run(a, calls + [k])
        else FirstPass(vs, answers, k + 1, deferred + [k], calls + [k])
  }

  /** The second pass: the deferred slaves are asked in order, until one answers with a plan or an error. */
  function SecondPass(answers: seq<Result<Option<Solution>>>, deferred: seq<nat>, calls: seq<nat>): Run
    decreases |deferred|
  {
    if deferred == [] then Run(Ok(None), calls)
    else
      var a := Answer(answers, |calls|);
      if a.Err? || a.value.Some? then Run(a, calls + [deferred[0]])
      else SecondPass(answers, deferred[1..], calls + [deferred[0]])
  }

  function Combine(vs: seq<Result<Applicability>>, answers: seq<Result<Option<Solution>>>): Run {
    FirstPass(vs, answers, 0, [], [])
  }

  /**
   * `r` is what the combined solver gives when its slaves answer its solve
   * calls with `answers`, each answer one the asked slave may give.
   */
  ghost predicate Explains(slaves: seq<Planner>, task: Task, answers: seq<Result<Option<Solution>>>,
                           r: Result<Option<Solution>>) {
    var run := Combine(Verdicts(slaves, task), answers);
    && run.result == r && |run.calls| == |answers|
    && forall j :: 0 <= j < |answers| ==> run.calls[j] < |slaves| && Allowed(slaves[run.calls[j]], task, answers[j])
  }

  /** `all` starts with `answers`. */
  ghost predicate Extends(all: seq<Result<Option<Solution>>>, answers: seq<Result<Option<Solution>>>) {
    |answers| <= |all| && all[..|answers|] == answers
  }

  /** Whatever answers follow `answers`, the run goes on as the first pass from slave `k`. */
  ghost predicate InFirstPass(vs: seq<Result<Applicability>>, answers: seq<Result<Option<Solution>>>, k: nat,
                              deferred: seq<nat>, calls: seq<nat>)
    requires k <= |vs|
  {
    forall all :: Extends(all, answers) ==> Combine(vs, all) == FirstPass(vs, all, k, deferred, calls)
  }

  /** Whatever answers follow `answers`, the run goes on as the second pass over `deferred`. */
  ghost predicate InSecondPass(vs: seq<Result<Applicability>>, answers: seq<Result<Option<Solution>>>,
                               deferred: seq<nat>, calls: seq<nat>) {
    forall all :: Extends(all, answers) ==> Combine(vs, all) == SecondPass(all, deferred, calls)
  }

  /**
   * The combined solver: asks each slave whether it is applicable, tries
   * the applicable ones at once and defers the rest of the hopeful ones,
   * then tries the deferred ones in order.
   */
  method TrySolve(slaves: seq<Planner>, task: Task) returns (r: Result<Option<Solution>>)
    ensures exists answers :: Explains(slaves, task, answers, r)
  {
    ghost var vs := Verdicts(slaves, task);
    ghost var answers: seq<Result<Option<Solution>>> := [];
    ghost var calls: seq<nat> := [];
    var deferred: seq<nat> := [];
    for k := 0 to |slaves|
      invariant |calls| == |answers| && forall d :: d in deferred ==> d < |slaves|
      invariant forall j :: 0 <= j < |answers| ==> calls[j] < |slaves| && Allowed(slaves[calls[j]], task, answers[j])
      invariant InFirstPass(vs, answers, k, deferred, calls)
    {
      var stop;
      stop, r, deferred, answers, calls := FirstPassStep(slaves, task, k, deferred, answers, calls);
      if stop {
        return;
      }
    }
    EndOfFirstPass(vs, answers, deferred, calls);
    r, answers := TryDeferred(slaves, task, deferred, answers, calls);
  }

  /**
   * The first pass at slave `k`: an error from its verdict stops the run; a
   * slave that is not applicable is skipped; an applicable one is asked, and
   * its plan or error stops the run; one that may be applicable is deferred,
   * and so is an applicable one that has no plan.
   */
  method FirstPassStep(slaves: seq<Planner>, task: Task, k: nat, deferred: seq<nat>,
                       ghost answers: seq<Result<Option<Solution>>>, ghost calls: seq<nat>)
    returns (stop: bool, r: Result<Option<Solution>>, deferred': seq<nat>,
             ghost answers': seq<Result<Option<Solution>>>, ghost calls': seq<nat>)
    requires k < |slaves| && |calls| == |answers| && forall d :: d in deferred ==> d < |slaves|
    requires forall j :: 0 <= j < |answers| ==> calls[j] < |slaves| && Allowed(slaves[calls[j]], task, answers[j])
    requires InFirstPass(Verdicts(slaves, task), answers, k, deferred, calls)
    ensures stop ==> Explains(slaves, task, answers', r)
    ensures |calls'| == |answers'| && forall d :: d in deferred' ==> d < |slaves|
    ensures forall j :: 0 <= j < |answers'| ==> calls'[j] < |slaves| && Allowed(slaves[calls'[j]], task, answers'[j])
    ensures !stop ==> InFirstPass(Verdicts(slaves, task), answers', k + 1, deferred', calls')
  {
    ghost var vs := Verdicts(slaves, task);
    stop, r, deferred', answers', calls' := false, Ok(None), deferred, answers, calls;
    var v := PlannerApplicability(slaves[k], task);
    if v.Err? {
      Stops(vs, answers, k, deferred, calls);
      return true, Err(v.error), deferred, answers, calls;
    }
    if v.value == NotApplicable {
      return;
    }
    if v.value == Applicable {
      var a := PlannerTrySolve(slaves[k], task);
      FirstPassAsks(vs, answers, a, k, deferred, calls);
      answers' := answers + [a];
      calls' := calls + [k];
      if a.Err? || a.value.Some? {
        return true, a, deferred, answers', calls';
      }
    } else {
      FirstPassDefers(vs, answers, k, deferred, calls);
    }
    deferred' := deferred + [k];
  }

  /** The second pass: tries the deferred slaves in order, returning the first plan or error. */
  method TryDeferred(slaves: seq<Planner>, task: Task, deferred: seq<nat>,
                     ghost answers0: seq<Result<Option<Solution>>>, ghost calls0: seq<nat>)
    returns (r: Result<Option<Solution>>, ghost answers: seq<Result<Option<Solution>>>)
    requires forall d :: d in deferred ==> d < |slaves|
    requires |calls0| == |answers0|
    requires forall j :: 0 <= j < |answers0| ==> calls0[j] < |slaves| && Allowed(slaves[calls0[j]], task, answers0[j])
    requires InSecondPass(Verdicts(slaves, task), answers0, deferred, calls0)
    ensures Explains(slaves, task, answers, r)
  {
    ghost var vs := Verdicts(slaves, task);
    answers := answers0;
    ghost var calls: seq<nat> := calls0;
    assert deferred[0..] == deferred;
    for i := 0 to |deferred|
      invariant |calls| == |answers|
      invariant forall j :: 0 <= j < |answers| ==> calls[j] < |slaves| && Allowed(slaves[calls[j]], task, answers[j])
      invariant InSecondPass(vs, answers, deferred[i..], calls)
    {
      assert deferred[i] in deferred;
      var a := PlannerTrySolve(slaves[deferred[i]], task);
      SecondPassAsks(vs, answers, a, deferred[i..], calls);
      assert deferred[i..][1..] == deferred[i + 1..];
      answers := answers + [a];
      calls := calls + [deferred[i]];
      if a.Err? || a.value.Some? {
        assert Explains(slaves, task, answers, a);
        return a, answers;
      }
    }
    Finished(vs, answers, calls);
    assert Explains(slaves, task, answers, Ok(None));
    return Ok(None), answers;
  }

  // What a run does.

  /** A slave that is applicable or maybe applicable: the only kind ever asked to solve. */
  predicate Hopeful(v: Result<Applicability>) {
    v == Ok(Applicable) || v == Ok(MaybeApplicable)
  }

  /** The applicable slaves from `k` on, in list order. */
  function ApplicableFrom(vs: seq<Result<Applicability>>, k: nat): seq<nat>
    requires k <= |vs|
    decreases |vs| - k
  {
    if k == |vs| then [] else (if vs[k] == Ok(Applicable) then [k] else []) + ApplicableFrom(vs, k + 1)
  }

  /** The hopeful slaves from `k` on, in list order. */
  function HopefulFrom(vs: seq<Result<Applicability>>, k: nat): seq<nat>
    requires k <= |vs|
    decreases |vs| - k
  {
    if k == |vs| then [] else (if Hopeful(vs[k]) then [k] else []) + HopefulFrom(vs, k + 1)
  }

  /** `ApplicableFrom` lists exactly the applicable slaves from `k` on, in ascending order. */
  lemma {:induction false} ApplicableFromMeaning(vs: seq<Result<Applicability>>, k: nat)
    requires k <= |vs|
    ensures var r := ApplicableFrom(vs, k);
      && (forall j :: j in r <==> k <= j < |vs| && vs[j] == Ok(Applicable))
      && (forall a, b :: 0 <= a < b < |r| ==> r[a] < r[b])
    decreases |vs| - k
  {
    if k < |vs| {
      ApplicableFromMeaning(vs, k + 1);
      var rest := ApplicableFrom(vs, k + 1);
      assert forall i :: 0 <= i < |rest| ==> k < rest[i] by {
        forall i | 0 <= i < |rest|
          ensures k < rest[i]
        {
          assert rest[i] in rest;
        }
      }
    }
  }

  /** `HopefulFrom` lists exactly the hopeful slaves from `k` on, in ascending order. */
  lemma {:induction false} HopefulFromMeaning(vs: seq<Result<Applicability>>, k: nat)
    requires k <= |vs|
    ensures var r := HopefulFrom(vs, k);
      && (forall j :: j in r <==> k <= j < |vs| && Hopeful(vs[j]))
      && (forall a, b :: 0 <= a < b < |r| ==> r[a] < r[b])
    decreases |vs| - k
  {
    if k < |vs| {
      HopefulFromMeaning(vs, k + 1);
      var rest := HopefulFrom(vs, k + 1);
      assert forall i :: 0 <= i < |rest| ==> k < rest[i] by {
        forall i | 0 <= i < |rest|
          ensures k < rest[i]
        {
          assert rest[i] in rest;
        }
      }
    }
  }

  /**
   * The order in which a run without usage errors asks the slaves: every
   * applicable slave, then every hopeful one (the deferred ones and the
   * applicable ones that found no plan, in list order).
   */
  function CallOrder(vs: seq<Result<Applicability>>): seq<nat> {
    ApplicableFrom(vs, 0) + HopefulFrom(vs, 0)
  }

  /**
   * The first pass without usage errors is the second pass over the
   * applicable slaves from `k` on, then the deferred ones, then the
   * hopeful ones from `k` on.
   */
  lemma {:induction false} FirstPassInOrder(vs: seq<Result<Applicability>>, answers: seq<Result<Option<Solution>>>,
                                            k: nat, deferred: seq<nat>, calls: seq<nat>)
    requires k <= |vs| && forall j :: k <= j < |vs| ==> vs[j].Ok?
    ensures FirstPass(vs, answers, k, deferred, calls) ==
      SecondPass(answers, ApplicableFrom(vs, k) + (deferred + HopefulFrom(vs, k)), calls)
    decreases |vs| - k
  {
    if k == |vs| {
      assert ApplicableFrom(vs, k) + (deferred + HopefulFrom(vs, k)) == deferred;
    } else if vs[k] == Ok(NotApplicable) {
      FirstPassInOrder(vs, answers, k + 1, deferred, calls);
      OrderSkips(vs, k, deferred);
    } else if vs[k] == Ok(MaybeApplicable) {
      FirstPassInOrder(vs, answers, k + 1, deferred + [k], calls);
      OrderDefers(vs, k, deferred);
    } else {
      assert vs[k].Ok? && vs[k].value == Applicable;
      FirstPassInOrder(vs, answers, k + 1, deferred + [k], calls + [k]);
      OrderAsks(vs, k, deferred);
    }
  }

  /** The order from a slave not applicable is the order from the next one. */
  lemma OrderSkips(vs: seq<Result<Applicability>>, k: nat, deferred: seq<nat>)
    requires k < |vs| && vs[k] == Ok(NotApplicable)
    ensures ApplicableFrom(vs, k) + (deferred + HopefulFrom(vs, k)) ==
            ApplicableFrom(vs, k + 1) + (deferred + HopefulFrom(vs, k + 1))
  {
    assert ApplicableFrom(vs, k) == ApplicableFrom(vs, k + 1);
    assert HopefulFrom(vs, k) == HopefulFrom(vs, k + 1);
  }

  /** The order from a slave that may be applicable defers it. */
  lemma OrderDefers(vs: seq<Result<Applicability>>, k: nat, deferred: seq<nat>)
    requires k < |vs| && vs[k] == Ok(MaybeApplicable)
    ensures ApplicableFrom(vs, k) + (deferred + HopefulFrom(vs, k)) ==
            ApplicableFrom(vs, k + 1) + ((deferred + [k]) + HopefulFrom(vs, k + 1))
  {
    assert ApplicableFrom(vs, k) == ApplicableFrom(vs, k + 1);
    assert HopefulFrom(vs, k) == [k] + HopefulFrom(vs, k + 1);
  }

  /** The order from an applicable slave asks it, then defers it. */
  lemma OrderAsks(vs: seq<Result<Applicability>>, k: nat, deferred: seq<nat>)
    requires k < |vs| && vs[k] == Ok(Applicable)
    ensures var order := ApplicableFrom(vs, k) + (deferred + HopefulFrom(vs, k));
      order != [] && order[0] == k &&
      order[1..] == ApplicableFrom(vs, k + 1) + ((deferred + [k]) + HopefulFrom(vs, k + 1))
  {
    assert ApplicableFrom(vs, k) == [k] + ApplicableFrom(vs, k + 1);
    assert HopefulFrom(vs, k) == [k] + HopefulFrom(vs, k + 1);
    AskThenDefer(k, ApplicableFrom(vs, k + 1), deferred, HopefulFrom(vs, k + 1));
  }

  /** Asking `k` first and then deferring it leaves the rest of the order as it was. */
  lemma AskThenDefer(k: nat, applicable: seq<nat>, deferred: seq<nat>, hopeful: seq<nat>)
    ensures var order := ([k] + applicable) + (deferred + ([k] + hopeful));
      order != [] && order[0] == k && order[1..] == applicable + ((deferred + [k]) + hopeful)
  {
    var order := ([k] + applicable) + (deferred + ([k] + hopeful));
    assert order == [k] + (applicable + ((deferred + [k]) + hopeful));
  }

  /**
   * Without usage errors, a run asks the applicable slaves in list order,
   * then every hopeful slave in list order — so an applicable slave that
   * found no plan is asked again, and a slave that may be applicable is
   * asked only after every applicable one — stopping at the first answer
   * that is a plan or an error.
   */
  lemma CombineInOrder(vs: seq<Result<Applicability>>, answers: seq<Result<Option<Solution>>>)
    requires forall j :: 0 <= j < |vs| ==> vs[j].Ok?
    ensures Combine(vs, answers) == SecondPass(answers, CallOrder(vs), [])
  {
    FirstPassInOrder(vs, answers, 0, [], []);
    assert [] + HopefulFrom(vs, 0) == HopefulFrom(vs, 0);
  }

  /**
   * The second pass asks the slaves of `order` in turn: every slave asked
   * but the last found no plan; the run ends without a plan exactly when
   * all of them were asked and none found one, and otherwise with the
   * last answer.
   */
  lemma {:induction false} SecondPassMeaning(answers: seq<Result<Option<Solution>>>, order: seq<nat>, calls: seq<nat>)
    ensures var run := SecondPass(answers, order, calls);
      && |calls| <= |run.calls| <= |calls| + |order|
      && run.calls == calls + order[..|run.calls| - |calls|]
      && (forall j :: |calls| <= j < |run.calls| - 1 ==> Answer(answers, j) == Ok(None))
      && (run.result == Ok(None) <==>
            (|run.calls| == |calls| + |order| && forall j :: |calls| <= j < |run.calls| ==> Answer(answers, j) == Ok(None)))
      && (run.result != Ok(None) ==> |calls| < |run.calls| && run.result == Answer(answers, |run.calls| - 1))
    decreases |order|
  {
    if order != [] {
      var a := Answer(answers, |calls|);
      if !(a.Err? || a.value.Some?) {
        SecondPassMeaning(answers, order[1..], calls + [order[0]]);
        var run := SecondPass(answers, order, calls);
        assert run.calls == calls + order[..|run.calls| - |calls|] by {
          var n := |run.calls| - |calls| - 1;
          assert order[1..][..n] == order[1..n + 1];
          assert [order[0]] + order[1..n + 1] == order[..n + 1];
        }
      } else {
        assert order[..1] == [order[0]];
      }
    }
  }

  /**
   * Whatever the verdicts, a run only asks hopeful slaves, keeps the calls
   * made so far, and a plan it ends with is the answer to its last call.
   */
  lemma {:induction false} FirstPassAnswer(vs: seq<Result<Applicability>>, answers: seq<Result<Option<Solution>>>,
                                           k: nat, deferred: seq<nat>, calls: seq<nat>)
    requires k <= |vs| && forall d :: d in deferred ==> d < |vs| && Hopeful(vs[d])
    ensures var run := FirstPass(vs, answers, k, deferred, calls);
      && |calls| <= |run.calls| && run.calls[..|calls|] == calls
      && (forall i :: |calls| <= i < |run.calls| ==> run.calls[i] < |vs| && Hopeful(vs[run.calls[i]]))
      && (run.result.Ok? && run.result.value.Some? ==>
            |calls| < |run.calls| && run.result == Answer(answers, |run.calls| - 1))
    decreases |vs| - k
  {
    if k == |vs| {
      SecondPassMeaning(answers, deferred, calls);
      var run := SecondPass(answers, deferred, calls);
      assert forall i :: |calls| <= i < |run.calls| ==> run.calls[i] in deferred by {
        forall i | |calls| <= i < |run.calls|
          ensures run.calls[i] in deferred
        {
          assert run.calls[i] == deferred[..|run.calls| - |calls|][i - |calls|];
        }
      }
    } else if vs[k] == Ok(NotApplicable) {
      FirstPassAnswer(vs, answers, k + 1, deferred, calls);
    } else if vs[k] == Ok(MaybeApplicable) {
      FirstPassAnswer(vs, answers, k + 1, deferred + [k], calls);
    } else if vs[k] == Ok(Applicable) {
      FirstPassAnswer(vs, answers, k + 1, deferred + [k], calls + [k]);
      var run := FirstPass(vs, answers, k, deferred, calls);
      assert run.calls[..|calls| + 1][..|calls|] == run.calls[..|calls|];
    }
  }

  /**
   * A usage error of slave `e`, no slave before it being in error, ends
   * the run in the first pass: only applicable slaves before `e` are
   * asked, and the run never ends without a plan or an error.
   */
  lemma {:induction false} FirstPassStopsAtError(vs: seq<Result<Applicability>>, answers: seq<Result<Option<Solution>>>,
                                                 k: nat, deferred: seq<nat>, calls: seq<nat>, e: nat)
    requires k <= e < |vs| && vs[e].Err? && forall j :: k <= j < e ==> vs[j].Ok?
    ensures var run := FirstPass(vs, answers, k, deferred, calls);
      && run.result != Ok(None)
      && |calls| <= |run.calls| && run.calls[..|calls|] == calls
      && forall i :: |calls| <= i < |run.calls| ==> k <= run.calls[i] < e && vs[run.calls[i]] == Ok(Applicable)
    decreases e - k
  {
    if k < e {
      var next := if vs[k] == Ok(NotApplicable) then deferred else deferred + [k];
      var nextCalls := if vs[k] == Ok(Applicable) then calls + [k] else calls;
      FirstPassStopsAtError(vs, answers, k + 1, next, nextCalls, e);
      if vs[k] == Ok(Applicable) {
        var run := FirstPass(vs, answers, k, deferred, calls);
        assert run.calls[..|calls| + 1][..|calls|] == run.calls[..|calls|];
      }
    }
  }

  // What the combined solver gives.

  /** A combined solver without slaves gives no plan, asking nobody. */
  lemma NoSlavesNoPlan(task: Task, answers: seq<Result<Option<Solution>>>, r: Result<Option<Solution>>)
    requires Explains([], task, answers, r)
    ensures r == Ok(None) && answers == []
  {
    assert Combine(Verdicts([], task), answers) == Run(Ok(None), []);
  }

  /**
   * A solution the combined solver returns is the answer of the slave it
   * asked last, and one that slave's `TrySolve` may give.
   */
  lemma SolutionFromSlave(slaves: seq<Planner>, task: Task, answers: seq<Result<Option<Solution>>>,
                          r: Result<Option<Solution>>)
    requires Explains(slaves, task, answers, r) && r.Ok? && r.value.Some?
    ensures |answers| > 0 && r == answers[|answers| - 1]
    ensures Allowed(slaves[Combine(Verdicts(slaves, task), answers).calls[|answers| - 1]], task, r)
  {
    FirstPassAnswer(Verdicts(slaves, task), answers, 0, [], []);
  }

  /** A slave that is not applicable is never asked to solve. */
  lemma NeverAsksNotApplicable(slaves: seq<Planner>, task: Task, answers: seq<Result<Option<Solution>>>,
                               r: Result<Option<Solution>>)
    requires Explains(slaves, task, answers, r)
    ensures var run := Combine(Verdicts(slaves, task), answers);
      forall j :: 0 <= j < |run.calls| ==> PlannerVerdict(slaves[run.calls[j]], task) != Ok(NotApplicable)
  {
    FirstPassAnswer(Verdicts(slaves, task), answers, 0, [], []);
  }

  /**
   * With the default slaves, an applicable task is planned by quick-plan
   * alone: maximum matching is never asked.
   */
  lemma DefaultQuickPlanFirst(task: Task, answers: seq<Result<Option<Solution>>>, r: Result<Option<Solution>>)
    requires Explains(DefaultSlaves, task, answers, r) && QuickPlan.Verdict(task) == Ok(Applicable)
    ensures answers == [r] && r.Ok? && r.value.Some? && QuickPlan.QuickPlanned(task, r.value.value.csmIds)
  {
    var vs := Verdicts(DefaultSlaves, task);
    assert vs[0] == Ok(Applicable);
    assert [] + [0] == [0];
    var a := Answer(answers, 0);
    if !(a.Err? || a.value.Some?) {
      FirstPassAnswer(vs, answers, 1, [0], [0]);
    }
    assert Combine(vs, answers).calls[0] == 0;
    assert Allowed(QuickPlanPlanner, task, answers[0]);
    assert Combine(vs, answers) == Run(answers[0], [0]);
  }

  /**
   * With the default slaves, a task quick-plan does not accept is left to
   * maximum matching: only it is asked, and the result is one its
   * `TrySolve` may give.
   */
  lemma DefaultFallsBackToMatching(task: Task, answers: seq<Result<Option<Solution>>>, r: Result<Option<Solution>>)
    requires Explains(DefaultSlaves, task, answers, r) && QuickPlan.Verdict(task) == Ok(NotApplicable)
    ensures Allowed(MaximumMatchingPlanner, task, r)
  {
    var vs := Verdicts(DefaultSlaves, task);
    var mm := MaximumMatching.Verdict(task, task.csms);
    MaximumMatching.NeverApplicable(task, task.csms);
    assert vs[0] == Ok(NotApplicable) && vs[1] == mm;
    assert Combine(vs, answers) == FirstPass(vs, answers, 1, [], []);
    if mm == Ok(MaybeApplicable) {
      assert [] + [1] == [1];
      assert FirstPass(vs, answers, 1, [], []) == FirstPass(vs, answers, 2, [1], []);
      assert FirstPass(vs, answers, 2, [1], []) == SecondPass(answers, [1], []);
      assert Combine(vs, answers).calls == [1];
      assert r == answers[0];
      assert Allowed(DefaultSlaves[1], task, answers[0]);
    }
  }

  /** A sequence extends itself; extending `answers + [a]` is extending `answers` with `a` next. */
  lemma ExtendsFacts(all: seq<Result<Option<Solution>>>, answers: seq<Result<Option<Solution>>>,
                     a: Result<Option<Solution>>)
    ensures Extends(answers, answers)
    ensures Extends(all, answers + [a]) ==> Extends(all, answers) && Answer(all, |answers|) == a
  {
    assert answers[..|answers|] == answers;
    if Extends(all, answers + [a]) {
      assert all[..|answers|] == all[..|answers| + 1][..|answers|];
      assert all[|answers|] == all[..|answers| + 1][|answers|];
    }
  }

  /** A usage error from slave `k` ends the run. */
  lemma Stops(vs: seq<Result<Applicability>>, answers: seq<Result<Option<Solution>>>, k: nat,
              deferred: seq<nat>, calls: seq<nat>)
    requires k < |vs| && vs[k].Err? && InFirstPass(vs, answers, k, deferred, calls)
    ensures Combine(vs, answers) == Run(Err(vs[k].error), calls)
  {
    ExtendsFacts(answers, answers, Ok(None));
  }

  /** An applicable slave is asked, and its answer `a` is the next one. */
  lemma FirstPassAsks(vs: seq<Result<Applicability>>, answers: seq<Result<Option<Solution>>>,
                      a: Result<Option<Solution>>, k: nat, deferred: seq<nat>, calls: seq<nat>)
    requires k < |vs| && vs[k] == Ok(Applicable) && |calls| == |answers|
    requires InFirstPass(vs, answers, k, deferred, calls)
    ensures a.Err? || a.value.Some? ==> Combine(vs, answers + [a]) == Run(a, calls + [k])
    ensures a == Ok(None) ==> InFirstPass(vs, answers + [a], k + 1, deferred + [k], calls + [k])
  {
    forall all | Extends(all, answers + [a])
      ensures Combine(vs, all) == FirstPass(vs, all, k, deferred, calls) && Answer(all, |calls|) == a
    {
      ExtendsFacts(all, answers, a);
    }
    ExtendsFacts(answers + [a], answers + [a], a);
  }

  /** A slave that may be applicable is deferred without being asked. */
  lemma FirstPassDefers(vs: seq<Result<Applicability>>, answers: seq<Result<Option<Solution>>>, k: nat,
                        deferred: seq<nat>, calls: seq<nat>)
    requires k < |vs| && vs[k] == Ok(MaybeApplicable) && InFirstPass(vs, answers, k, deferred, calls)
    ensures InFirstPass(vs, answers, k + 1, deferred + [k], calls)
  {
  }

  /** After the last slave the first pass hands over to the second. */
  lemma EndOfFirstPass(vs: seq<Result<Applicability>>, answers: seq<Result<Option<Solution>>>,
                       deferred: seq<nat>, calls: seq<nat>)
    requires InFirstPass(vs, answers, |vs|, deferred, calls)
    ensures InSecondPass(vs, answers, deferred, calls)
  {
  }

  /** A deferred slave is asked in the second pass, its answer `a` being the next one. */
  lemma SecondPassAsks(vs: seq<Result<Applicability>>, answers: seq<Result<Option<Solution>>>,
                       a: Result<Option<Solution>>, deferred: seq<nat>, calls: seq<nat>)
    requires deferred != [] && |calls| == |answers| && InSecondPass(vs, answers, deferred, calls)
    ensures a.Err? || a.value.Some? ==> Combine(vs, answers + [a]) == Run(a, calls + [deferred[0]])
    ensures a == Ok(None) ==> InSecondPass(vs, answers + [a], deferred[1..], calls + [deferred[0]])
  {
    forall all | Extends(all, answers + [a])
      ensures Combine(vs, all) == SecondPass(all, deferred, calls) && Answer(all, |calls|) == a
    {
      ExtendsFacts(all, answers, a);
    }
    ExtendsFacts(answers + [a], answers + [a], a);
  }

  /** With no deferred slave left, the run ends without a plan. */
  lemma Finished(vs: seq<Result<Applicability>>, answers: seq<Result<Option<Solution>>>, calls: seq<nat>)
    requires InSecondPass(vs, answers, [], calls)
    ensures Combine(vs, answers) == Run(Ok(None), calls)
  {
    ExtendsFacts(answers, answers, Ok(None));
  }
}
