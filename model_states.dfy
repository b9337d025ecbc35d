/**
 * The observable state of a property model as a value: the freeze flag,
 * whether a callback is registered and how often it has fired, the write
 * clock and every property's last write stamp. Each operation of the model
 * class is specified by the function here that it performs, and the lemmas
 * relate several operations: the clock, freezing, and how many times the
 * callback fires.
 */
module ModelStates {
  import opened Sorting

  datatype ModelState = ModelState(frozen: bool, hasCallback: bool, callbacks: nat, time: nat, stamps: seq<nat>)

  /** A new model: not frozen, no callback, the clock at 0 and no properties. */
  function Initial(): ModelState {
    ModelState(false, false, 0, 0, [])
  }

  /** No stamp is ahead of the clock. */
  ghost predicate Valid(s: ModelState) {
    forall i :: 0 <= i < |s.stamps| ==> s.stamps[i] <= s.time
  }

  /** The callback fires, if one is registered. */
  function Callback(s: ModelState): ModelState {
    if s.hasCallback then s.(callbacks := s.callbacks + 1) else s
  }

  /** An update: nothing while frozen, otherwise one callback. */
  function Updated(s: ModelState): ModelState {
    if s.frozen then s else Callback(s)
  }

  function Frozen(s: ModelState): ModelState {
    s.(frozen := true)
  }

  /** Unfreezing clears the flag and runs one update. */
  function Unfrozen(s: ModelState): ModelState {
    Updated(s.(frozen := false))
  }

  /** A new property, stamped 0. */
  function WithProperty(s: ModelState): ModelState {
    s.(stamps := s.stamps + [0])
  }

  /** A write to property `id`: the clock advances, `id` takes the new time, then an update runs. */
  function Written(s: ModelState, id: nat): ModelState
    requires id < |s.stamps|
  {
    var t := s.time + 1;
    Updated(s.(time := t, stamps := s.stamps[id := t]))
  }

  /** What happens to a model between a freeze and its end. */
  datatype Event = NewProperty | PropertyWritten(id: nat) | ConstraintChanged

  predicate Possible(s: ModelState, e: Event) {
    e.PropertyWritten? ==> e.id < |s.stamps|
  }

  function Step(s: ModelState, e: Event): ModelState
    requires Possible(s, e)
  {
    match e
    case NewProperty => WithProperty(s)
    case PropertyWritten(id) => Written(s, id)
    case ConstraintChanged => Updated(s)
  }

  /** Every write in `es` names a property registered by then. */
  predicate Feasible(s: ModelState, es: seq<Event>)
    decreases |es|
  {
    es == [] || (Possible(s, es[0]) && Feasible(Step(s, es[0]), es[1..]))
  }

  function Run(s: ModelState, es: seq<Event>): ModelState
    requires Feasible(s, es)
    decreases |es|
  {
    if es == [] then s else Run(Step(s, es[0]), es[1..])
  }

  /** How many events of `es` notify the model: writes and constraint changes. */
  function Notices(es: seq<Event>): nat {
    if es == [] then 0 else (if es[0].NewProperty? then 0 else 1) + Notices(es[1..])
  }

  /** How many events of `es` are writes. */
  function Writes(es: seq<Event>): nat {
    if es == [] then 0 else (if es[0].PropertyWritten? then 1 else 0) + Writes(es[1..])
  }

  /**
   * A write advances the clock by one and gives the written property the
   * new time, strictly above every other stamp, which stays as it was.
   */
  lemma WrittenStamps(s: ModelState, id: nat)
    requires Valid(s) && id < |s.stamps|
    ensures var w := Written(s, id);
      && Valid(w) && w.time == s.time + 1 && |w.stamps| == |s.stamps| && w.stamps[id] == w.time
      && forall j :: 0 <= j < |s.stamps| && j != id ==> w.stamps[j] == s.stamps[j] < w.stamps[id]
  {
  }

  /**
   * A run keeps the clock ahead of every stamp, advances it once per write,
   * only adds properties, and leaves the freeze flag and the callback's
   * registration alone.
   */
  lemma {:induction false} RunClock(s: ModelState, es: seq<Event>)
    requires Valid(s) && Feasible(s, es)
    ensures var r := Run(s, es);
      && Valid(r) && r.time == s.time + Writes(es) && |s.stamps| <= |r.stamps|
      && r.frozen == s.frozen && r.hasCallback == s.hasCallback
    decreases |es|
  {
    if es != [] {
      RunClock(Step(s, es[0]), es[1..]);
    }
  }

  /** While frozen, nothing fires the callback, and the model stays frozen. */
  lemma {:induction false} FrozenRunSilent(s: ModelState, es: seq<Event>)
    requires s.frozen && Feasible(s, es)
    ensures Run(s, es).frozen && Run(s, es).callbacks == s.callbacks
    decreases |es|
  {
    if es != [] {
      FrozenRunSilent(Step(s, es[0]), es[1..]);
    }
  }

  /** While not frozen, every write and every constraint change fires the registered callback once. */
  lemma {:induction false} UnfrozenRunFires(s: ModelState, es: seq<Event>)
    requires !s.frozen && Feasible(s, es)
    ensures !Run(s, es).frozen
    ensures Run(s, es).callbacks == s.callbacks + if s.hasCallback then Notices(es) else 0
    decreases |es|
  {
    if es != [] {
      UnfrozenRunFires(Step(s, es[0]), es[1..]);
    }
  }

  /**
   * Whatever happens between a freeze and its end, the end leaves the
   * model unfrozen with the callback fired exactly once if one is
   * registered, and the clock advanced once per write.
   */
  lemma FreezeFiresOnce(s: ModelState, es: seq<Event>)
    requires Valid(s) && Feasible(Frozen(s), es)
    ensures var u := Unfrozen(Run(Frozen(s), es));
      && !u.frozen && u.time == s.time + Writes(es)
      && u.callbacks == s.callbacks + if s.hasCallback then 1 else 0
  {
    FrozenRunSilent(Frozen(s), es);
    RunClock(Frozen(s), es);
  }

  /**
   * A freeze nested inside another does not count: ending the inner one
   * unfreezes the model, so a write before the outer one ends fires the
   * callback.
   */
  lemma NestedFreezeEndsEarly(s: ModelState, id: nat)
    requires id < |s.stamps| && s.hasCallback
    ensures Written(Unfrozen(Frozen(Frozen(s))), id).callbacks == s.callbacks + 2
  {
  }

  /** The ids `0 .. n-1` in order. */
  function Ids(n: nat): (r: seq<nat>)
    ensures |r| == n && forall i :: 0 <= i < n ==> r[i] == i
  {
    seq(n, i requires 0 <= i < n => i)
  }

  /** Each stamp negated, so that sorting by it ascending sorts by stamp descending. */
  function Negated(stamps: seq<nat>): (r: seq<int>)
    ensures |r| == |stamps| && forall i :: 0 <= i < |stamps| ==> r[i] == -(stamps[i] as int)
  {
    seq(|stamps|, i requires 0 <= i < |stamps| => -(stamps[i] as int))
  }

  /** `order` lists every property id once, the most recently written first. */
  ghost predicate ByRecency(stamps: seq<nat>, order: seq<nat>) {
    && multiset(order) == multiset(Ids(|stamps|))
    && (forall i :: 0 <= i < |order| ==> order[i] < |stamps|)
    && forall i, j :: 0 <= i < j < |order| ==> stamps[order[i]] >= stamps[order[j]]
  }

  /** A property whose stamp is strictly the largest comes first in any order by recency. */
  lemma LatestFirst(stamps: seq<nat>, order: seq<nat>, id: nat)
    requires ByRecency(stamps, order) && id < |stamps|
    requires forall j :: 0 <= j < |stamps| && j != id ==> stamps[j] < stamps[id]
    ensures |order| == |stamps| && order[0] == id
  {
    assert |order| == |multiset(order)| == |Ids(|stamps|)|;
    assert Ids(|stamps|)[id] == id;
    assert id in multiset(order);
    var k :| 0 <= k < |order| && order[k] == id;
    if k != 0 {
      assert stamps[order[0]] >= stamps[order[k]];
    }
  }

  /** The property just written comes first in any order by recency. */
  lemma WrittenFirst(s: ModelState, id: nat, order: seq<nat>)
    requires Valid(s) && id < |s.stamps| && ByRecency(Written(s, id).stamps, order)
    ensures |order| == |s.stamps| && order[0] == id
  {
    WrittenStamps(s, id);
    LatestFirst(Written(s, id).stamps, order, id);
  }
}
