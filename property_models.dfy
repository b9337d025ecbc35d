/**
 * The objects a property model is made of: the model itself, which hands
 * out dense ids, keeps the write clock and the freeze flag, and fires its
 * callback on updates; the freeze guard; the constraints, with their
 * importance and enabled flag; and the properties, whose writes notify the
 * model. Every change of a model's observable state is specified by the
 * `ModelStates` function it performs.
 */
module PropertyModels {
  import opened Sorting
  import opened ModelStates

  /** How a method may access a property. */
  datatype Access = NoAccess | Read | Write | ReadWrite

  /** The accesses that allow reading. */
  function CanRead(a: Access): (r: bool)
    ensures r <==> a == Read || a == ReadWrite
    ensures a == NoAccess ==> !r
  {
    match a
    case NoAccess => false
    case Read => true
    case Write => false
    case ReadWrite => true
  }

  /** The accesses that allow writing. */
  function CanWrite(a: Access): (r: bool)
    ensures r <==> a == Write || a == ReadWrite
    ensures r && CanRead(a) <==> a == ReadWrite
  {
    match a
    case NoAccess => false
    case Read => false
    case Write => true
    case ReadWrite => true
  }

  /** A method of a constraint, as far as the model keeps it: the ids it reads and the ids it writes. */
  datatype ConstraintMethod = ConstraintMethod(inputIds: seq<nat>, outputIds: seq<nat>)

  /**
   * A property model. `callbacks` counts how often the registered callback
   * has run; what it does is not modelled. `lastOrder` is the order by
   * recency the last update computed.
   */
  class PropertyModel {
    var frozen: bool
    var hasCallback: bool
    var callbacks: nat
    var time: nat
    var propertySetTime: seq<nat>
    var constraints: seq<Constraint>
    ghost var lastOrder: seq<nat>

    ghost function State(): ModelState
      reads this
    {
      ModelState(frozen, hasCallback, callbacks, time, propertySetTime)
    }

    ghost predicate Valid()
      reads this
    {
      ModelStates.Valid(State())
    }

    /** A model without properties, constraints or callback, unfrozen, the clock at 0. */
    constructor ()
      ensures Valid() && State() == Initial() && constraints == []
    {
      frozen := false;
      hasCallback := false;
      callbacks := 0;
      time := 0;
      propertySetTime := [];
      constraints := [];
      lastOrder := [];
    }

    method RegisterCallback()
      modifies this
      ensures State() == old(State()).(hasCallback := true)
      ensures constraints == old(constraints) && lastOrder == old(lastOrder)
    {
      hasCallback := true;
    }

    method UnregisterCallback()
      modifies this
      ensures State() == old(State()).(hasCallback := false)
      ensures constraints == old(constraints) && lastOrder == old(lastOrder)
    {
      hasCallback := false;
    }

    /** Registers a property, stamped 0; its id is the number of properties before it. */
    method RegisterProperty() returns (id: nat)
      modifies this
      ensures id == |old(propertySetTime)| && id < |propertySetTime|
      ensures State() == WithProperty(old(State()))
      ensures constraints == old(constraints) && lastOrder == old(lastOrder)
    {
      propertySetTime := propertySetTime + [0];
      id := |propertySetTime| - 1;
    }

    /** Registers a constraint; its id is the number of constraints before it. */
    method RegisterConstraint(c: Constraint) returns (id: nat)
      modifies this
      ensures id == |old(constraints)| && constraints == old(constraints) + [c] && constraints[id] == c
      ensures State() == old(State()) && lastOrder == old(lastOrder)
    {
      constraints := constraints + [c];
      id := |constraints| - 1;
    }

    /** A write to property `id`: the clock advances, even while frozen, and stamps it; then an update. */
    method OnPropertySet(id: nat)
      requires id < |propertySetTime|
      modifies this
      ensures State() == Written(old(State()), id) && constraints == old(constraints)
    {
      time := time + 1;
      propertySetTime := propertySetTime[id := time];
      Update();
    }

    /** A change of constraint `id` runs an update; which constraint changed is not used. */
    method OnConstraintSet(id: nat)
      modifies this
      ensures State() == Updated(old(State())) && constraints == old(constraints)
    {
      Update();
    }

    /**
     * Nothing while frozen. Otherwise the property ids are ordered by
     * recency, with the model frozen meanwhile, and the callback fires.
     */
    method Update()
      modifies this
      ensures State() == Updated(old(State())) && constraints == old(constraints)
      ensures if old(frozen) then lastOrder == old(lastOrder) else ByRecency(propertySetTime, lastOrder)
    {
      if frozen {
        return;
      }
      frozen := true;
      var order := RecencyOrder();
      lastOrder := order;
      frozen := false;
      DoCallback();
    }

    /** The property ids, most recently written first; ties in any order. */
    method RecencyOrder() returns (order: seq<nat>)
      ensures ByRecency(propertySetTime, order)
    {
      var n := |propertySetTime|;
      var a := new nat[n](i requires 0 <= i < n => i);
      assert a[..] == Ids(n);
      var key := Negated(propertySetTime);
      SortByKey(a, key);
      order := a[..];
      assert forall i, j :: 0 <= i < j < |order| ==> key[order[i]] <= key[order[j]];
    }

    method DoFreeze()
      modifies this
      ensures State() == Frozen(old(State()))
      ensures constraints == old(constraints) && lastOrder == old(lastOrder)
    {
      frozen := true;
    }

    /** Clears the freeze flag, whatever froze the model, and runs one update. */
    method DoUnfreeze()
      modifies this
      ensures State() == Unfrozen(old(State())) && constraints == old(constraints)
    {
      frozen := false;
      Update();
    }

    /** Runs the callback if one is registered. */
    method DoCallback()
      modifies this
      ensures State() == Callback(old(State()))
      ensures constraints == old(constraints) && lastOrder == old(lastOrder)
    {
      if !hasCallback {
        return;
      }
      callbacks := callbacks + 1;
    }

    /** Freezes the model until the returned guard ends. */
    method Freeze() returns (g: FreezeGuard)
      modifies this
      ensures fresh(g) && g.base == this
      ensures State() == Frozen(old(State()))
      ensures constraints == old(constraints) && lastOrder == old(lastOrder)
    {
      g := new FreezeGuard(this);
    }
  }

  /** Keeps a model frozen from its construction to its end. */
  class FreezeGuard {
    const base: PropertyModel

    constructor (base: PropertyModel)
      modifies base
      ensures this.base == base && base.State() == Frozen(old(base.State()))
      ensures base.constraints == old(base.constraints) && base.lastOrder == old(base.lastOrder)
    {
      this.base := base;
      new;
      base.DoFreeze();
    }

    /** The guard's destruction: the model is unfrozen and updated. */
    method End()
      modifies base
      ensures base.State() == Unfrozen(old(base.State())) && base.constraints == old(base.constraints)
    {
      base.DoUnfreeze();
    }
  }

  /** A constraint of a model. Whether it is fulfilled is recomputed elsewhere; here it only starts true. */
  class Constraint {
    const model: PropertyModel
    var id: nat
    var importance: nat
    var enabled: bool
    var fulfilled: bool
    var csms: seq<ConstraintMethod>

    /** A constraint registered with `model`, enabled and fulfilled, holding `csms` in order. */
    constructor (model: PropertyModel, importance: nat, csms: seq<ConstraintMethod>)
      modifies model
      ensures this.model == model && id == |old(model.constraints)|
      ensures model.constraints == old(model.constraints) + [this]
      ensures this.importance == importance && enabled && fulfilled && this.csms == csms
      ensures model.State() == old(model.State()) && model.lastOrder == old(model.lastOrder)
    {
      this.model := model;
      this.importance := importance;
      enabled := true;
      fulfilled := true;
      this.csms := csms;
      new;
      id := model.RegisterConstraint(this);
    }

    /** A constraint of importance 0. */
    static method WithoutImportance(model: PropertyModel, csms: seq<ConstraintMethod>) returns (c: Constraint)
      modifies model
      ensures fresh(c) && c.model == model && c.id == |old(model.constraints)|
      ensures model.constraints == old(model.constraints) + [c]
      ensures c.importance == 0 && c.enabled && c.fulfilled && c.csms == csms
      ensures model.State() == old(model.State()) && model.lastOrder == old(model.lastOrder)
    {
      c := new Constraint(model, 0, csms);
    }

    /** Fulfilled only while enabled; also the constraint's conversion to `bool`. */
    predicate IsFulfilled()
      reads this
      ensures !enabled ==> !IsFulfilled()
      ensures enabled ==> (IsFulfilled() <==> fulfilled)
    {
      enabled && fulfilled
    }

    /** Stores the importance and notifies the model, even when it is unchanged. */
    method SetImportance(importance: nat)
      modifies this, model
      ensures this.importance == importance && enabled == old(enabled) && fulfilled == old(fulfilled)
      ensures csms == old(csms) && id == old(id)
      ensures model.State() == Updated(old(model.State())) && model.constraints == old(model.constraints)
    {
      this.importance := importance;
      model.OnConstraintSet(id);
    }

    /** Enables the constraint; only a change notifies the model. */
    method Enable()
      modifies this, model
      ensures enabled && IsFulfilled() == fulfilled
      ensures importance == old(importance) && fulfilled == old(fulfilled) && csms == old(csms) && id == old(id)
      ensures model.State() == if old(enabled) then old(model.State()) else Updated(old(model.State()))
      ensures model.constraints == old(model.constraints)
    {
      if enabled {
        return;
      }
      enabled := true;
      model.OnConstraintSet(id);
    }

    /** Disables the constraint; only a change notifies the model. */
    method Disable()
      modifies this, model
      ensures !enabled && !IsFulfilled()
      ensures importance == old(importance) && fulfilled == old(fulfilled) && csms == old(csms) && id == old(id)
      ensures model.State() == if old(enabled) then Updated(old(model.State())) else old(model.State())
      ensures model.constraints == old(model.constraints)
    {
      if !enabled {
        return;
      }
      enabled := false;
      model.OnConstraintSet(id);
    }

    /** The stored methods, one entry each, in declaration order. */
    method GetCSMs() returns (r: seq<ConstraintMethod>)
      ensures |r| == |csms| && forall i :: 0 <= i < |csms| ==> r[i] == csms[i]
    {
      r := [];
      for i := 0 to |csms|
        invariant r == csms[..i]
      {
        r := r + [csms[i]];
      }
    }
  }

  /** A property of a model holding a value of type `T`. */
  class Property<T> {
    const model: PropertyModel
    const id: nat
    var value: T

    /** A property registered with `model`, holding `init`. */
    constructor (model: PropertyModel, init: T)
      modifies model
      ensures this.model == model && id == |old(model.propertySetTime)| && value == init
      ensures model.State() == WithProperty(old(model.State()))
      ensures model.constraints == old(model.constraints) && model.lastOrder == old(model.lastOrder)
    {
      var registered := model.RegisterProperty();
      this.model := model;
      id := registered;
      value := init;
    }

    /** The stored value; reading notifies nobody. */
    function Get(): T
      reads this
    {
      value
    }

    /** Stores `v`, then notifies the model of a write to this property; gives the stored value. */
    method Set(v: T) returns (r: T)
      requires id < |model.propertySetTime|
      modifies this, model
      ensures r == v && Get() == v
      ensures model.State() == Written(old(model.State()), id) && model.constraints == old(model.constraints)
    {
      value := v;
      model.OnPropertySet(id);
      r := value;
    }
  }
}
