/**
 * The states the edit loops of the constraint graph pass through. Each loop
 * walks a set of keys; its state once the keys `all - todo` are done is
 * stated by one predicate against the state before the loop, and one lemma
 * takes that predicate over a single step of the loop body.
 */
module GraphEditSteps {
  import opened TableEdits
  import opened GraphSnapshots
  import opened BidirectionalMaps

  // Removing a property.

  lemma StripNext(t: map<nat, set<nat>>, p: nat, all: set<nat>, todo: set<nat>, k: nat)
    requires k in t && k in todo && todo <= all
    ensures Strip(t, p, all - (todo - {k})) == Strip(t, p, all - todo)[k := t[k] - {p}]
  {
    var a := Strip(t, p, all - (todo - {k}));
    var b := Strip(t, p, all - todo)[k := t[k] - {p}];
    forall q | q in t
      ensures a[q] == b[q]
    {
    }
  }

  lemma LowerNext(d: map<nat, nat>, outs: map<nat, set<nat>>, p: nat, all: set<nat>, todo: set<nat>, k: nat)
    requires CountsOutput(d, outs, p) && k in d && k in outs && k in todo && todo <= all
    ensures Lower(d, outs, p, all - (todo - {k})) ==
      if p in outs[k] then Lower(d, outs, p, all - todo)[k := d[k] - 1] else Lower(d, outs, p, all - todo)
  {
    var a := Lower(d, outs, p, all - (todo - {k}));
    var b := if p in outs[k] then Lower(d, outs, p, all - todo)[k := d[k] - 1] else Lower(d, outs, p, all - todo);
    forall q | q in d
      ensures a[q] == b[q]
    {
    }
  }

  /** The method tables `RemoveProperty` edits. */
  datatype StripState = StripState(inputs: map<nat, set<nat>>, outputs: map<nat, set<nat>>, outputDegree: BiMap)

  /** The methods of `done` have lost `p` from their inputs and outputs, and one output degree per lost output. */
  ghost predicate Stripped(t: StripState, start: StripState, p: nat, done: set<nat>)
    requires CountsOutput(start.outputDegree.keyToValue, start.outputs, p)
  {
    && t.outputDegree.Valid()
    && t.inputs == Strip(start.inputs, p, done)
    && t.outputs == Strip(start.outputs, p, done)
    && t.outputDegree.keyToValue == Lower(start.outputDegree.keyToValue, start.outputs, p, done)
  }

  /** One turn of the loop of `RemoveProperty`, on method `k`. */
  lemma StrippedNext(t: StripState, start: StripState, p: nat, all: set<nat>, todo: set<nat>, k: nat)
    requires CountsOutput(start.outputDegree.keyToValue, start.outputs, p)
    requires k in todo && todo <= all
    requires all <= start.inputs.Keys && all <= start.outputs.Keys && all <= start.outputDegree.keyToValue.Keys
    requires Stripped(t, start, p, all - todo)
    ensures k in t.inputs && k in t.outputs && k in t.outputDegree.keyToValue
    ensures p in t.outputs[k] ==> t.outputDegree.keyToValue[k] > 0
    ensures Stripped(StripState(t.inputs[k := t.inputs[k] - {p}], t.outputs[k := t.outputs[k] - {p}],
                                if p in t.outputs[k] then t.outputDegree.Insert(k, t.outputDegree.Get(k) - 1)
                                else t.outputDegree),
                     start, p, all - (todo - {k}))
  {
    StripNext(start.inputs, p, all, todo, k);
    StripNext(start.outputs, p, all, todo, k);
    LowerNext(start.outputDegree.keyToValue, start.outputs, p, all, todo, k);
  }

  /** The tables of a coherent snapshot meet what the loop of `RemoveProperty` needs. */
  lemma StripUsersReady(s: Snapshot, p: nat, start: StripState)
    requires Coherent(s) && p in s.users
    requires start == StripState(s.inputs, s.outputs, start.outputDegree) && start.outputDegree.keyToValue == s.outputDegree
    ensures CountsOutput(start.outputDegree.keyToValue, start.outputs, p)
    ensures s.users[p] <= start.inputs.Keys && s.users[p] <= start.outputs.Keys
    ensures s.users[p] <= start.outputDegree.keyToValue.Keys
  {
    forall csm | csm in s.users[p]
      ensures csm in s.owner
    {
      UserLinks(s, p, csm);
    }
    BoundedCountsOutput(s, p);
  }

  /** Once the users of `p` are stripped of it, the tables are those of `WithoutProperty`, which is coherent. */
  lemma StrippedWithoutProperty(s: Snapshot, p: nat, start: StripState, t: StripState)
    requires Coherent(s) && p in s.users
    requires start == StripState(s.inputs, s.outputs, start.outputDegree) && start.outputDegree.keyToValue == s.outputDegree
    requires CountsOutput(start.outputDegree.keyToValue, start.outputs, p)
    requires Stripped(t, start, p, s.users[p])
    ensures WithoutProperty(s, p) ==
      Snapshot(s.constraints, s.degree - {p}, t.outputDegree.keyToValue, s.owner, s.users - {p}, t.inputs, t.outputs)
    ensures Coherent(WithoutProperty(s, p))
  {
    RemovedUsersCover(s, p);
    StripCovers(s.inputs, p, s.users[p]);
    StripCovers(s.outputs, p, s.users[p]);
    LowerCovers(s.outputDegree, s.outputs, p, s.users[p]);
    WithoutPropertyCoherent(s, p);
  }

  // Removing a constraint.

  lemma DetachedNext(u: map<nat, set<nat>>, csm: nat, all: set<nat>, todo: set<nat>, p: nat)
    requires p in u && p in todo && todo <= all
    ensures Detached(u, csm, all - (todo - {p})) ==
      Detached(u, csm, all - todo)[p := Detached(u, csm, all - todo)[p] - {csm}]
  {
    var a := Detached(u, csm, all - (todo - {p}));
    var b := Detached(u, csm, all - todo)[p := Detached(u, csm, all - todo)[p] - {csm}];
    forall q | q in u
      ensures a[q] == b[q]
    {
    }
  }

  /** Detaching a method from two sets of properties in turn detaches it from their union. */
  lemma DetachedTwice(u: map<nat, set<nat>>, csm: nat, a: set<nat>, b: set<nat>)
    ensures Detached(Detached(u, csm, a), csm, b) == Detached(u, csm, a + b)
  {
    var x := Detached(Detached(u, csm, a), csm, b);
    var y := Detached(u, csm, a + b);
    forall q | q in u
      ensures x[q] == y[q]
    {
    }
  }

  lemma DecreasedNext(d: map<nat, nat>, all: set<nat>, todo: set<nat>, q: nat)
    requires forall k :: k in d && k in all ==> d[k] > 0
    requires q in d && q in todo && todo <= all
    ensures Decreased(d, all - (todo - {q})) == Decreased(d, all - todo)[q := d[q] - 1]
  {
    var a := Decreased(d, all - (todo - {q}));
    var b := Decreased(d, all - todo)[q := d[q] - 1];
    forall k | k in d
      ensures a[k] == b[k]
    {
    }
  }

  /** The tables the loop of `RemoveConstraint` over the constraint's methods edits, and the properties it unlinked. */
  datatype DetachState = DetachState(users: map<nat, set<nat>>, inputs: map<nat, set<nat>>,
                                     outputs: map<nat, set<nat>>, owner: BiMap, outputDegree: BiMap,
                                     removed: set<nat>)

  /** The methods of `gone` have left every table of `s`, and `removed` holds the properties they mentioned. */
  ghost predicate Detaching(t: DetachState, s: Snapshot, gone: set<nat>) {
    && t.owner.Valid() && t.outputDegree.Valid()
    && t.users == Dropped(s.users, gone)
    && t.inputs == s.inputs - gone
    && t.outputs == s.outputs - gone
    && t.owner.keyToValue == s.owner - gone
    && t.outputDegree.keyToValue == s.outputDegree - gone
    && t.removed == LinksOf(s, gone)
  }

  /** A method still to be detached keeps its entries, and the properties it mentions are live. */
  lemma DetachingReady(t: DetachState, s: Snapshot, all: set<nat>, todo: set<nat>, csm: nat)
    requires Coherent(s) && Detaching(t, s, all - todo)
    requires csm in todo && todo <= all && all <= s.owner.Keys
    ensures csm in t.inputs && csm in t.outputs
    ensures t.inputs[csm] == s.inputs[csm] && t.outputs[csm] == s.outputs[csm]
    ensures s.inputs[csm] <= t.users.Keys && s.outputs[csm] <= t.users.Keys
  {
    forall p | p in s.inputs[csm] + s.outputs[csm]
      ensures p in s.users
    {
      LinkedUser(s, csm, p);
    }
  }

  /** One turn of the loop of `RemoveConstraint` over the constraint's methods, on method `csm`. */
  lemma DetachingNext(t: DetachState, s: Snapshot, all: set<nat>, todo: set<nat>, csm: nat,
                      users: map<nat, set<nat>>, removed: set<nat>)
    requires Coherent(s) && Detaching(t, s, all - todo)
    requires csm in todo && todo <= all && all <= s.owner.Keys
    requires users == Detached(Detached(t.users, csm, s.inputs[csm]), csm, s.outputs[csm])
    requires removed == t.removed + s.inputs[csm] + s.outputs[csm]
    ensures Detaching(DetachState(users, t.inputs - {csm}, t.outputs - {csm}, t.owner.Erase(csm),
                                  t.outputDegree.Erase(csm), removed),
                      s, all - (todo - {csm}))
  {
    var done := all - todo;
    var next := all - (todo - {csm});
    MinusNext(s.inputs, all, todo, csm);
    MinusNext(s.outputs, all, todo, csm);
    MinusNext(s.owner, all, todo, csm);
    MinusNext(s.outputDegree, all, todo, csm);
    assert users == Dropped(s.users, next) by {
      assert next == done + {csm};
      DetachedTwice(t.users, csm, s.inputs[csm], s.outputs[csm]);
      DetachOne(s, done, csm);
    }
    assert removed == LinksOf(s, next) by {
      assert next == done + {csm};
      LinksOfStep(s, done, csm);
    }
  }

  /** Taking one more key of `todo` out of a map. */
  lemma MinusNext<V>(m: map<nat, V>, all: set<nat>, todo: set<nat>, k: nat)
    requires k in todo && todo <= all
    ensures m - (all - (todo - {k})) == (m - (all - todo)) - {k}
  {
    assert all - (todo - {k}) == (all - todo) + {k};
  }

  /** What the last loop of `RemoveConstraint` needs: the unlinked properties are live and counted. */
  lemma LinkedReady(s: Snapshot, c: nat)
    requires Coherent(s)
    ensures forall q :: q in LinkedTo(s, c) ==> q in s.degree && s.degree[q] > 0
  {
    LinkedCounted(s, c);
    forall q | q in LinkedTo(s, c)
      ensures q in s.degree
    {
      var csm :| csm in MethodsOf(s, c) && q in Links(s, csm);
      LinkedUser(s, csm, q);
    }
  }

  /** Once the methods of `c` are detached and the linked degrees lowered, the tables are those of `WithoutConstraint`. */
  lemma DetachedWithoutConstraint(s: Snapshot, c: nat, t: DetachState, degree: map<nat, nat>)
    requires Coherent(s) && Detaching(t, s, MethodsOf(s, c))
    requires forall q :: q in s.degree && q in LinkedTo(s, c) ==> s.degree[q] > 0
    requires degree == Decreased(s.degree, LinkedTo(s, c))
    ensures WithoutConstraint(s, c) ==
      Snapshot(s.constraints - {c}, degree, t.outputDegree.keyToValue, t.owner.keyToValue, t.users, t.inputs, t.outputs)
    ensures Coherent(WithoutConstraint(s, c))
  {
    WithoutConstraintCoherent(s, c);
  }

  // Copying a constraint from another graph.

  lemma PaddedNext(d: map<nat, nat>, all: set<nat>, todo: set<nat>, q: nat)
    requires q in todo && todo <= all
    ensures Padded(d, all - (todo - {q})) ==
      if q in Padded(d, all - todo) then Padded(d, all - todo) else Padded(d, all - todo)[q := 0]
  {
    assert all - (todo - {q}) == (all - todo) + {q};
    PaddedStep(d, all - todo, q);
  }

  lemma AttachedNext(u: map<nat, set<nat>>, csm: nat, all: set<nat>, todo: set<nat>, p: nat, a: map<nat, set<nat>>)
    requires p in todo && todo <= all
    requires a == Attached(u, csm, all - todo)
    ensures Attached(u, csm, all - (todo - {p})) == a[p := (if p in a then a[p] else {}) + {csm}]
  {
    assert all - (todo - {p}) == (all - todo) + {p};
    AttachedStep(u, csm, all - todo, p);
  }

  /** Padding with two sets of properties in turn pads with their union. */
  lemma PaddedTwice(d: map<nat, nat>, a: set<nat>, b: set<nat>)
    ensures Padded(Padded(d, a), b) == Padded(d, a + b)
  {
  }

  /** Attaching a method to two sets of properties in turn attaches it to their union. */
  lemma AttachedTwice(u: map<nat, set<nat>>, csm: nat, a: set<nat>, b: set<nat>)
    ensures Attached(Attached(u, csm, a), csm, b) == Attached(u, csm, a + b)
  {
    var x := Attached(Attached(u, csm, a), csm, b);
    var y := Attached(u, csm, a + b);
    forall q | q in x
      ensures q in y && x[q] == y[q]
    {
      AttachedTwiceAt(u, csm, a, b, q);
    }
    SameEntries(x, y);
  }

  lemma AttachedTwiceAt(u: map<nat, set<nat>>, csm: nat, a: set<nat>, b: set<nat>, q: nat)
    requires q in u || q in a || q in b
    ensures Attached(Attached(u, csm, a), csm, b)[q] == Attached(u, csm, a + b)[q]
  {
  }

  lemma RaisedNext(d: map<nat, nat>, all: set<nat>, todo: set<nat>, q: nat)
    requires q in d && q in todo && todo <= all
    ensures Raised(d, all - (todo - {q})) == Raised(d, all - todo)[q := d[q] + 1]
  {
    assert all - (todo - {q}) == (all - todo) + {q};
    RaisedStep(d, all - todo, q);
  }

  lemma AssignedStep(m: map<nat, nat>, keys: set<nat>, v: nat, k: nat)
    ensures Assigned(m, keys + {k}, v) == Assigned(m, keys, v)[k := v]
  {
  }

  lemma CopiedCountsStep(m: map<nat, nat>, from: map<nat, nat>, keys: set<nat>, k: nat)
    requires keys + {k} <= from.Keys
    ensures CopiedCounts(m, from, keys + {k}) == CopiedCounts(m, from, keys)[k := from[k]]
  {
  }

  lemma CopiedSetsStep(m: map<nat, set<nat>>, from: map<nat, set<nat>>, keys: set<nat>, k: nat)
    requires keys + {k} <= from.Keys
    ensures CopiedSets(m, from, keys + {k}) == CopiedSets(m, from, keys)[k := from[k]]
  {
    var a := CopiedSets(m, from, keys + {k});
    var b := CopiedSets(m, from, keys)[k := from[k]];
    forall q | q in a
      ensures q in b && a[q] == b[q]
    {
    }
    SameEntries(a, b);
  }

  /** The tables the loop of `CopyConstraintFrom` over the copied methods edits, and the properties it linked. */
  datatype CopyState = CopyState(owner: BiMap, outputDegree: BiMap, inputs: map<nat, set<nat>>,
                                 outputs: map<nat, set<nat>>, users: map<nat, set<nat>>, degree: BiMap,
                                 added: set<nat>)

  /**
   * The methods of `done` have come over from `o` as methods of `c`, the
   * properties they mention are live (new ones with degree 0), and `added`
   * holds those properties.
   */
  ghost predicate Copying(t: CopyState, s: Snapshot, o: Snapshot, c: nat, done: set<nat>)
    requires done <= o.outputDegree.Keys && done <= o.inputs.Keys && done <= o.outputs.Keys
  {
    && t.owner.Valid() && t.outputDegree.Valid() && t.degree.Valid()
    && t.owner.keyToValue == Assigned(s.owner, done, c)
    && t.outputDegree.keyToValue == CopiedCounts(s.outputDegree, o.outputDegree, done)
    && t.inputs == CopiedSets(s.inputs, o.inputs, done)
    && t.outputs == CopiedSets(s.outputs, o.outputs, done)
    && t.users == AttachedAll(s.users, o, done)
    && t.degree.keyToValue == Padded(s.degree, LinksOf(o, done))
    && t.added == LinksOf(o, done)
  }

  /** Before the loop of `CopyConstraintFrom` over the copied methods nothing has come over. */
  lemma CopyingNone(s: Snapshot, o: Snapshot, c: nat, t: CopyState)
    requires t.owner.Valid() && t.outputDegree.Valid() && t.degree.Valid()
    requires t.owner.keyToValue == s.owner && t.outputDegree.keyToValue == s.outputDegree
    requires t.inputs == s.inputs && t.outputs == s.outputs && t.users == s.users
    requires t.degree.keyToValue == s.degree && t.added == {}
    ensures Copying(t, s, o, c, {})
  {
    assert LinksOf(o, {}) == {};
    PaddedNone(s.degree);
    AttachedAllNone(s.users, o);
  }

  /** One turn of the loop of `CopyConstraintFrom` over the copied methods, on method `csm`. */
  lemma CopyingNext(t: CopyState, s: Snapshot, o: Snapshot, c: nat, all: set<nat>, todo: set<nat>, csm: nat,
                    users: map<nat, set<nat>>, degree: BiMap, added: set<nat>)
    requires KeysAgree(o) && all <= o.owner.Keys && csm in todo && todo <= all
    requires Copying(t, s, o, c, all - todo)
    requires degree.Valid()
    requires users == Attached(t.users, csm, o.inputs[csm] + o.outputs[csm])
    requires degree.keyToValue == Padded(t.degree.keyToValue, o.inputs[csm] + o.outputs[csm])
    requires added == t.added + (o.inputs[csm] + o.outputs[csm])
    ensures Copying(CopyState(t.owner.Insert(csm, c), t.outputDegree.Insert(csm, o.outputDegree[csm]),
                              t.inputs[csm := o.inputs[csm]], t.outputs[csm := o.outputs[csm]],
                              users, degree, added),
                    s, o, c, all - (todo - {csm}))
  {
    var done := all - todo;
    var next := all - (todo - {csm});
    assert next == done + {csm};
    CopiedTablesNext(t, s, o, c, done, csm);
    CopiedLinksNext(t, s, o, done, csm, users, degree, added);
  }

  /** The per-method tables after copying `csm` as well as the methods of `done`. */
  lemma CopiedTablesNext(t: CopyState, s: Snapshot, o: Snapshot, c: nat, done: set<nat>, csm: nat)
    requires KeysAgree(o) && done + {csm} <= o.owner.Keys
    requires t.owner.Valid() && t.outputDegree.Valid()
    requires t.owner.keyToValue == Assigned(s.owner, done, c)
    requires t.outputDegree.keyToValue == CopiedCounts(s.outputDegree, o.outputDegree, done)
    requires t.inputs == CopiedSets(s.inputs, o.inputs, done)
    requires t.outputs == CopiedSets(s.outputs, o.outputs, done)
    ensures Assigned(s.owner, done + {csm}, c) == t.owner.Insert(csm, c).keyToValue
    ensures CopiedCounts(s.outputDegree, o.outputDegree, done + {csm}) ==
            t.outputDegree.Insert(csm, o.outputDegree[csm]).keyToValue
    ensures CopiedSets(s.inputs, o.inputs, done + {csm}) == t.inputs[csm := o.inputs[csm]]
    ensures CopiedSets(s.outputs, o.outputs, done + {csm}) == t.outputs[csm := o.outputs[csm]]
  {
    AssignedStep(s.owner, done, c, csm);
    CopiedCountsStep(s.outputDegree, o.outputDegree, done, csm);
    CopiedSetsStep(s.inputs, o.inputs, done, csm);
    CopiedSetsStep(s.outputs, o.outputs, done, csm);
  }

  /** The users, the degrees and the linked properties after copying `csm` as well as the methods of `done`. */
  lemma CopiedLinksNext(t: CopyState, s: Snapshot, o: Snapshot, done: set<nat>, csm: nat,
                        users: map<nat, set<nat>>, degree: BiMap, added: set<nat>)
    requires KeysAgree(o) && csm in o.owner
    requires t.users == AttachedAll(s.users, o, done)
    requires t.degree.keyToValue == Padded(s.degree, LinksOf(o, done))
    requires t.added == LinksOf(o, done)
    requires users == Attached(t.users, csm, o.inputs[csm] + o.outputs[csm])
    requires degree.keyToValue == Padded(t.degree.keyToValue, o.inputs[csm] + o.outputs[csm])
    requires added == t.added + (o.inputs[csm] + o.outputs[csm])
    ensures AttachedAll(s.users, o, done + {csm}) == users
    ensures LinksOf(o, done + {csm}) == added
    ensures Padded(s.degree, LinksOf(o, done + {csm})) == degree.keyToValue
  {
    assert Links(o, csm) == o.inputs[csm] + o.outputs[csm];
    AttachedAllStep(s.users, o, done, csm);
    LinksOfStep(o, done, csm);
    PaddedTwice(s.degree, LinksOf(o, done), Links(o, csm));
  }

  /** Once the methods of `c` are copied and the linked degrees raised, the tables are those of `WithConstraint`. */
  lemma CopiedWithConstraint(s: Snapshot, o: Snapshot, c: nat, t: CopyState, degree: map<nat, nat>)
    requires Coherent(s) && Coherent(o)
    requires c !in s.constraints && MethodsOf(o, c) !! s.owner.Keys
    requires Copying(t, s, o, c, MethodsOf(o, c))
    requires degree == Raised(t.degree.keyToValue, LinkedTo(o, c))
    ensures WithConstraint(s, o, c) ==
      Snapshot(s.constraints + {c}, degree, t.outputDegree.keyToValue, t.owner.keyToValue, t.users, t.inputs, t.outputs)
    ensures Coherent(WithConstraint(s, o, c))
  {
    WithConstraintCoherent(s, o, c);
  }
}
