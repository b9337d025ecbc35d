/**
 * The contents of a constraint graph of the quick-plan planner, as a value.
 * Each edit of the graph is specified by a function from the old contents to
 * the new, and the invariant `Coherent` that ties the tables together is
 * proved about those functions.
 */
module GraphSnapshots {
  import opened SetFacts
  import opened Tasks
  import opened TableEdits

  /**
   * The contents of a constraint graph: the live constraints; the degree and
   * the mentioning methods (`users`) of every live property; the output
   * degree, owner, inputs and outputs of every live method.
   */
  datatype Snapshot = Snapshot(
    constraints: set<nat>,
    degree: map<nat, nat>,
    outputDegree: map<nat, nat>,
    owner: map<nat, nat>,
    users: map<nat, set<nat>>,
    inputs: map<nat, set<nat>>,
    outputs: map<nat, set<nat>>)

  /** The graph with nothing in it. */
  function EmptySnapshot(): Snapshot {
    Snapshot({}, map[], map[], map[], map[], map[], map[])
  }

  /** The live properties a live method still reads or writes. */
  function Links(s: Snapshot, csm: nat): set<nat> {
    (if csm in s.inputs then s.inputs[csm] else {}) + (if csm in s.outputs then s.outputs[csm] else {})
  }

  /** The constraints owning a method that mentions property `p`. */
  function Touching(s: Snapshot, p: nat): set<nat> {
    if p in s.users then (set csm | csm in s.users[p] && csm in s.owner :: s.owner[csm]) else {}
  }

  /** The live methods of constraint `c`. */
  function MethodsOf(s: Snapshot, c: nat): set<nat> {
    set csm | csm in s.owner && s.owner[csm] == c
  }

  /** The properties mentioned by some method of `ms`. */
  function LinksOf(s: Snapshot, ms: set<nat>): set<nat> {
    set csm, p | csm in ms && p in Links(s, csm) :: p
  }

  /** The properties mentioned by some live method of constraint `c`. */
  function LinkedTo(s: Snapshot, c: nat): set<nat> {
    LinksOf(s, MethodsOf(s, c))
  }

  /** The per-method tables share their keys. */
  ghost predicate KeysAgree(s: Snapshot) {
    && s.outputDegree.Keys == s.owner.Keys
    && s.inputs.Keys == s.owner.Keys
    && s.outputs.Keys == s.owner.Keys
    && s.users.Keys == s.degree.Keys
  }

  /** Every method is owned by a live constraint. */
  ghost predicate OwnersLive(s: Snapshot) {
    forall csm :: csm in s.owner ==> s.owner[csm] in s.constraints
  }

  /** A user of a property is a live method mentioning it. */
  ghost predicate UsersSound(s: Snapshot) {
    forall p, csm :: p in s.users && csm in s.users[p] ==> csm in s.owner && p in Links(s, csm)
  }

  /** A property a live method mentions is live and lists the method among its users. */
  ghost predicate UsersComplete(s: Snapshot) {
    forall csm, p :: csm in s.owner && p in Links(s, csm) ==> p in s.users && csm in s.users[p]
  }

  /** The output degree of a method is at least the number of its live outputs. */
  ghost predicate OutputsBounded(s: Snapshot) {
    forall csm :: csm in s.outputs && csm in s.outputDegree ==> |s.outputs[csm]| <= s.outputDegree[csm]
  }

  /** The degree of a property counts the live constraints that mention it. */
  ghost predicate DegreesCount(s: Snapshot) {
    forall p :: p in s.degree ==> s.degree[p] == |Touching(s, p)|
  }

  /**
   * The invariant of a graph: the per-method tables share their keys, every
   * owner is a live constraint, the users table is the exact inverse of the
   * inputs and outputs, the output degree bounds the live outputs, and a
   * degree counts the live constraints that mention the property.
   */
  ghost predicate Coherent(s: Snapshot) {
    KeysAgree(s) && OwnersLive(s) && UsersSound(s) && UsersComplete(s) && OutputsBounded(s) && DegreesCount(s)
  }

  lemma EmptyCoherent()
    ensures Coherent(EmptySnapshot())
  {
  }

  /** The graph after `RemoveProperty(p)`: `p` disappears from every table. */
  function WithoutProperty(s: Snapshot, p: nat): Snapshot
    requires OutputsBounded(s)
  {
    BoundedCountsOutput(s, p);
    s.(degree := s.degree - {p},
       users := s.users - {p},
       inputs := Removed(s.inputs, p),
       outputs := Removed(s.outputs, p),
       outputDegree := LowerAll(s.outputDegree, s.outputs, p))
  }

  /** A method with `p` among its outputs has an output degree of at least one. */
  lemma BoundedCountsOutput(s: Snapshot, p: nat)
    requires OutputsBounded(s)
    ensures CountsOutput(s.outputDegree, s.outputs, p)
  {
    forall csm | csm in s.outputDegree && csm in s.outputs && p in s.outputs[csm]
      ensures s.outputDegree[csm] > 0
    {
      assert |s.outputs[csm]| > 0;
    }
  }

  /**
   * The graph after `RemoveConstraint(c)`: the constraint and its methods
   * disappear, and each property they mentioned loses exactly one degree.
   */
  function WithoutConstraint(s: Snapshot, c: nat): Snapshot
    requires UsersComplete(s) && DegreesCount(s)
  {
    var gone := MethodsOf(s, c);
    LinkedCounted(s, c);
    s.(constraints := s.constraints - {c},
       owner := s.owner - gone,
       outputDegree := s.outputDegree - gone,
       inputs := s.inputs - gone,
       outputs := s.outputs - gone,
       users := Dropped(s.users, gone),
       degree := Decreased(s.degree, LinkedTo(s, c)))
  }

  /** A property linked to constraint `c` counts `c` in its degree. */
  lemma LinkedCounted(s: Snapshot, c: nat)
    requires UsersComplete(s) && DegreesCount(s)
    ensures forall q :: q in s.degree && q in LinkedTo(s, c) ==> s.degree[q] > 0
  {
    forall q | q in s.degree && q in LinkedTo(s, c)
      ensures s.degree[q] > 0
    {
      var csm :| csm in MethodsOf(s, c) && q in Links(s, csm);
      LinkedUser(s, csm, q);
      assert c in Touching(s, q);
    }
  }

  /** The methods of `added` that mention property `p` in graph `o`. */
  function UsersIn(o: Snapshot, added: set<nat>, p: nat): set<nat> {
    set csm | csm in added && p in Links(o, csm)
  }

  /** The users table `u` once the methods `ms` of `o` are added to it. */
  function AttachedAll(u: map<nat, set<nat>>, o: Snapshot, ms: set<nat>): map<nat, set<nat>> {
    map p | p in u.Keys + LinksOf(o, ms) :: (if p in u then u[p] else {}) + UsersIn(o, ms, p)
  }

  /** The users table after copying constraint `c` of `o` into `s`. */
  function CopiedUsers(s: Snapshot, o: Snapshot, c: nat): map<nat, set<nat>> {
    AttachedAll(s.users, o, MethodsOf(o, c))
  }

  /**
   * The graph after `CopyConstraintFrom(o, c)`: constraint `c` and its
   * methods come over from `o` unchanged, properties new to this graph
   * appear, and each property they mention gains exactly one degree.
   */
  function WithConstraint(s: Snapshot, o: Snapshot, c: nat): Snapshot
    requires KeysAgree(o)
  {
    CopiedMethods(s, o, c).(degree := Raised(Padded(s.degree, LinkedTo(o, c)), LinkedTo(o, c)))
  }

  /** `WithConstraint` before the degrees are adjusted: the copied constraint, its methods and their users. */
  function CopiedMethods(s: Snapshot, o: Snapshot, c: nat): Snapshot
    requires KeysAgree(o)
  {
    var added := MethodsOf(o, c);
    s.(constraints := s.constraints + {c},
       owner := Assigned(s.owner, added, c),
       outputDegree := CopiedCounts(s.outputDegree, o.outputDegree, added),
       inputs := CopiedSets(s.inputs, o.inputs, added),
       outputs := CopiedSets(s.outputs, o.outputs, added),
       users := CopiedUsers(s, o, c))
  }

  /** The owner table `m` with the methods of `keys` given to constraint `v`. */
  function Assigned(m: map<nat, nat>, keys: set<nat>, v: nat): map<nat, nat> {
    map k | k in m.Keys + keys :: if k in keys then v else m[k]
  }

  /** The count table `m` with the entries of `keys` taken from `from`. */
  function CopiedCounts(m: map<nat, nat>, from: map<nat, nat>, keys: set<nat>): map<nat, nat>
    requires keys <= from.Keys
  {
    map k | k in m.Keys + keys :: if k in keys then from[k] else m[k]
  }

  /** The set table `m` with the entries of `keys` taken from `from`. */
  function CopiedSets(m: map<nat, set<nat>>, from: map<nat, set<nat>>, keys: set<nat>): map<nat, set<nat>>
    requires keys <= from.Keys
  {
    map k | k in m.Keys + keys :: if k in keys then from[k] else m[k]
  }

  /** Removing one element of a set lowers its size by one. */
  lemma RemoveOneCard(a: set<nat>, x: nat)
    ensures |a - {x}| == if x in a then |a| - 1 else |a|
  {
    if x in a {
      assert a == (a - {x}) + {x};
    } else {
      assert a - {x} == a;
    }
  }

  /** Removing a property keeps the graph coherent; no other degree changes. */
  lemma WithoutPropertyCoherent(s: Snapshot, p: nat)
    requires Coherent(s) && p in s.degree
    ensures Coherent(WithoutProperty(s, p))
  {
    var t := WithoutProperty(s, p);
    assert KeysAgree(t);
    assert OwnersLive(t);
    WithoutPropertySound(s, p);
    WithoutPropertyComplete(s, p);
    WithoutPropertyBounded(s, p);
    WithoutPropertyDegrees(s, p);
  }

  /** A method keeps its links, except `p`, when `p` is removed. */
  lemma WithoutPropertyLinks(s: Snapshot, p: nat, csm: nat)
    requires OutputsBounded(s)
    ensures Links(WithoutProperty(s, p), csm) == Links(s, csm) - {p}
  {
  }

  lemma WithoutPropertySound(s: Snapshot, p: nat)
    requires UsersSound(s) && OutputsBounded(s)
    ensures UsersSound(WithoutProperty(s, p))
  {
    var t := WithoutProperty(s, p);
    forall q, csm | q in t.users && csm in t.users[q]
      ensures csm in t.owner && q in Links(t, csm)
    {
      UserLinks(s, q, csm);
      WithoutPropertyLinks(s, p, csm);
    }
  }

  lemma WithoutPropertyComplete(s: Snapshot, p: nat)
    requires UsersComplete(s) && OutputsBounded(s)
    ensures UsersComplete(WithoutProperty(s, p))
  {
    var t := WithoutProperty(s, p);
    forall csm, q | csm in t.owner && q in Links(t, csm)
      ensures q in t.users && csm in t.users[q]
    {
      WithoutPropertyUser(s, p, csm, q);
    }
    CompleteByLinks(t);
  }

  lemma CompleteByLinks(t: Snapshot)
    requires forall csm, q :: csm in t.owner && q in Links(t, csm) ==> q in t.users && csm in t.users[q]
    ensures UsersComplete(t)
  {
  }

  lemma WithoutPropertyUser(s: Snapshot, p: nat, csm: nat, q: nat)
    requires UsersComplete(s) && OutputsBounded(s)
    requires csm in s.owner && q in Links(WithoutProperty(s, p), csm)
    ensures q in WithoutProperty(s, p).users && csm in WithoutProperty(s, p).users[q]
  {
    WithoutPropertyLinks(s, p, csm);
    LinkedUser(s, csm, q);
  }

  lemma WithoutPropertyBounded(s: Snapshot, p: nat)
    requires OutputsBounded(s)
    ensures OutputsBounded(WithoutProperty(s, p))
  {
    var t := WithoutProperty(s, p);
    forall csm | csm in t.outputs && csm in t.outputDegree
      ensures |t.outputs[csm]| <= t.outputDegree[csm]
    {
      RemoveOneCard(s.outputs[csm], p);
    }
  }

  lemma WithoutPropertyDegrees(s: Snapshot, p: nat)
    requires DegreesCount(s) && OutputsBounded(s)
    ensures DegreesCount(WithoutProperty(s, p))
  {
    var t := WithoutProperty(s, p);
    forall q | q in t.degree
      ensures t.degree[q] == |Touching(t, q)|
    {
      assert Touching(t, q) == Touching(s, q);
    }
  }

  /** The constraints touching a property once constraint `c` is gone. */
  lemma TouchingWithoutConstraint(s: Snapshot, c: nat, p: nat)
    requires UsersComplete(s) && DegreesCount(s)
    ensures Touching(WithoutConstraint(s, c), p) == Touching(s, p) - {c}
  {
    var t := WithoutConstraint(s, c);
    if p in s.users {
      forall x | x in Touching(s, p) - {c}
        ensures x in Touching(t, p)
      {
        var csm :| csm in s.users[p] && csm in s.owner && s.owner[csm] == x;
        assert csm in t.users[p] && csm in t.owner;
      }
    }
  }

  /** Removing a constraint keeps the graph coherent. */
  lemma WithoutConstraintCoherent(s: Snapshot, c: nat)
    requires Coherent(s)
    ensures Coherent(WithoutConstraint(s, c))
  {
    var t := WithoutConstraint(s, c);
    assert KeysAgree(t);
    WithoutConstraintOwners(s, c);
    WithoutConstraintSound(s, c);
    WithoutConstraintComplete(s, c);
    assert OutputsBounded(t);
    WithoutConstraintDegrees(s, c);
  }

  lemma WithoutConstraintOwners(s: Snapshot, c: nat)
    requires OwnersLive(s) && UsersComplete(s) && DegreesCount(s)
    ensures OwnersLive(WithoutConstraint(s, c))
  {
    var t := WithoutConstraint(s, c);
    forall csm | csm in t.owner
      ensures t.owner[csm] in t.constraints
    {
      assert csm !in MethodsOf(s, c);
    }
  }

  /** A method that stays keeps its links when constraint `c` is removed. */
  lemma WithoutConstraintLinks(s: Snapshot, c: nat, csm: nat)
    requires UsersComplete(s) && DegreesCount(s)
    ensures Links(WithoutConstraint(s, c), csm) == if csm in MethodsOf(s, c) then {} else Links(s, csm)
  {
  }

  lemma WithoutConstraintSound(s: Snapshot, c: nat)
    requires UsersSound(s) && UsersComplete(s) && DegreesCount(s)
    ensures UsersSound(WithoutConstraint(s, c))
  {
    var t := WithoutConstraint(s, c);
    forall q, csm | q in t.users && csm in t.users[q]
      ensures csm in t.owner && q in Links(t, csm)
    {
      UserLinks(s, q, csm);
      WithoutConstraintLinks(s, c, csm);
    }
  }

  lemma WithoutConstraintComplete(s: Snapshot, c: nat)
    requires UsersComplete(s) && DegreesCount(s)
    ensures UsersComplete(WithoutConstraint(s, c))
  {
    var t := WithoutConstraint(s, c);
    forall csm, q | csm in t.owner && q in Links(t, csm)
      ensures q in t.users && csm in t.users[q]
    {
      WithoutConstraintLinks(s, c, csm);
      LinkedUser(s, csm, q);
    }
  }

  lemma WithoutConstraintDegrees(s: Snapshot, c: nat)
    requires Coherent(s)
    ensures DegreesCount(WithoutConstraint(s, c))
  {
    var t := WithoutConstraint(s, c);
    forall q | q in t.degree
      ensures t.degree[q] == |Touching(t, q)|
    {
      TouchingWithoutConstraint(s, c, q);
      RemoveOneCard(Touching(s, q), c);
      LinkedToTouching(s, c, q);
    }
  }

  /** In a coherent graph, the properties linked to `c` are the live ones `c` touches. */
  lemma LinkedToTouching(s: Snapshot, c: nat, p: nat)
    requires Coherent(s)
    ensures p in LinkedTo(s, c) <==> p in s.users && c in Touching(s, p)
  {
    if p in LinkedTo(s, c) {
      var csm :| csm in MethodsOf(s, c) && p in Links(s, csm);
      assert csm in s.users[p];
    }
    if p in s.users && c in Touching(s, p) {
      var csm :| csm in s.users[p] && csm in s.owner && s.owner[csm] == c;
      assert csm in MethodsOf(s, c) && p in Links(s, csm);
    }
  }

  /**
   * What copying constraint `c` of `o` into `s` leaves in `t`, method by
   * method and property by property: the copied methods keep the owner and
   * links they had in `o`, the others those they had in `s`, and a property's
   * users are its old users and the copied methods that mention it.
   */
  ghost predicate CopiedInto(s: Snapshot, o: Snapshot, c: nat, t: Snapshot) {
    MethodsCopied(s, o, c, t) && UsersCopied(s, o, c, t)
  }

  ghost predicate MethodsCopied(s: Snapshot, o: Snapshot, c: nat, t: Snapshot) {
    && (forall csm :: csm in t.owner <==> csm in s.owner || csm in MethodsOf(o, c))
    && (forall csm :: csm in MethodsOf(o, c) ==> csm in t.owner && t.owner[csm] == c && Links(t, csm) == Links(o, csm))
    && (forall csm :: csm in s.owner ==> csm in t.owner && t.owner[csm] == s.owner[csm] && Links(t, csm) == Links(s, csm))
  }

  ghost predicate UsersCopied(s: Snapshot, o: Snapshot, c: nat, t: Snapshot) {
    && (forall p :: p in t.users <==> p in s.users || p in LinkedTo(o, c))
    && (forall p :: p in t.users ==> t.users[p] == (if p in s.users then s.users[p] else {}) + UsersIn(o, MethodsOf(o, c), p))
  }

  /** `CopiedMethods` does what `CopiedInto` says. */
  lemma CopiedMethodsInto(s: Snapshot, o: Snapshot, c: nat)
    requires KeysAgree(o) && MethodsOf(o, c) !! s.owner.Keys
    ensures CopiedInto(s, o, c, CopiedMethods(s, o, c))
  {
    CopiedMethodsMethods(s, o, c);
    CopiedMethodsUsers(s, o, c);
  }

  lemma CopiedMethodsMethods(s: Snapshot, o: Snapshot, c: nat)
    requires KeysAgree(o) && MethodsOf(o, c) !! s.owner.Keys
    ensures MethodsCopied(s, o, c, CopiedMethods(s, o, c))
  {
    var t := CopiedMethods(s, o, c);
    assert forall csm :: csm in t.owner <==> csm in s.owner || csm in MethodsOf(o, c);
    CopiedMethodsNew(s, o, c);
    CopiedMethodsOld(s, o, c);
  }

  lemma CopiedMethodsNew(s: Snapshot, o: Snapshot, c: nat)
    requires KeysAgree(o)
    ensures var t := CopiedMethods(s, o, c);
      forall csm :: csm in MethodsOf(o, c) ==> csm in t.owner && t.owner[csm] == c && Links(t, csm) == Links(o, csm)
  {
  }

  lemma CopiedMethodsOld(s: Snapshot, o: Snapshot, c: nat)
    requires KeysAgree(o) && MethodsOf(o, c) !! s.owner.Keys
    ensures var t := CopiedMethods(s, o, c);
      forall csm :: csm in s.owner ==> csm in t.owner && t.owner[csm] == s.owner[csm] && Links(t, csm) == Links(s, csm)
  {
  }

  lemma CopiedMethodsUsers(s: Snapshot, o: Snapshot, c: nat)
    requires KeysAgree(o)
    ensures UsersCopied(s, o, c, CopiedMethods(s, o, c))
  {
    var t := CopiedMethods(s, o, c);
    forall p
      ensures p in t.users <==> p in s.users || p in LinkedTo(o, c)
    {
      UsersInLinked(o, c, p);
    }
  }

  /** Some method of `c` mentions `p` exactly when `p` is linked to `c`. */
  lemma UsersInLinked(o: Snapshot, c: nat, p: nat)
    ensures UsersIn(o, MethodsOf(o, c), p) != {} <==> p in LinkedTo(o, c)
  {
    var added := MethodsOf(o, c);
    if p in LinkedTo(o, c) {
      var csm :| csm in added && p in Links(o, csm);
      assert csm in UsersIn(o, added, p);
    }
    if UsersIn(o, added, p) != {} {
      var csm :| csm in UsersIn(o, added, p);
      assert p in LinkedTo(o, c);
    }
  }

  /** The constraints touching a property once constraint `c` is copied in. */
  lemma TouchingCopied(s: Snapshot, o: Snapshot, c: nat, t: Snapshot, p: nat)
    requires UsersSound(s) && CopiedInto(s, o, c, t)
    ensures Touching(t, p) == Touching(s, p) + (if p in LinkedTo(o, c) then {c} else {})
  {
    forall x | x in Touching(t, p)
      ensures x in Touching(s, p) || (x == c && p in LinkedTo(o, c))
    {
      TouchingCopiedMember(s, o, c, t, p, x);
    }
    forall x | x in Touching(s, p)
      ensures x in Touching(t, p)
    {
      TouchingKeptMember(s, o, c, t, p, x);
    }
    if p in LinkedTo(o, c) {
      TouchingCopiedConstraint(s, o, c, t, p);
    }
  }

  /** A constraint touching `p` after the copy touched it before or is the copied one. */
  lemma TouchingCopiedMember(s: Snapshot, o: Snapshot, c: nat, t: Snapshot, p: nat, x: nat)
    requires UsersSound(s) && CopiedInto(s, o, c, t)
    requires x in Touching(t, p)
    ensures x in Touching(s, p) || (x == c && p in LinkedTo(o, c))
  {
    var csm :| csm in t.users[p] && csm in t.owner && t.owner[csm] == x;
    if p in s.users && csm in s.users[p] {
      UserLinks(s, p, csm);
      assert s.owner[csm] in Touching(s, p);
    } else {
      assert csm in UsersIn(o, MethodsOf(o, c), p);
      UsersInLinked(o, c, p);
    }
  }

  /** A constraint touching `p` before the copy still touches it after. */
  lemma TouchingKeptMember(s: Snapshot, o: Snapshot, c: nat, t: Snapshot, p: nat, x: nat)
    requires CopiedInto(s, o, c, t)
    requires x in Touching(s, p)
    ensures x in Touching(t, p)
  {
    var csm :| csm in s.users[p] && csm in s.owner && s.owner[csm] == x;
    assert csm in t.users[p];
    assert t.owner[csm] in Touching(t, p);
  }

  /** The copied constraint touches every property linked to it. */
  lemma TouchingCopiedConstraint(s: Snapshot, o: Snapshot, c: nat, t: Snapshot, p: nat)
    requires CopiedInto(s, o, c, t)
    requires p in LinkedTo(o, c)
    ensures c in Touching(t, p)
  {
    var csm :| csm in MethodsOf(o, c) && p in Links(o, csm);
    assert csm in UsersIn(o, MethodsOf(o, c), p);
    assert csm in t.users[p];
    assert t.owner[csm] in Touching(t, p);
  }

  /** Copying a constraint that is absent, with methods that are absent, keeps the graph coherent. */
  lemma WithConstraintCoherent(s: Snapshot, o: Snapshot, c: nat)
    requires Coherent(s) && Coherent(o)
    requires c !in s.constraints && MethodsOf(o, c) !! s.owner.Keys
    ensures Coherent(WithConstraint(s, o, c))
  {
    var m := CopiedMethods(s, o, c);
    CopiedMethodsInto(s, o, c);
    CopiedSound(s, o, c, m);
    CopiedComplete(s, o, c, m);
    WithConstraintTables(s, o, c);
    DegreesApart(m, Raised(Padded(s.degree, LinkedTo(o, c)), LinkedTo(o, c)));
    WithConstraintDegrees(s, o, c);
  }

  /** The copied tables share their keys, have live owners and bounded output degrees. */
  lemma WithConstraintTables(s: Snapshot, o: Snapshot, c: nat)
    requires KeysAgree(s) && OwnersLive(s) && OutputsBounded(s) && KeysAgree(o) && OutputsBounded(o)
    ensures KeysAgree(WithConstraint(s, o, c)) && OwnersLive(WithConstraint(s, o, c))
    ensures OutputsBounded(WithConstraint(s, o, c))
  {
  }

  /** The users tables do not depend on the degrees. */
  lemma DegreesApart(m: Snapshot, d: map<nat, nat>)
    ensures UsersSound(m.(degree := d)) == UsersSound(m)
    ensures UsersComplete(m.(degree := d)) == UsersComplete(m)
    ensures forall q :: Touching(m.(degree := d), q) == Touching(m, q)
  {
    assert forall csm :: Links(m.(degree := d), csm) == Links(m, csm);
  }

  lemma WithConstraintDegrees(s: Snapshot, o: Snapshot, c: nat)
    requires KeysAgree(s) && UsersSound(s) && OwnersLive(s) && DegreesCount(s) && KeysAgree(o)
    requires c !in s.constraints && MethodsOf(o, c) !! s.owner.Keys
    ensures DegreesCount(WithConstraint(s, o, c))
  {
    var m := CopiedMethods(s, o, c);
    var linked := LinkedTo(o, c);
    var d := Raised(Padded(s.degree, linked), linked);
    CopiedMethodsInto(s, o, c);
    DegreesApart(m, d);
    forall q | q in d
      ensures d[q] == |Touching(m, q)|
    {
      CopiedDegree(s, o, c, m, q);
    }
    assert DegreesCount(m.(degree := d));
  }

  /** The degree a property has after the copy counts the constraints touching it. */
  lemma CopiedDegree(s: Snapshot, o: Snapshot, c: nat, m: Snapshot, q: nat)
    requires KeysAgree(s) && UsersSound(s) && OwnersLive(s) && DegreesCount(s)
    requires c !in s.constraints && CopiedInto(s, o, c, m)
    requires q in Raised(Padded(s.degree, LinkedTo(o, c)), LinkedTo(o, c))
    ensures Raised(Padded(s.degree, LinkedTo(o, c)), LinkedTo(o, c))[q] == |Touching(m, q)|
  {
    var linked := LinkedTo(o, c);
    var before := Touching(s, q);
    var was := if q in s.degree then s.degree[q] else 0;
    assert |Touching(m, q)| == |before| + (if q in linked then 1 else 0) by {
      TouchingCopied(s, o, c, m, q);
      assert c !in before;
    }
    assert was == |before| by {
      assert q !in s.degree ==> before == {};
    }
    RaisedPaddedAt(s.degree, linked, q);
  }

  /** A user of a property is a live method that mentions it. */
  lemma UserLinks(s: Snapshot, p: nat, csm: nat)
    requires UsersSound(s)
    requires p in s.users && csm in s.users[p]
    ensures csm in s.owner && p in Links(s, csm)
  {
  }

  /** A property a live method mentions lists that method as a user. */
  lemma LinkedUser(s: Snapshot, csm: nat, p: nat)
    requires UsersComplete(s)
    requires csm in s.owner && p in Links(s, csm)
    ensures p in s.users && csm in s.users[p]
  {
  }

  lemma CopiedUserSound(s: Snapshot, o: Snapshot, c: nat, t: Snapshot, p: nat, csm: nat)
    requires UsersSound(s) && CopiedInto(s, o, c, t)
    requires p in t.users && csm in t.users[p]
    ensures csm in t.owner && p in Links(t, csm)
  {
    if p in s.users && csm in s.users[p] {
      UserLinks(s, p, csm);
    } else {
      assert csm in UsersIn(o, MethodsOf(o, c), p);
    }
  }

  lemma CopiedUserComplete(s: Snapshot, o: Snapshot, c: nat, t: Snapshot, csm: nat, p: nat)
    requires UsersComplete(s) && CopiedInto(s, o, c, t)
    requires csm in t.owner && p in Links(t, csm)
    ensures p in t.users && csm in t.users[p]
  {
    if csm in MethodsOf(o, c) {
      assert csm in UsersIn(o, MethodsOf(o, c), p);
      UsersInLinked(o, c, p);
    } else {
      LinkedUser(s, csm, p);
    }
  }

  lemma CopiedSound(s: Snapshot, o: Snapshot, c: nat, t: Snapshot)
    requires UsersSound(s) && CopiedInto(s, o, c, t)
    ensures UsersSound(t)
  {
    forall p, csm | p in t.users && csm in t.users[p]
      ensures csm in t.owner && p in Links(t, csm)
    {
      CopiedUserSound(s, o, c, t, p, csm);
    }
  }

  lemma CopiedComplete(s: Snapshot, o: Snapshot, c: nat, t: Snapshot)
    requires UsersComplete(s) && CopiedInto(s, o, c, t)
    ensures UsersComplete(t)
  {
    forall csm, p | csm in t.owner && p in Links(t, csm)
      ensures p in t.users && csm in t.users[p]
    {
      CopiedUserComplete(s, o, c, t, csm, p);
    }
  }

  /** The methods holding `p` among their inputs or outputs are the users of `p`. */
  lemma RemovedUsersCover(s: Snapshot, p: nat)
    requires KeysAgree(s) && UsersComplete(s) && p in s.users
    ensures forall csm :: csm in s.inputs && p in s.inputs[csm] ==> csm in s.users[p]
    ensures forall csm :: csm in s.outputs && p in s.outputs[csm] ==> csm in s.users[p]
    ensures forall csm :: csm in s.outputDegree && csm in s.outputs && p in s.outputs[csm] ==> csm in s.users[p]
  {
    forall csm | csm in s.owner && p in Links(s, csm)
      ensures csm in s.users[p]
    {
      LinkedUser(s, csm, p);
    }
  }

  // The steps the edit loops take.

  /** Going over one more method adds its links. */
  lemma LinksOfStep(s: Snapshot, done: set<nat>, csm: nat)
    ensures LinksOf(s, done + {csm}) == LinksOf(s, done) + Links(s, csm)
  {
    forall p | p in Links(s, csm)
      ensures p in LinksOf(s, done + {csm})
    {
      assert csm in done + {csm};
    }
  }

  lemma UsersInStep(o: Snapshot, done: set<nat>, csm: nat, p: nat)
    ensures UsersIn(o, done + {csm}, p) == UsersIn(o, done, p) + (if p in Links(o, csm) then {csm} else {})
  {
  }

  /** One more copied method joins the users of the properties it mentions. */
  lemma AttachedAllStep(u: map<nat, set<nat>>, o: Snapshot, done: set<nat>, csm: nat)
    ensures Attached(AttachedAll(u, o, done), csm, Links(o, csm)) == AttachedAll(u, o, done + {csm})
  {
    var a := Attached(AttachedAll(u, o, done), csm, Links(o, csm));
    var b := AttachedAll(u, o, done + {csm});
    assert a.Keys == b.Keys by {
      LinksOfStep(o, done, csm);
    }
    forall p | p in a
      ensures a[p] == b[p]
    {
      AttachedAllStepAt(u, o, done, csm, p);
    }
  }

  lemma AttachedAllStepAt(u: map<nat, set<nat>>, o: Snapshot, done: set<nat>, csm: nat, p: nat)
    requires p in Attached(AttachedAll(u, o, done), csm, Links(o, csm))
    requires p in AttachedAll(u, o, done + {csm})
    ensures Attached(AttachedAll(u, o, done), csm, Links(o, csm))[p] == AttachedAll(u, o, done + {csm})[p]
  {
    UsersInStep(o, done, csm, p);
  }

  /** Before any method is copied, nothing is attached. */
  lemma AttachedAllNone(u: map<nat, set<nat>>, o: Snapshot)
    ensures AttachedAll(u, o, {}) == u
  {
    var a := AttachedAll(u, o, {});
    assert LinksOf(o, {}) == {};
    forall p | p in u
      ensures a[p] == u[p]
    {
      assert UsersIn(o, {}, p) == {};
    }
  }

  /** A removed method is detached from exactly the properties it mentioned. */
  lemma DetachOne(s: Snapshot, done: set<nat>, csm: nat)
    requires UsersSound(s)
    ensures Detached(Dropped(s.users, done), csm, Links(s, csm)) == Dropped(s.users, done + {csm})
  {
    forall p | p in s.users && csm in s.users[p]
      ensures p in Links(s, csm)
    {
      UserLinks(s, p, csm);
    }
    DroppedStep(s.users, done, csm, Links(s, csm));
  }

  // The graph of a task.

  /** The methods of `task` among the first `k` that mention property `p`. */
  function MethodsMentioning(task: Task, k: nat, p: nat): set<nat>
    requires k <= |task.csms|
  {
    set i | 0 <= i < k && p in Domain(task.csms[i])
  }

  /** The constraints owning a method among the first `k` that mentions property `p`. */
  function ConstraintsMentioning(task: Task, k: nat, p: nat): set<nat>
    requires k <= |task.csms|
  {
    set i | 0 <= i < k && p in Domain(task.csms[i]) :: task.csms[i].constraintId
  }

  /**
   * The graph built from a task: every constraint and property is live;
   * method `i` is owned by its constraint, has its listed outputs' count as
   * output degree, and its listed ids as inputs and outputs; a property's
   * users are the methods mentioning it and its degree the number of
   * distinct constraints they belong to.
   */
  function FromTask(task: Task): Snapshot {
    var n := |task.csms|;
    Snapshot(
      Range(task.constraintsCount),
      map p | p in Range(task.propertiesCount) :: |ConstraintsMentioning(task, n, p)|,
      map i | i in Range(n) :: |task.csms[i].outputs|,
      map i | i in Range(n) :: task.csms[i].constraintId,
      map p | p in Range(task.propertiesCount) :: MethodsMentioning(task, n, p),
      map i | i in Range(n) :: Elements(task.csms[i].inputs),
      map i | i in Range(n) :: Elements(task.csms[i].outputs))
  }

  /** Every constraint and property id a method of the task uses is below the task's counts. */
  ghost predicate IdsInRange(task: Task) {
    forall i :: 0 <= i < |task.csms| ==>
      && task.csms[i].constraintId < task.constraintsCount
      && forall p :: p in Domain(task.csms[i]) ==> p < task.propertiesCount
  }

  /** A graph freshly built from a task whose ids are in range is coherent. */
  lemma FromTaskCoherent(task: Task)
    requires IdsInRange(task)
    ensures Coherent(FromTask(task))
  {
    var s := FromTask(task);
    assert KeysAgree(s);
    assert OwnersLive(s);
    FromTaskUsers(task);
    assert OutputsBounded(s) by {
      forall i | i in s.outputs && i in s.outputDegree
        ensures |s.outputs[i]| <= s.outputDegree[i]
      {
        ElementsCard(task.csms[i].outputs);
      }
    }
    assert DegreesCount(s) by {
      forall p | p in s.degree
        ensures s.degree[p] == |Touching(s, p)|
      {
        FromTaskTouching(task, p);
      }
    }
  }

  lemma FromTaskLinks(task: Task, i: nat)
    requires i < |task.csms|
    ensures Links(FromTask(task), i) == Domain(task.csms[i])
  {
  }

  lemma FromTaskUsers(task: Task)
    requires IdsInRange(task)
    ensures UsersSound(FromTask(task)) && UsersComplete(FromTask(task))
  {
    var s := FromTask(task);
    forall p, i | p in s.users && i in s.users[p]
      ensures i in s.owner && p in Links(s, i)
    {
      FromTaskLinks(task, i);
    }
    forall i, p | i in s.owner && p in Links(s, i)
      ensures p in s.users && i in s.users[p]
    {
      FromTaskLinks(task, i);
    }
  }

  lemma FromTaskTouching(task: Task, p: nat)
    requires p < task.propertiesCount
    ensures Touching(FromTask(task), p) == ConstraintsMentioning(task, |task.csms|, p)
  {
    var s := FromTask(task);
    var n := |task.csms|;
    forall x | x in ConstraintsMentioning(task, n, p)
      ensures x in Touching(s, p)
    {
      var i :| 0 <= i < n && p in Domain(task.csms[i]) && task.csms[i].constraintId == x;
      assert i in s.users[p] && i in s.owner;
    }
  }
}
