/**
 * What the two sieves of the quick-plan planner leave behind, stated over
 * graph contents: `Sieved` relates a graph to what sieving it down has left
 * and to the methods it picked, `PartOf` says a graph is made of whole
 * constraints of another, and each step of the sieves is a lemma here.
 */
module SieveSteps {
  import opened SetFacts
  import opened Tasks
  import opened TableEdits
  import opened GraphSnapshots

  /** The constraints owning the methods of `ids` in `s`. */
  function OwnersOf(s: Snapshot, ids: seq<nat>): set<nat> {
    set i | 0 <= i < |ids| && ids[i] in s.owner :: s.owner[ids[i]]
  }

  /** The methods of `s` owned by a constraint of `cs`, with their owners. */
  function OwnersWithin(s: Snapshot, cs: set<nat>): map<nat, nat> {
    map csm | csm in s.owner && s.owner[csm] in cs :: s.owner[csm]
  }

  /** The properties method `csm` writes in `s`, or none when it is not there. */
  function Writes(s: Snapshot, csm: nat): set<nat> {
    if csm in s.outputs then s.outputs[csm] else {}
  }

  /**
   * Sieving `s` down to `t` picked the methods `picked`, in this order:
   * each is a method of `s`, no two belong to the same constraint, and no
   * property a picked method writes is left in `t`; the constraints left are
   * those of `s` but the picked methods' owners, each still with all its
   * methods; a method left still reads and writes what it had in `s` that is
   * still live; and the three records of `PickedInOrder`, `PicksUnmentioned`
   * and `GoneAlone` below, which say that every pick wrote only properties
   * that were already gone when it was picked.
   */
  ghost predicate Sieved(s: Snapshot, t: Snapshot, picked: seq<nat>) {
    && Picks(s, t, picked)
    && Remains(s, t, picked)
    && PickedInOrder(s, picked)
    && PicksUnmentioned(s, t, picked)
    && GoneAlone(s, t)
  }

  /** The picked methods are methods of `s` of distinct constraints, writing nothing live in `t`. */
  ghost predicate Picks(s: Snapshot, t: Snapshot, picked: seq<nat>) {
    && (forall i :: 0 <= i < |picked| ==>
          picked[i] in s.owner && picked[i] in s.outputs && s.outputs[picked[i]] !! t.degree.Keys)
    && (forall i, j :: 0 <= i < j < |picked| ==> s.owner[picked[i]] != s.owner[picked[j]])
  }

  /**
   * What is left in `t`: the constraints of `s` but the picked methods'
   * owners, with all their methods, reading and writing what is still live.
   */
  ghost predicate Remains(s: Snapshot, t: Snapshot, picked: seq<nat>) {
    && t.constraints == s.constraints - OwnersOf(s, picked)
    && t.owner == OwnersWithin(s, t.constraints)
    && t.degree.Keys <= s.degree.Keys
    && (forall csm :: csm in t.owner ==>
          csm in t.outputs && csm in s.outputs && t.outputs[csm] == s.outputs[csm] * t.degree.Keys)
    && (forall csm :: csm in t.owner ==>
          csm in t.inputs && csm in s.inputs && t.inputs[csm] == s.inputs[csm] * t.degree.Keys)
  }

  /** No method of `picked` mentions, in `s`, a property that a method picked before it writes. */
  ghost predicate PickedInOrder(s: Snapshot, picked: seq<nat>) {
    forall i, j :: 0 <= i < j < |picked| ==> Writes(s, picked[i]) !! Links(s, picked[j])
  }

  /** No method left in `t` mentions, in `s`, a property that a picked method writes. */
  ghost predicate PicksUnmentioned(s: Snapshot, t: Snapshot, picked: seq<nat>) {
    forall i, m :: 0 <= i < |picked| && m in t.owner ==> Writes(s, picked[i]) !! Links(s, m)
  }

  /**
   * A property gone from `t` is mentioned, in `s`, by the methods of at most
   * one constraint left in `t`: it went with degree 1, and only constraints
   * go afterwards.
   */
  ghost predicate GoneAlone(s: Snapshot, t: Snapshot) {
    forall p, m1, m2 :: m1 in t.owner && m2 in t.owner && p !in t.degree && p in Links(s, m1) && p in Links(s, m2) ==>
      t.owner[m1] == t.owner[m2]
  }

  /**
   * Neither sieve step applies to `t`: it has no methods, or no property of
   * degree 1 and no method without live outputs.
   */
  ghost predicate Stuck(t: Snapshot) {
    || t.owner == map[]
    || (&& (forall p :: p in t.degree ==> t.degree[p] != 1)
        && (forall csm :: csm in t.outputDegree ==> t.outputDegree[csm] != 0))
  }

  /** Before the first step, nothing is picked and nothing is gone. */
  lemma SievedNone(s: Snapshot)
    requires Coherent(s)
    ensures Sieved(s, s, [])
  {
    assert OwnersOf(s, []) == {};
    assert s.owner == OwnersWithin(s, s.constraints);
    forall csm | csm in s.owner
      ensures s.outputs[csm] == s.outputs[csm] * s.degree.Keys
      ensures s.inputs[csm] == s.inputs[csm] * s.degree.Keys
    {
      LinksLive(s, csm);
    }
    assert GoneAlone(s, s) by {
      forall p, m1, m2 | m1 in s.owner && m2 in s.owner && p !in s.degree && p in Links(s, m1) && p in Links(s, m2)
        ensures false
      {
        LinksLive(s, m1);
      }
    }
  }

  /** What a method of a coherent graph mentions is live. */
  lemma LinksLive(s: Snapshot, csm: nat)
    requires Coherent(s) && csm in s.owner
    ensures Links(s, csm) <= s.degree.Keys
  {
    forall p | p in Links(s, csm)
      ensures p in s.degree
    {
      LinkedUser(s, csm, p);
    }
  }

  /**
   * Removing a live property keeps the record: nothing is picked, one
   * property fewer is live, and the methods lose it from their outputs.
   */
  lemma SievedProperty(s: Snapshot, t: Snapshot, picked: seq<nat>, p: nat, u: Snapshot)
    requires Sieved(s, t, picked) && UsersComplete(t) && DegreesCount(t) && KeysAgree(t)
    requires p in t.degree && t.degree[p] == 1
    requires u.constraints == t.constraints && u.owner == t.owner && u.degree.Keys == t.degree.Keys - {p}
    requires forall csm :: csm in t.owner ==> csm in u.outputs && u.outputs[csm] == t.outputs[csm] - {p}
    requires forall csm :: csm in t.owner ==> csm in u.inputs && u.inputs[csm] == t.inputs[csm] - {p}
    ensures Sieved(s, u, picked)
  {
    RemainsProperty(s, t, picked, p, u);
    forall m1, m2 | m1 in t.owner && m2 in t.owner && p in Links(s, m1) && p in Links(s, m2)
      ensures t.owner[m1] == t.owner[m2]
    {
      OnlyToucher(s, t, picked, p, m1);
      OnlyToucher(s, t, picked, p, m2);
    }
  }

  /** Removing a live property leaves the same methods, reading and writing what is still live. */
  lemma RemainsProperty(s: Snapshot, t: Snapshot, picked: seq<nat>, p: nat, u: Snapshot)
    requires Remains(s, t, picked)
    requires u.constraints == t.constraints && u.owner == t.owner && u.degree.Keys == t.degree.Keys - {p}
    requires forall csm :: csm in t.owner ==> csm in u.outputs && u.outputs[csm] == t.outputs[csm] - {p}
    requires forall csm :: csm in t.owner ==> csm in u.inputs && u.inputs[csm] == t.inputs[csm] - {p}
    ensures Remains(s, u, picked)
  {
    forall csm | csm in u.owner
      ensures u.outputs[csm] == s.outputs[csm] * u.degree.Keys
      ensures u.inputs[csm] == s.inputs[csm] * u.degree.Keys
    {
    }
  }

  /** A method left that mentions, in `s`, a live property of degree 1 belongs to the one constraint mentioning it. */
  lemma OnlyToucher(s: Snapshot, t: Snapshot, picked: seq<nat>, p: nat, m: nat)
    requires Sieved(s, t, picked) && UsersComplete(t) && DegreesCount(t) && KeysAgree(t)
    requires p in t.degree && t.degree[p] == 1
    requires m in t.owner && p in Links(s, m)
    ensures Touching(t, p) == {t.owner[m]}
  {
    assert p in Links(t, m);
    LinkedUser(t, m, p);
    assert t.owner[m] in Touching(t, p);
    OneElement(Touching(t, p), t.owner[m]);
  }

  /** The tables of `WithoutProperty` a sieve record looks at. */
  lemma WithoutPropertyFields(t: Snapshot, p: nat)
    requires KeysAgree(t) && OutputsBounded(t) && p in t.degree
    ensures var u := WithoutProperty(t, p);
      && u.constraints == t.constraints && u.owner == t.owner && u.degree.Keys == t.degree.Keys - {p}
      && (forall csm :: csm in t.owner ==> csm in u.outputs && u.outputs[csm] == t.outputs[csm] - {p})
      && (forall csm :: csm in t.owner ==> csm in u.inputs && u.inputs[csm] == t.inputs[csm] - {p})
  {
  }

  /** The owners of one more picked method. */
  lemma OwnersOfNext(s: Snapshot, picked: seq<nat>, csm: nat)
    requires csm in s.owner
    ensures OwnersOf(s, picked + [csm]) == OwnersOf(s, picked) + {s.owner[csm]}
  {
    var a := OwnersOf(s, picked + [csm]);
    var b := OwnersOf(s, picked) + {s.owner[csm]};
    forall c | c in a
      ensures c in b
    {
      var i :| 0 <= i < |picked + [csm]| && (picked + [csm])[i] in s.owner && c == s.owner[(picked + [csm])[i]];
      if i < |picked| {
        assert (picked + [csm])[i] == picked[i];
      }
    }
    forall c | c in b
      ensures c in a
    {
      if c == s.owner[csm] {
        assert (picked + [csm])[|picked|] == csm;
      } else {
        var i :| 0 <= i < |picked| && picked[i] in s.owner && c == s.owner[picked[i]];
        assert (picked + [csm])[i] == picked[i];
      }
    }
  }

  /**
   * Removing the constraint of a method without live outputs picks that
   * method: it writes no live property, and its constraint differs from
   * those of the methods picked before, which are gone.
   */
  lemma SievedConstraint(s: Snapshot, t: Snapshot, picked: seq<nat>, csm: nat, u: Snapshot)
    requires KeysAgree(t) && OwnersLive(t) && OutputsBounded(t) && Sieved(s, t, picked)
    requires csm in t.outputDegree && t.outputDegree[csm] == 0
    requires csm in t.owner
    requires u.constraints == t.constraints - {t.owner[csm]}
    requires u.owner == t.owner - MethodsOf(t, t.owner[csm]) && u.degree.Keys == t.degree.Keys
    requires forall m :: m in u.owner ==> m in u.outputs && u.outputs[m] == t.outputs[m]
    requires forall m :: m in u.owner ==> m in u.inputs && u.inputs[m] == t.inputs[m]
    ensures Sieved(s, u, picked + [csm])
  {
    PickedNext(s, t, picked, csm);
    LeftNext(s, t, picked, t.owner[csm], u);
    PickInOrder(s, t, picked, csm, u);
  }

  /**
   * The records of the pick order, one pick more: what the picked method
   * writes is gone from `t` and mentioned by no other constraint left, and
   * no method picked before it wrote anything it mentions.
   */
  lemma PickInOrder(s: Snapshot, t: Snapshot, picked: seq<nat>, csm: nat, u: Snapshot)
    requires Sieved(s, t, picked)
    requires csm in t.owner && csm in s.outputs && s.outputs[csm] !! t.degree.Keys
    requires u.owner == t.owner - MethodsOf(t, t.owner[csm]) && u.degree.Keys == t.degree.Keys
    ensures PickedInOrder(s, picked + [csm]) && PicksUnmentioned(s, u, picked + [csm]) && GoneAlone(s, u)
  {
    var next := picked + [csm];
    forall i, j | 0 <= i < j < |next|
      ensures Writes(s, next[i]) !! Links(s, next[j])
    {
      assert next[i] == picked[i];
      if j < |picked| {
        assert next[j] == picked[j];
      }
    }
    forall i, m | 0 <= i < |next| && m in u.owner
      ensures Writes(s, next[i]) !! Links(s, m)
    {
      if i < |picked| {
        assert next[i] == picked[i];
      } else {
        forall p | p in Writes(s, csm)
          ensures p !in Links(s, m)
        {
          assert p in Links(s, csm);
        }
      }
    }
  }

  /** The tables of `WithoutConstraint` a sieve record looks at. */
  lemma WithoutConstraintFields(t: Snapshot, c: nat)
    requires UsersComplete(t) && DegreesCount(t)
    ensures var u := WithoutConstraint(t, c);
      && u.constraints == t.constraints - {c}
      && u.owner == t.owner - MethodsOf(t, c) && u.degree.Keys == t.degree.Keys
      && (forall m :: m in u.owner && m in t.outputs ==> m in u.outputs && u.outputs[m] == t.outputs[m])
      && (forall m :: m in u.owner && m in t.inputs ==> m in u.inputs && u.inputs[m] == t.inputs[m])
  {
  }

  /** The methods picked, one more: methods of `s` writing nothing live, of distinct constraints. */
  lemma PickedNext(s: Snapshot, t: Snapshot, picked: seq<nat>, csm: nat)
    requires KeysAgree(t) && OwnersLive(t) && OutputsBounded(t) && Sieved(s, t, picked)
    requires csm in t.outputDegree && t.outputDegree[csm] == 0
    ensures csm in t.owner && csm in s.owner && s.owner[csm] == t.owner[csm]
    ensures forall i :: 0 <= i < |picked + [csm]| ==>
      (picked + [csm])[i] in s.owner && (picked + [csm])[i] in s.outputs &&
      s.outputs[(picked + [csm])[i]] !! t.degree.Keys
    ensures forall i, j :: 0 <= i < j < |picked + [csm]| ==> s.owner[(picked + [csm])[i]] != s.owner[(picked + [csm])[j]]
    ensures OwnersOf(s, picked + [csm]) == OwnersOf(s, picked) + {t.owner[csm]}
  {
    PickFacts(s, t, picked, csm);
    PickedList(s, picked, csm, t.degree.Keys);
  }

  lemma PickedList(s: Snapshot, picked: seq<nat>, csm: nat, live: set<nat>)
    requires forall i :: 0 <= i < |picked| ==>
      picked[i] in s.owner && picked[i] in s.outputs && s.outputs[picked[i]] !! live
    requires forall i, j :: 0 <= i < j < |picked| ==> s.owner[picked[i]] != s.owner[picked[j]]
    requires csm in s.owner && csm in s.outputs && s.outputs[csm] !! live
    requires s.owner[csm] !in OwnersOf(s, picked)
    ensures forall i :: 0 <= i < |picked + [csm]| ==>
      (picked + [csm])[i] in s.owner && (picked + [csm])[i] in s.outputs && s.outputs[(picked + [csm])[i]] !! live
    ensures forall i, j :: 0 <= i < j < |picked + [csm]| ==> s.owner[(picked + [csm])[i]] != s.owner[(picked + [csm])[j]]
    ensures OwnersOf(s, picked + [csm]) == OwnersOf(s, picked) + {s.owner[csm]}
  {
    OwnersOfNext(s, picked, csm);
    var next := picked + [csm];
    forall i | 0 <= i < |next|
      ensures next[i] in s.owner && next[i] in s.outputs && s.outputs[next[i]] !! live
    {
      if i < |picked| {
        assert next[i] == picked[i];
      }
    }
    forall i, j | 0 <= i < j < |next|
      ensures s.owner[next[i]] != s.owner[next[j]]
    {
      assert next[i] == picked[i];
      if j == |picked| {
        assert s.owner[picked[i]] in OwnersOf(s, picked);
      } else {
        assert next[j] == picked[j];
      }
    }
  }

  /** A method of `t` without live outputs is a method of `s` of a constraint not yet picked, writing nothing live. */
  lemma PickFacts(s: Snapshot, t: Snapshot, picked: seq<nat>, csm: nat)
    requires KeysAgree(t) && OwnersLive(t) && OutputsBounded(t) && Sieved(s, t, picked)
    requires csm in t.outputDegree && t.outputDegree[csm] == 0
    ensures csm in t.owner && csm in s.owner && csm in s.outputs && s.owner[csm] == t.owner[csm]
    ensures s.owner[csm] !in OwnersOf(s, picked)
    ensures s.outputs[csm] !! t.degree.Keys
  {
    assert t.outputs[csm] == {} by {
      assert |t.outputs[csm]| <= 0;
    }
    assert csm in t.owner && t.outputs[csm] == s.outputs[csm] * t.degree.Keys;
    forall p | p in s.outputs[csm]
      ensures p !in t.degree.Keys
    {
      assert p !in t.outputs[csm];
    }
  }

  /** What is left once constraint `c` is gone: its methods go, the others keep their owners and outputs. */
  lemma LeftNext(s: Snapshot, t: Snapshot, picked: seq<nat>, c: nat, u: Snapshot)
    requires Sieved(s, t, picked)
    requires u.constraints == t.constraints - {c}
    requires u.owner == t.owner - MethodsOf(t, c) && u.degree.Keys == t.degree.Keys
    requires forall m :: m in u.owner ==> m in u.outputs && u.outputs[m] == t.outputs[m]
    requires forall m :: m in u.owner ==> m in u.inputs && u.inputs[m] == t.inputs[m]
    ensures u.constraints == s.constraints - (OwnersOf(s, picked) + {c})
    ensures u.owner == OwnersWithin(s, u.constraints)
    ensures u.degree.Keys <= s.degree.Keys
    ensures forall m :: m in u.owner ==> m in u.outputs && m in s.outputs && u.outputs[m] == s.outputs[m] * u.degree.Keys
    ensures forall m :: m in u.owner ==> m in u.inputs && m in s.inputs && u.inputs[m] == s.inputs[m] * u.degree.Keys
  {
    OwnersWithinLess(s, t, t.constraints, c);
  }

  /** The methods owned within `cs`, less those of `c`, are the methods owned within `cs - {c}`. */
  lemma OwnersWithinLess(s: Snapshot, t: Snapshot, cs: set<nat>, c: nat)
    requires t.owner == OwnersWithin(s, cs)
    ensures t.owner - MethodsOf(t, c) == OwnersWithin(s, cs - {c})
  {
  }

  /**
   * `sub` is made of whole constraints of `g`: some of its constraints, each
   * with all the methods `g` has for it, reading and writing the same
   * properties.
   */
  ghost predicate PartOf(sub: Snapshot, g: Snapshot) {
    && sub.constraints <= g.constraints
    && sub.owner == OwnersWithin(g, sub.constraints)
    && (forall csm :: csm in sub.owner ==> csm in sub.outputs && csm in g.outputs && sub.outputs[csm] == g.outputs[csm])
    && (forall csm :: csm in sub.owner ==> csm in sub.inputs && csm in g.inputs && sub.inputs[csm] == g.inputs[csm])
  }

  lemma EmptyPartOf(g: Snapshot)
    ensures PartOf(EmptySnapshot(), g)
  {
    assert OwnersWithin(g, {}) == map[];
  }

  /**
   * Copying a constraint of `g` that `sub` lacks into `sub` gives a graph
   * made of whole constraints of `g` again.
   */
  lemma CopiedPartOf(sub: Snapshot, g: Snapshot, c: nat, t: Snapshot)
    requires PartOf(sub, g) && g.owner.Keys <= g.outputs.Keys && g.owner.Keys <= g.inputs.Keys
    requires c in g.constraints && c !in sub.constraints
    requires t.constraints == sub.constraints + {c} && t.owner == Assigned(sub.owner, MethodsOf(g, c), c)
    requires forall m :: m in t.owner ==>
      m in t.outputs && t.outputs[m] == if m in MethodsOf(g, c) then g.outputs[m] else sub.outputs[m]
    requires forall m :: m in t.owner ==>
      m in t.inputs && t.inputs[m] == if m in MethodsOf(g, c) then g.inputs[m] else sub.inputs[m]
    ensures PartOf(t, g)
  {
    AssignedWithin(g, sub.constraints, c);
  }

  /** The tables of `WithConstraint` a record of whole constraints looks at. */
  lemma WithConstraintFields(s: Snapshot, o: Snapshot, c: nat)
    requires KeysAgree(o) && KeysAgree(s)
    ensures var t := WithConstraint(s, o, c);
      && t.constraints == s.constraints + {c} && t.owner == Assigned(s.owner, MethodsOf(o, c), c)
      && (forall m :: m in t.owner ==>
            m in t.outputs && t.outputs[m] == if m in MethodsOf(o, c) then o.outputs[m] else s.outputs[m])
      && (forall m :: m in t.owner ==>
            m in t.inputs && t.inputs[m] == if m in MethodsOf(o, c) then o.inputs[m] else s.inputs[m])
  {
  }

  /** No method of `sub` belongs to a constraint it lacks. */
  lemma CopiedDisjoint(sub: Snapshot, g: Snapshot, c: nat)
    requires PartOf(sub, g) && c !in sub.constraints
    ensures MethodsOf(g, c) !! sub.owner.Keys
  {
    forall csm | csm in sub.owner
      ensures csm !in MethodsOf(g, c)
    {
      assert sub.owner[csm] == g.owner[csm] && sub.owner[csm] in sub.constraints;
    }
  }

  /** Giving the methods of `c` in `g` to `c` extends the methods owned within `cs` to those within `cs + {c}`. */
  lemma AssignedWithin(g: Snapshot, cs: set<nat>, c: nat)
    ensures Assigned(OwnersWithin(g, cs), MethodsOf(g, c), c) == OwnersWithin(g, cs + {c})
  {
  }

  /**
   * The methods picked sieving `s` down to `t`, followed by those picked
   * sieving a part `sub` of `t` down to `e`, are in pick order: none of them
   * mentions, in `s`, a property that a method before it in the list writes.
   */
  lemma DownThenUpInOrder(s: Snapshot, t: Snapshot, down: seq<nat>, sub: Snapshot, e: Snapshot, up: seq<nat>)
    requires Sieved(s, t, down) && PartOf(sub, t) && Sieved(sub, e, up)
    ensures PickedInOrder(s, down + up)
  {
    forall a, b | 0 <= a < b < |up|
      ensures Writes(s, up[a]) !! Links(s, up[b])
    {
      UpPairInOrder(s, t, down, sub, e, up, a, b);
    }
    forall i, k | 0 <= i < |down| && 0 <= k < |up|
      ensures Writes(s, down[i]) !! Links(s, up[k])
    {
      assert up[k] in sub.owner;
    }
    ConcatInOrder(s, down, up);
  }

  /** Two lists in pick order, none of the second mentioning what one of the first writes, are in order together. */
  lemma ConcatInOrder(s: Snapshot, first: seq<nat>, second: seq<nat>)
    requires PickedInOrder(s, first) && PickedInOrder(s, second)
    requires forall i, k :: 0 <= i < |first| && 0 <= k < |second| ==> Writes(s, first[i]) !! Links(s, second[k])
    ensures PickedInOrder(s, first + second)
  {
    var all := first + second;
    forall i, j | 0 <= i < j < |all|
      ensures Writes(s, all[i]) !! Links(s, all[j])
    {
      if j < |first| {
        assert all[i] == first[i] && all[j] == first[j];
      } else if i < |first| {
        assert all[i] == first[i] && all[j] == second[j - |first|];
      } else {
        assert all[i] == second[i - |first|] && all[j] == second[j - |first|];
      }
    }
  }

  /**
   * Two methods picked sieving the part `sub` up: the later one mentions
   * nothing the earlier one writes. A live property would contradict the
   * order of the upward picks; a property gone from `t` is mentioned by one
   * constraint left only, while the two picks belong to two.
   */
  lemma UpPairInOrder(s: Snapshot, t: Snapshot, down: seq<nat>, sub: Snapshot, e: Snapshot, up: seq<nat>, a: nat, b: nat)
    requires Sieved(s, t, down) && PartOf(sub, t) && Sieved(sub, e, up)
    requires a < b < |up|
    ensures Writes(s, up[a]) !! Links(s, up[b])
  {
    var m1, m2 := up[a], up[b];
    assert m1 in sub.owner && m2 in sub.owner && sub.owner[m1] != sub.owner[m2];
    assert Writes(sub, m1) !! Links(sub, m2);
    forall p | p in Writes(s, m1)
      ensures p !in Links(s, m2)
    {
      if p in t.degree {
        assert p in Writes(sub, m1);
      } else {
        assert p in Links(s, m1);
      }
    }
  }
}
