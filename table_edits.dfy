/**
 * Edits of the hash tables a constraint graph is made of, as functions on
 * maps, with the step lemmas the edit loops of the graph rely on: each loop
 * of the graph walks a set of keys, and its state after the keys of `done`
 * is one of these functions applied to the state before the loop.
 */
module TableEdits {

  /** The entries of the keys of `done` in table `t` lose `p`. */
  function Strip(t: map<nat, set<nat>>, p: nat, done: set<nat>): (r: map<nat, set<nat>>)
    ensures r.Keys == t.Keys
  {
    map k | k in t :: if k in done then t[k] - {p} else t[k]
  }

  /** Every entry of table `t` loses `p`. */
  function Removed(t: map<nat, set<nat>>, p: nat): (r: map<nat, set<nat>>)
    ensures r.Keys == t.Keys
  {
    map k | k in t :: t[k] - {p}
  }

  lemma StripNone(t: map<nat, set<nat>>, p: nat)
    ensures Strip(t, p, {}) == t
  {
  }

  lemma StripStep(t: map<nat, set<nat>>, p: nat, done: set<nat>, k: nat)
    requires k in t
    ensures Strip(t, p, done + {k}) == Strip(t, p, done)[k := t[k] - {p}]
  {
  }

  /** Once every entry holding `p` is done, `p` is gone from the whole table. */
  lemma StripCovers(t: map<nat, set<nat>>, p: nat, done: set<nat>)
    requires forall k :: k in t && p in t[k] ==> k in done
    ensures Strip(t, p, done) == Removed(t, p)
  {
    forall k | k in t
      ensures Strip(t, p, done)[k] == Removed(t, p)[k]
    {
      if k !in done {
        assert p !in t[k];
      }
    }
  }

  /** Each key counts at least one for every output (of `outs`) equal to `p`. */
  ghost predicate CountsOutput(d: map<nat, nat>, outs: map<nat, set<nat>>, p: nat) {
    forall k :: k in d && k in outs && p in outs[k] ==> d[k] > 0
  }

  /** The counts of the keys of `done` whose `outs` entry holds `p` go down by one. */
  function Lower(d: map<nat, nat>, outs: map<nat, set<nat>>, p: nat, done: set<nat>): (r: map<nat, nat>)
    requires CountsOutput(d, outs, p)
    ensures r.Keys == d.Keys
  {
    map k | k in d :: if k in done && k in outs && p in outs[k] then d[k] - 1 else d[k]
  }

  /** The counts of the keys whose `outs` entry holds `p` go down by one. */
  function LowerAll(d: map<nat, nat>, outs: map<nat, set<nat>>, p: nat): (r: map<nat, nat>)
    requires CountsOutput(d, outs, p)
    ensures r.Keys == d.Keys
  {
    map k | k in d :: if k in outs && p in outs[k] then d[k] - 1 else d[k]
  }

  lemma LowerNone(d: map<nat, nat>, outs: map<nat, set<nat>>, p: nat)
    requires CountsOutput(d, outs, p)
    ensures Lower(d, outs, p, {}) == d
  {
  }

  lemma LowerStep(d: map<nat, nat>, outs: map<nat, set<nat>>, p: nat, done: set<nat>, k: nat)
    requires CountsOutput(d, outs, p) && k in d && k in outs && k !in done
    ensures Lower(d, outs, p, done + {k}) ==
      if p in outs[k] then Lower(d, outs, p, done)[k := d[k] - 1] else Lower(d, outs, p, done)
  {
  }

  lemma LowerCovers(d: map<nat, nat>, outs: map<nat, set<nat>>, p: nat, done: set<nat>)
    requires CountsOutput(d, outs, p)
    requires forall k :: k in d && k in outs && p in outs[k] ==> k in done
    ensures Lower(d, outs, p, done) == LowerAll(d, outs, p)
  {
  }

  /** The users table `u` with method `csm` taken out of the entries of `props`. */
  function Detached(u: map<nat, set<nat>>, csm: nat, props: set<nat>): (r: map<nat, set<nat>>)
    ensures r.Keys == u.Keys
  {
    map p | p in u :: if p in props then u[p] - {csm} else u[p]
  }

  /** The users table `u` with the methods of `gone` taken out of every entry. */
  function Dropped(u: map<nat, set<nat>>, gone: set<nat>): (r: map<nat, set<nat>>)
    ensures r.Keys == u.Keys
  {
    map p | p in u :: u[p] - gone
  }

  lemma DetachedNone(u: map<nat, set<nat>>, csm: nat)
    ensures Detached(u, csm, {}) == u
  {
  }

  lemma DetachedStep(u: map<nat, set<nat>>, csm: nat, props: set<nat>, p: nat)
    requires p in u
    ensures Detached(u, csm, props + {p}) == Detached(u, csm, props)[p := Detached(u, csm, props)[p] - {csm}]
  {
    var a := Detached(u, csm, props + {p});
    var b := Detached(u, csm, props)[p := Detached(u, csm, props)[p] - {csm}];
    forall q | q in u
      ensures a[q] == b[q]
    {
    }
  }

  /** Detaching `csm` from every property it was attached to drops it from the table. */
  lemma DroppedStep(u: map<nat, set<nat>>, done: set<nat>, csm: nat, props: set<nat>)
    requires forall p :: p in u && csm in u[p] ==> p in props
    ensures Detached(Dropped(u, done), csm, props) == Dropped(u, done + {csm})
  {
    var a := Detached(Dropped(u, done), csm, props);
    var b := Dropped(u, done + {csm});
    forall p | p in u
      ensures a[p] == b[p]
    {
    }
  }

  lemma DroppedNone(u: map<nat, set<nat>>)
    ensures Dropped(u, {}) == u
  {
    forall p | p in u
      ensures Dropped(u, {})[p] == u[p]
    {
    }
  }

  /** The counts of the keys of `done` go down by one. */
  function Decreased(d: map<nat, nat>, done: set<nat>): (r: map<nat, nat>)
    requires forall q :: q in d && q in done ==> d[q] > 0
    ensures r.Keys == d.Keys
  {
    map q | q in d :: if q in done then d[q] - 1 else d[q]
  }

  lemma DecreasedNone(d: map<nat, nat>)
    ensures Decreased(d, {}) == d
  {
  }

  lemma DecreasedStep(d: map<nat, nat>, done: set<nat>, q: nat)
    requires forall q :: q in d && q in done + {q} ==> d[q] > 0
    requires q in d && q !in done
    ensures Decreased(d, done + {q}) == Decreased(d, done)[q := d[q] - 1]
  {
  }

  /** The counts of the keys of `done` go up by one. */
  function Raised(d: map<nat, nat>, done: set<nat>): (r: map<nat, nat>)
    ensures r.Keys == d.Keys
  {
    map q | q in d :: if q in done then d[q] + 1 else d[q]
  }

  lemma RaisedNone(d: map<nat, nat>)
    ensures Raised(d, {}) == d
  {
  }

  lemma RaisedStep(d: map<nat, nat>, done: set<nat>, q: nat)
    requires q in d && q !in done
    ensures Raised(d, done + {q}) == Raised(d, done)[q := d[q] + 1]
  {
  }

  /** The degree table `d` with an entry of 0 for every property of `props` it lacks. */
  function Padded(d: map<nat, nat>, props: set<nat>): (r: map<nat, nat>)
    ensures r.Keys == d.Keys + props
  {
    map q | q in d.Keys + props :: if q in d then d[q] else 0
  }

  lemma PaddedNone(d: map<nat, nat>)
    ensures Padded(d, {}) == d
  {
  }

  lemma PaddedStep(d: map<nat, nat>, props: set<nat>, q: nat)
    ensures Padded(d, props + {q}) ==
      if q in Padded(d, props) then Padded(d, props) else Padded(d, props)[q := 0]
  {
  }

  /** The users table `u` with method `csm` added to the entries of `props`, created as needed. */
  function Attached(u: map<nat, set<nat>>, csm: nat, props: set<nat>): (r: map<nat, set<nat>>)
    ensures r.Keys == u.Keys + props
  {
    map p | p in u.Keys + props :: (if p in u then u[p] else {}) + (if p in props then {csm} else {})
  }

  lemma AttachedNone(u: map<nat, set<nat>>, csm: nat)
    ensures Attached(u, csm, {}) == u
  {
    forall p | p in u
      ensures Attached(u, csm, {})[p] == u[p]
    {
    }
  }

  lemma AttachedStep(u: map<nat, set<nat>>, csm: nat, props: set<nat>, p: nat)
    ensures var a := Attached(u, csm, props);
      Attached(u, csm, props + {p}) == a[p := (if p in a then a[p] else {}) + {csm}]
  {
    var a := Attached(u, csm, props);
    var b := Attached(u, csm, props + {p});
    var c := a[p := (if p in a then a[p] else {}) + {csm}];
    forall q | q in b
      ensures q in c && b[q] == c[q]
    {
      AttachedAt(u, csm, props, p, q);
    }
    SameEntries(b, c);
  }

  /** Two tables with the same keys and the same entries are equal. */
  lemma SameEntries(a: map<nat, set<nat>>, b: map<nat, set<nat>>)
    requires a.Keys == b.Keys
    requires forall k :: k in a ==> a[k] == b[k]
    ensures a == b
  {
  }

  lemma AttachedAt(u: map<nat, set<nat>>, csm: nat, props: set<nat>, p: nat, q: nat)
    requires q in u || q in props || q == p
    ensures var a := Attached(u, csm, props);
      Attached(u, csm, props + {p})[q] == a[p := (if p in a then a[p] else {}) + {csm}][q]
  {
  }

  /** A table padded with zeros for `props`, then raised by one on `props`. */
  lemma RaisedPaddedAt(d: map<nat, nat>, props: set<nat>, q: nat)
    ensures q in Raised(Padded(d, props), props) <==> q in d || q in props
    ensures q in d || q in props ==>
      Raised(Padded(d, props), props)[q] == (if q in d then d[q] else 0) + (if q in props then 1 else 0)
  {
  }
}
