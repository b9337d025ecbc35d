/**
 * Cardinality facts about finite sets of vertex and method ids, used by the
 * maximality argument for the matching and by the counting arguments of the
 * topological sort.
 */
module SetFacts {

  /** The ids 0, 1, ..., n - 1. */
  function Range(n: nat): (r: set<nat>)
    ensures forall x: nat :: x in r <==> x < n
  {
    if n == 0 then {} else Range(n - 1) + {n - 1}
  }

  lemma {:induction false} RangeCard(n: nat)
    ensures |Range(n)| == n
  {
    if n > 0 {
      RangeCard(n - 1);
      var a := Range(n - 1);
      assert Range(n) == a + {n - 1};
      assert n - 1 !in a;
      assert |a + {n - 1}| == |a| + 1;
    }
  }

  /** A subset is no larger than its superset. */
  lemma {:induction false} SubsetCard(a: set<nat>, b: set<nat>)
    requires a <= b
    ensures |a| <= |b|
  {
    if a != {} {
      var x :| x in a;
      SubsetCard(a - {x}, b - {x});
    }
  }

  /** A subset at least as large as its superset is the whole superset. */
  lemma SubsetFull(a: set<nat>, b: set<nat>)
    requires a <= b && |b| <= |a|
    ensures a == b
  {
    if a != b {
      var x :| x in b && x !in a;
      SubsetCard(a, b - {x});
    }
  }

  /** A map that is one-to-one on `a`. */
  ghost predicate InjectiveOn(a: set<nat>, f: nat -> nat) {
    forall x, y :: x in a && y in a && x != y ==> f(x) != f(y)
  }

  function Image(a: set<nat>, f: nat -> nat): set<nat> {
    set x | x in a :: f(x)
  }

  /** The image of `a` under a one-to-one map has as many elements as `a`. */
  lemma {:induction false} InjectiveImageCard(a: set<nat>, f: nat -> nat)
    requires InjectiveOn(a, f)
    ensures |Image(a, f)| == |a|
  {
    if a != {} {
      var x :| x in a;
      var a' := a - {x};
      InjectiveImageCard(a', f);
      assert Image(a, f) == Image(a', f) + {f(x)};
      assert f(x) !in Image(a', f);
    }
  }

  /** A one-to-one map from `a` into `b` shows that `a` is no larger than `b`. */
  lemma InjectionBound(a: set<nat>, b: set<nat>, f: nat -> nat)
    requires InjectiveOn(a, f)
    requires forall x :: x in a ==> f(x) in b
    ensures |a| <= |b|
  {
    InjectiveImageCard(a, f);
    SubsetCard(Image(a, f), b);
  }

  /** Pairwise distinct elements of a sequence. */
  ghost predicate Distinct(s: seq<nat>) {
    forall i, j :: 0 <= i < j < |s| ==> s[i] != s[j]
  }

  /** The elements of a sequence, as a set. */
  function Elements(s: seq<nat>): set<nat> {
    set x | x in s
  }

  /** A prefix one position longer has one more element. */
  lemma ElementsNext(s: seq<nat>, j: nat)
    requires j < |s|
    ensures Elements(s[..j + 1]) == Elements(s[..j]) + {s[j]}
  {
    assert s[..j + 1] == s[..j] + [s[j]];
  }

  /** A sequence without repetitions has as many distinct elements as positions. */
  lemma {:induction false} DistinctCard(s: seq<nat>)
    requires Distinct(s)
    ensures |Elements(s)| == |s|
  {
    if s != [] {
      var s' := s[1..];
      assert Distinct(s') by {
        forall i, j | 0 <= i < j < |s'| ensures s'[i] != s'[j] {
          assert s'[i] == s[i + 1] && s'[j] == s[j + 1];
        }
      }
      DistinctCard(s');
      assert Elements(s) == Elements(s') + {s[0]} by {
        assert s == [s[0]] + s';
      }
      assert s[0] !in Elements(s') by {
        forall i | 0 <= i < |s'| ensures s'[i] != s[0] {
          assert s'[i] == s[i + 1];
        }
      }
    }
  }

  /** A sequence has at most as many distinct elements as positions. */
  lemma {:induction false} ElementsCard(s: seq<nat>)
    ensures |Elements(s)| <= |s|
  {
    if s != [] {
      var s' := s[1..];
      ElementsCard(s');
      assert Elements(s) == Elements(s') + {s[0]} by {
        assert s == [s[0]] + s';
      }
    }
  }

  /** A sequence without repetitions has each of its elements exactly once. */
  lemma {:induction false} DistinctMultiset(s: seq<nat>)
    requires Distinct(s)
    ensures forall x :: x in s ==> multiset(s)[x] == 1
    ensures forall x :: multiset(s)[x] <= 1
  {
    if s != [] {
      var s' := s[..|s| - 1];
      assert Distinct(s');
      DistinctMultiset(s');
      assert s == s' + [s[|s| - 1]];
      assert s[|s| - 1] !in s';
    }
  }

  /** A rearrangement of a sequence without repetitions has none either. */
  lemma PermutationDistinct(s: seq<nat>, t: seq<nat>)
    requires multiset(s) == multiset(t) && Distinct(t)
    ensures Distinct(s)
  {
    DistinctMultiset(t);
    forall i, j | 0 <= i < j < |s| ensures s[i] != s[j] {
      if s[i] == s[j] {
        RepeatedTwice(s, i, j);
      }
    }
  }

  /** An element found at two positions occurs at least twice. */
  lemma RepeatedTwice(s: seq<nat>, i: nat, j: nat)
    requires i < j < |s| && s[i] == s[j]
    ensures multiset(s)[s[i]] >= 2
  {
    assert s == s[..j] + s[j..];
    assert s[i] == s[..j][i] && s[j] == s[j..][0];
  }

  /** Two repetition-free sequences with the same elements are permutations of each other. */
  lemma DistinctSameSetMultiset(s: seq<nat>, t: seq<nat>)
    requires Distinct(s) && Distinct(t)
    requires forall x :: x in s <==> x in t
    ensures multiset(s) == multiset(t)
  {
    DistinctMultiset(s);
    DistinctMultiset(t);
    forall x ensures multiset(s)[x] == multiset(t)[x] {
      if x in s {
        assert x in t;
      } else {
        assert x !in t;
      }
    }
  }

  /** A set of one element holding `x` is `{x}`. */
  lemma OneElement(a: set<nat>, x: nat)
    requires |a| == 1 && x in a
    ensures a == {x}
  {
    if a != {x} {
      var y :| y in a && y != x;
      SubsetCard({x, y}, a);
    }
  }

  /** A finite set of ids that is not empty has a least element. */
  lemma HasLeast(a: set<nat>)
    requires a != {}
    ensures exists x :: x in a && forall y :: y in a ==> x <= y
  {
    var x :| x in a;
    LeastBelow(a, x);
  }

  /** Some element of `a` no larger than `x` is below every other. */
  lemma {:induction false} LeastBelow(a: set<nat>, x: nat)
    requires x in a
    ensures exists z :: z in a && forall y :: y in a ==> z <= y
    decreases x
  {
    if y :| y in a && y < x {
      LeastBelow(a, y);
    } else {
      assert forall y :: y in a ==> x <= y;
    }
  }
}
