/**
 * In-place sorting of an array of indices by a key looked up per index: the
 * shape of `std::ranges::sort` with a key comparator, as used to order the
 * matched methods by topological rank and the properties by recency.
 */
module Sorting {

  /** Every element is a valid index into `key`. */
  ghost predicate Indexes(s: seq<nat>, key: seq<int>) {
    forall i :: 0 <= i < |s| ==> s[i] < |key|
  }

  /** Non-decreasing by key. */
  ghost predicate SortedByKey(s: seq<nat>, key: seq<int>)
    requires Indexes(s, key)
  {
    forall i, j :: 0 <= i < j < |s| ==> key[s[i]] <= key[s[j]]
  }

  /** Strictly increasing by key. */
  ghost predicate StrictlySortedByKey(s: seq<nat>, key: seq<int>)
    requires Indexes(s, key)
  {
    forall i, j :: 0 <= i < j < |s| ==> key[s[i]] < key[s[j]]
  }

  /**
   * Reorders `a` so that keys do not decrease. The source's sort is not
   * stable, so nothing is promised about the order of equal keys.
   */
  method SortByKey(a: array<nat>, key: seq<int>)
    requires Indexes(a[..], key)
    modifies a
    ensures Indexes(a[..], key)
    ensures SortedByKey(a[..], key)
    ensures multiset(a[..]) == old(multiset(a[..]))
  {
    for i := 0 to a.Length
      invariant Indexes(a[..], key)
      invariant SortedPrefix(a[..], key, i)
      invariant multiset(a[..]) == old(multiset(a[..]))
    {
      InsertAt(a, key, i);
    }
  }

  /** The first `n` elements are non-decreasing by key. */
  ghost predicate SortedPrefix(s: seq<nat>, key: seq<int>, n: nat)
    requires Indexes(s, key) && n <= |s|
  {
    forall k, l :: 0 <= k < l < n ==> key[s[k]] <= key[s[l]]
  }

  /** Moves `a[i]` down into the sorted prefix `a[..i]`, which then takes in one more element. */
  method InsertAt(a: array<nat>, key: seq<int>, i: nat)
    requires i < a.Length && Indexes(a[..], key) && SortedPrefix(a[..], key, i)
    modifies a
    ensures Indexes(a[..], key) && SortedPrefix(a[..], key, i + 1)
    ensures multiset(a[..]) == old(multiset(a[..]))
  {
    var j := i;
    while j > 0 && key[a[j - 1]] > key[a[j]]
      invariant 0 <= j <= i
      invariant Indexes(a[..], key)
      invariant forall k, l :: 0 <= k < l <= i && l != j ==> key[a[k]] <= key[a[l]]
      invariant multiset(a[..]) == old(multiset(a[..]))
    {
      Swap(a, j);
      j := j - 1;
    }
  }

  /** Exchanges `a[j - 1]` and `a[j]`. */
  method Swap(a: array<nat>, j: nat)
    requires 0 < j < a.Length
    modifies a
    ensures a[..] == old(a[..])[j - 1 := old(a[j])][j := old(a[j - 1])]
    ensures multiset(a[..]) == old(multiset(a[..]))
  {
    a[j - 1], a[j] := a[j], a[j - 1];
  }

  /**
   * A sorted sequence whose distinct elements have distinct keys is
   * strictly sorted, provided no element repeats.
   */
  lemma SortedDistinctKeysStrict(s: seq<nat>, key: seq<int>)
    requires Indexes(s, key) && SortedByKey(s, key)
    requires forall i, j :: 0 <= i < j < |s| ==> s[i] != s[j]
    requires forall x, y :: x in s && y in s && x != y ==> key[x] != key[y]
    ensures StrictlySortedByKey(s, key)
  {
  }

  /** Keys that rise from each element to the next rise along the whole sequence. */
  lemma StepsStrictlySorted(s: seq<nat>, key: seq<int>)
    requires Indexes(s, key)
    requires forall i :: 0 <= i < |s| - 1 ==> key[s[i]] < key[s[i + 1]]
    ensures StrictlySortedByKey(s, key)
  {
    forall i, j | 0 <= i < j < |s| ensures key[s[i]] < key[s[j]] {
      StepsBelow(s, key, i, j);
    }
  }

  lemma {:induction false} StepsBelow(s: seq<nat>, key: seq<int>, i: nat, j: nat)
    requires Indexes(s, key) && i < j < |s|
    requires forall i :: 0 <= i < |s| - 1 ==> key[s[i]] < key[s[i + 1]]
    ensures key[s[i]] < key[s[j]]
    decreases j - i
  {
    if i + 1 < j {
      StepsBelow(s, key, i + 1, j);
    }
  }

  /** In a strictly sorted sequence, the first element has the least key of all its elements. */
  lemma HeadHasLeastKey(s: seq<nat>, key: seq<int>, x: nat)
    requires Indexes(s, key) && StrictlySortedByKey(s, key)
    requires x in multiset(s) && x != s[0]
    ensures key[s[0]] < key[x]
  {
    var k :| 0 <= k < |s| && s[k] == x;
  }

  lemma TailMultiset(s: seq<nat>)
    requires s != []
    ensures multiset(s[1..]) == multiset(s) - multiset{s[0]}
  {
    assert s == [s[0]] + s[1..];
  }

  lemma TailStrictlySorted(s: seq<nat>, key: seq<int>)
    requires s != [] && Indexes(s, key) && StrictlySortedByKey(s, key)
    ensures Indexes(s[1..], key) && StrictlySortedByKey(s[1..], key)
  {
    var s' := s[1..];
    forall i, j | 0 <= i < j < |s'| ensures key[s'[i]] < key[s'[j]] {
      assert s'[i] == s[i + 1] && s'[j] == s[j + 1];
    }
  }

  /**
   * Two arrangements of the same elements that are both strictly sorted by
   * the same key are equal: with distinct keys a sort has one outcome.
   */
  lemma {:induction false} StrictlySortedUnique(s: seq<nat>, t: seq<nat>, key: seq<int>)
    requires Indexes(s, key) && Indexes(t, key)
    requires multiset(s) == multiset(t)
    requires StrictlySortedByKey(s, key) && StrictlySortedByKey(t, key)
    ensures s == t
  {
    if s == [] {
      assert |t| == |multiset(t)| == 0;
    } else {
      assert |t| == |multiset(t)| == |multiset(s)| == |s|;
      if s[0] != t[0] {
        HeadHasLeastKey(s, key, t[0]);
        HeadHasLeastKey(t, key, s[0]);
        assert false;
      }
      var s', t' := s[1..], t[1..];
      TailMultiset(s);
      TailMultiset(t);
      TailStrictlySorted(s, key);
      TailStrictlySorted(t, key);
      StrictlySortedUnique(s', t', key);
    }
  }
}
