/**
 * The bidirectional map of the quick-plan planner: a map from keys to values
 * kept together with its inverse, one bucket of keys per value, so that the
 * keys bound to a value are found without a search. A value whose bucket
 * empties is dropped. The graph holds its bidirectional maps by value, so
 * the map is a value here and each edit returns the edited map.
 */
module BidirectionalMaps {

  /** The inverse of a map: for every value it takes, the keys bound to it. */
  function Buckets(m: map<nat, nat>): map<nat, set<nat>> {
    map v | v in m.Values :: set k | k in m && m[k] == v
  }

  datatype BiMap = BiMap(keyToValue: map<nat, nat>, valueToKeys: map<nat, set<nat>>) {

    /** The buckets are exactly the inverse of the forward map. */
    ghost predicate Valid() {
      valueToKeys == Buckets(keyToValue)
    }

    /** The value of a present key; a missing key is a lookup failure the callers never cause. */
    function Get(key: nat): (v: nat)
      requires key in keyToValue
      ensures Valid() ==> key in Keys(v)
    {
      keyToValue[key]
    }

    /** Rebinds `key` to `value`, taking it out of the bucket of its old value first. */
    function Insert(key: nat, value: nat): (r: BiMap)
      requires Valid()
      ensures r.Valid() && r.keyToValue == keyToValue[key := value]
      ensures key in r.Keys(value)
    {
      var e := Erase(key);
      var bucket := if value in e.valueToKeys then e.valueToKeys[value] else {};
      BucketsAdd(e.keyToValue, key, value);
      BiMap(e.keyToValue[key := value], e.valueToKeys[value := bucket + {key}])
    }

    /** Removes `key` from both directions, dropping a bucket that empties; a missing key is ignored. */
    function Erase(key: nat): (r: BiMap)
      requires Valid()
      ensures r.Valid() && r.keyToValue == keyToValue - {key}
      ensures forall v :: key !in r.Keys(v)
    {
      if key in keyToValue then
        var value := keyToValue[key];
        BucketsRemove(keyToValue, key);
        var bucket := valueToKeys[value] - {key};
        BiMap(keyToValue - {key}, if bucket == {} then valueToKeys - {value} else valueToKeys[value := bucket])
      else
        assert keyToValue - {key} == keyToValue;
        this
    }

    /** `key` is bound to some value, so some bucket holds it. */
    predicate Contains(key: nat)
      ensures Valid() ==> (Contains(key) <==> exists v :: key in Keys(v))
    {
      assert key in keyToValue && Valid() ==> key in Keys(keyToValue[key]);
      key in keyToValue
    }

    /** Some key is bound to `value`. */
    predicate ContainsValue(value: nat)
      requires Valid()
      ensures ContainsValue(value) <==> exists k :: k in keyToValue && keyToValue[k] == value
    {
      value in valueToKeys
    }

    /** The keys bound to `value`: its bucket, or none. */
    function Keys(value: nat): (r: set<nat>)
      requires Valid()
      ensures forall k :: k in r <==> k in keyToValue && keyToValue[k] == value
    {
      if value in valueToKeys then valueToKeys[value] else {}
    }
  }

  /** The map with nothing in it. */
  function EmptyBiMap(): (r: BiMap)
    ensures r.Valid() && r.keyToValue == map[]
  {
    assert Buckets(map[]) == map[];
    BiMap(map[], map[])
  }

  /** Taking a key out of a map takes it out of its value's bucket, dropping the bucket if it empties. */
  lemma BucketsRemove(m: map<nat, nat>, key: nat)
    requires key in m
    ensures var b := Buckets(m)[m[key]] - {key};
      Buckets(m - {key}) == if b == {} then Buckets(m) - {m[key]} else Buckets(m)[m[key] := b]
  {
    var value := m[key];
    var b := Buckets(m)[value] - {key};
    var lhs := Buckets(m - {key});
    var rhs := if b == {} then Buckets(m) - {value} else Buckets(m)[value := b];
    forall v | v in lhs
      ensures v in rhs && lhs[v] == rhs[v]
    {
      var k :| k in m - {key} && (m - {key})[k] == v;
      assert k in Buckets(m)[v];
    }
    forall v | v in rhs
      ensures v in lhs
    {
      var k: nat;
      if v == value {
        k :| k in b;
      } else {
        k := BucketWitness(m, v);
      }
      assert k in m - {key} && (m - {key})[k] == v;
    }
  }

  /** Binding a new key adds it to its value's bucket, creating the bucket if needed. */
  lemma BucketsAdd(m: map<nat, nat>, key: nat, value: nat)
    requires key !in m
    ensures var b := if value in Buckets(m) then Buckets(m)[value] else {};
      Buckets(m[key := value]) == Buckets(m)[value := b + {key}]
  {
    var b := if value in Buckets(m) then Buckets(m)[value] else {};
    var lhs := Buckets(m[key := value]);
    var rhs := Buckets(m)[value := b + {key}];
    forall v | v in lhs
      ensures v in rhs && lhs[v] == rhs[v]
    {
      if v != value {
        var k :| k in m[key := value] && m[key := value][k] == v;
        assert k in m && m[k] == v;
      }
    }
    forall v | v in rhs
      ensures v in lhs
    {
      var k := key;
      if v != value {
        k := BucketWitness(m, v);
      }
      assert k in m[key := value] && m[key := value][k] == v;
    }
  }

  /** A value with a bucket is taken by some key. */
  lemma BucketWitness(m: map<nat, nat>, v: nat) returns (k: nat)
    requires v in Buckets(m)
    ensures k in m && m[k] == v
  {
    k :| k in m && m[k] == v;
  }
}
