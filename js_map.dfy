/**
 * JavaScript's `Map`: a dictionary that remembers the order in which its keys were first
 * inserted. `set` on a present key replaces the value and keeps the key where it is.
 */
module JsMap {
  import opened Js

  /** The values stored under `ks`, in that order. */
  function ValuesAt<K, V>(ks: seq<K>, m: map<K, V>): (vs: seq<V>)
    requires forall i :: 0 <= i < |ks| ==> ks[i] in m
    ensures |vs| == |ks| && forall i :: 0 <= i < |ks| ==> vs[i] == m[ks[i]]
  {
    if ks == [] then [] else [m[ks[0]]] + ValuesAt(ks[1..], m)
  }

  predicate Distinct<K(==)>(ks: seq<K>) {
    forall i, j :: 0 <= i < j < |ks| ==> ks[i] != ks[j]
  }

  /** The key order `set` produces: a new key goes to the end, a present one stays. */
  function KeysAfterSet<K(==)>(keys: seq<K>, present: set<K>, k: K): seq<K> {
    if k in present then keys else keys + [k]
  }

  /** `set` never lists a key twice. */
  lemma SetKeepsKeysDistinct<K>(keys: seq<K>, present: set<K>, k: K)
    requires Distinct(keys)
    requires forall i :: 0 <= i < |keys| ==> keys[i] in present
    ensures Distinct(KeysAfterSet(keys, present, k))
  {
  }

  class OrderedMap<K(==), V> {
    /** The keys, in order of first insertion. */
    var keys: seq<K>
    var vals: map<K, V>

    /** The keys listed are exactly the keys stored. */
    predicate Valid()
      reads this
    {
      && (forall k :: k in vals ==> k in keys)
      && (forall i :: 0 <= i < |keys| ==> keys[i] in vals)
    }

    /** `new Map()`. */
    constructor ()
      ensures keys == [] && vals == map[] && Valid()
    {
      keys := [];
      vals := map[];
    }

    /** `map.has(k)`. */
    predicate Has(k: K)
      reads this
    {
      k in vals
    }

    /** `map.get(k)`: undefined for an absent key. */
    function Get(k: K): (v: Option<V>)
      reads this
      ensures v.Some? <==> Has(k)
      ensures v.Some? ==> v.value == vals[k]
    {
      if k in vals then Some(vals[k]) else None
    }

    /** `map.set(k, v)`: a new key goes to the end; a present key keeps its place. */
    method Set(k: K, v: V)
      requires Valid()
      modifies this
      ensures Valid()
      ensures vals == old(vals)[k := v]
      ensures keys == KeysAfterSet(old(keys), old(vals).Keys, k)
    {
      if k !in vals {
        keys := keys + [k];
      }
      vals := vals[k := v];
    }

    /** `Array.from(map.values())`. */
    function Values(): (vs: seq<V>)
      reads this
      requires Valid()
      ensures |vs| == |keys| && forall i :: 0 <= i < |keys| ==> vs[i] == vals[keys[i]]
    {
      ValuesAt(keys, vals)
    }
  }
}
