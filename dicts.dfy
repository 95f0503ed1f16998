/**
 * Python dictionaries remember the order in which their keys were first
 * inserted, and the source iterates several of them (the order book, the
 * buyers' and sellers' schedules, the travel grid). Such a dictionary is
 * modelled as a map together with the sequence of its keys.
 */
module Dicts {

  /** keys lists the keys of m, each once, in insertion order. */
  ghost predicate Ordered<K(!new), V>(keys: seq<K>, m: map<K, V>)
  {
    && (forall i, j :: 0 <= i < j < |keys| ==> keys[i] != keys[j])
    && (forall k :: k in m <==> k in keys)
  }

  /** The key order after d[k] = v: a new key goes last, an existing key keeps its place. */
  function KeysAfterAssign<K(==, !new), V>(keys: seq<K>, m: map<K, V>, k: K): seq<K>
  {
    if k in m then keys else keys + [k]
  }

  lemma AssignKeepsOrdered<K(!new), V>(keys: seq<K>, m: map<K, V>, k: K, v: V)
    requires Ordered(keys, m)
    ensures Ordered(KeysAfterAssign(keys, m, k), m[k := v])
  {
  }
}
