// Identities on maps, stated for any key and value type so that using them
// on configuration data does not compare the sections themselves.

module Maps {

  /** The entries of m for the given keys. */
  function Pick<K(!new), V>(m: map<K, V>, keys: seq<K>): (r: map<K, V>)
    requires forall k :: k in keys ==> k in m
    ensures forall k :: k in r <==> k in keys
    ensures forall k :: k in r ==> r[k] == m[k]
  {
    if keys == [] then map[]
    else Pick(m, keys[..|keys| - 1])[keys[|keys| - 1] := m[keys[|keys| - 1]]]
  }

  /** Picking every key of m gives m. */
  lemma PickAll<K(!new), V>(m: map<K, V>, keys: seq<K>)
    requires forall k :: k in m <==> k in keys
    ensures Pick(m, keys) == m
  {
    var r := Pick(m, keys);
    assert r.Keys == m.Keys;
  }

  lemma UnionUpdate<K(!new), V>(a: map<K, V>, b: map<K, V>, k: K, v: V)
    ensures (a + b)[k := v] == a + b[k := v]
  {
  }

  lemma UnionEmpty<K(!new), V>(b: map<K, V>)
    ensures map[] + b == b
    ensures b + map[] == b
  {
  }

  lemma UpdateTwice<K(!new), V>(m: map<K, V>, k: K, a: V, b: V)
    ensures m[k := a][k := b] == m[k := b]
  {
  }
}
