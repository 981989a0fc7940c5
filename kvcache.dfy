// The key-value cache (kvcache/kvcache.go): one map field that Set, Delete
// and Clear update in place. The read-write lock only serialises callers and
// is not part of the model.

module KVCache {
  import Collections

  class Cache<K(==), V> {
    /** The cache's contents. */
    var store: map<K, V>
    /** Go's zero value of V, which Get returns for a missing key. */
    const zero: V

    /** New: an empty cache. */
    constructor(zero: V)
      ensures store == map[] && this.zero == zero
    {
      store := map[];
      this.zero := zero;
    }

    /** Set: write the value, replacing an earlier one under the same key. */
    method Set(key: K, value: V)
      modifies this
      ensures store == old(store)[key := value]
      ensures |store| == if key in old(store) then |old(store)| else |old(store)| + 1
    {
      if key in store {
        OverwriteKeepsLen(store, key, value);
      } else {
        InsertGrowsLen(store, key, value);
      }
      store := store[key := value];
    }

    /** Get: the stored value and true, or the zero value and false. */
    method Get(key: K) returns (value: V, ok: bool)
      ensures ok <==> key in store
      ensures ok ==> value == store[key]
      ensures !ok ==> value == zero
    {
      ok := key in store;
      value := if ok then store[key] else zero;
    }

    /** Delete: remove the key; the answer says whether it was there. */
    method Delete(key: K) returns (deleted: bool)
      modifies this
      ensures deleted <==> key in old(store)
      ensures store == old(store) - {key}
      ensures |store| == if deleted then |old(store)| - 1 else |old(store)|
    {
      deleted := key in store;
      if deleted {
        DeleteShrinksLen(store, key);
        store := store - {key};
      } else {
        assert store - {key} == store;
      }
    }

    /** Has: whether the key is present. */
    method Has(key: K) returns (exists_: bool)
      ensures exists_ <==> key in store
    {
      exists_ := key in store;
    }

    /** Len: the number of keys. */
    method Len() returns (n: int)
      ensures n == |store|
    {
      n := |store|;
    }

    /** Clear: replace the contents with an empty map. */
    method Clear()
      modifies this
      ensures store == map[]
    {
      store := map[];
    }

    /** Keys: every key once, in an unspecified order. */
    method Keys() returns (keys: seq<K>)
      ensures |keys| == |store|
      ensures Collections.Distinct(keys)
      ensures forall k :: k in keys <==> k in store
    {
      keys := Collections.Keys(store);
    }

    /** Values: every key's value once, in an unspecified order. */
    method Values() returns (values: seq<V>)
      ensures |values| == |store|
      ensures exists order: seq<K> ::
                && |order| == |store| && Collections.Distinct(order)
                && (forall k :: k in order <==> k in store)
                && (forall i :: 0 <= i < |order| ==> values[i] == store[order[i]])
    {
      ghost var order;
      values, order := Collections.Values(store);
    }
  }

  // The sizes of the maps Set and Delete leave behind.

  /** Overwriting a present key keeps the number of keys. */
  lemma OverwriteKeepsLen<K, V>(m: map<K, V>, key: K, value: V)
    requires key in m
    ensures |m[key := value]| == |m|
  {
    assert m[key := value].Keys == m.Keys;
  }

  /** Setting a new key adds one key. */
  lemma InsertGrowsLen<K, V>(m: map<K, V>, key: K, value: V)
    requires key !in m
    ensures |m[key := value]| == |m| + 1
  {
    assert m[key := value].Keys == m.Keys + {key};
  }

  /** Deleting a present key removes exactly one key, and Has is then false. */
  lemma DeleteShrinksLen<K, V>(m: map<K, V>, key: K)
    requires key in m
    ensures |m - {key}| == |m| - 1 && key !in m - {key}
  {
    assert (m - {key}).Keys == m.Keys - {key};
  }
}
