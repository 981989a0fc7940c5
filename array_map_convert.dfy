// convert/array_map_convert.go: a slice or an array as a map from index to
// element, and a map's values or keys as a slice. reflect's MapKeys lists
// the keys in an unspecified order; Collections.Keys stands for it, so
// every result below holds for whatever order it returns.

module ArrayMapConvert {

  import opened Wrappers
  import opened ConvertBase
  import Collections

  /** The map ToMapFromSlice builds: each index of s mapped to its element. */
  function IndexMap<E>(s: seq<E>): (m: map<int, E>)
    ensures forall i :: i in m <==> 0 <= i < |s|
    ensures forall i :: 0 <= i < |s| ==> m[i] == s[i]
  {
    map i | 0 <= i < |s| :: s[i]
  }

  /**
   * ToMapFromSlice: nil and values that are not slices or arrays are
   * refused; otherwise every index is written with its element.
   */
  method ToMapFromSlice<E>(v: Dynamic<seq<E>>) returns (r: Result<map<int, E>, ConvertError>)
    ensures v.NilInterface? ==> r == Err(NilInput)
    ensures v.OtherKind? ==> r == Err(NotSliceOrArray)
    ensures v.Holds? ==> r == Ok(IndexMap(v.value))
  {
    if v.NilInterface? {
      return Err(NilInput);
    }
    if v.OtherKind? {
      return Err(NotSliceOrArray);
    }
    var s := v.value;
    var out: map<int, E> := map[];
    for i := 0 to |s|
      invariant out == IndexMap(s[..i])
    {
      out := out[i := s[i]];
    }
    assert s[..|s|] == s;
    return Ok(out);
  }

  /** The values of m read along order. */
  function ValuesAlong<K, V>(m: map<K, V>, order: seq<K>): (r: seq<V>)
    requires forall i :: 0 <= i < |order| ==> order[i] in m
    ensures |r| == |order|
  {
    seq(|order|, i requires 0 <= i < |order| => m[order[i]])
  }

  /** The value read at each position is the value of the key at that position. */
  lemma AlongAt<K, V>(m: map<K, V>, order: seq<K>)
    requires forall i :: 0 <= i < |order| ==> order[i] in m
    ensures forall i :: 0 <= i < |order| ==> ValuesAlong(m, order)[i] == m[order[i]]
  {
  }

  /** order lists every key of m exactly once, as MapKeys does. */
  ghost predicate Walks<K(!new), V>(m: map<K, V>, order: seq<K>)
  {
    && Collections.Distinct(order)
    && (forall i :: 0 <= i < |order| ==> order[i] in m)
    && (forall k :: k in order <==> k in m)
  }

  /**
   * ToSliceFromMapValues: nil and values that are not maps are refused;
   * otherwise the value of every key, along the order MapKeys gives
   * (returned as the ghost `order`).
   */
  method ToSliceFromMapValues<K(==, !new), V>(v: Dynamic<map<K, V>>) returns (r: Result<seq<V>, ConvertError>, ghost order: seq<K>)
    ensures v.NilInterface? ==> r == Err(NilInput)
    ensures v.OtherKind? ==> r == Err(NotMap)
    ensures v.Holds? ==> Walks(v.value, order) && |order| == |v.value| && r == Ok(ValuesAlong(v.value, order))
    ensures v.Holds? ==> forall i :: 0 <= i < |order| ==> r.value[i] == v.value[order[i]]
  {
    if v.NilInterface? {
      return Err(NilInput), [];
    }
    if v.OtherKind? {
      return Err(NotMap), [];
    }
    var m := v.value;
    var keys := Collections.Keys(m);
    var out: seq<V> := [];
    for i := 0 to |keys|
      invariant out == ValuesAlong(m, keys[..i])
    {
      out := out + [m[keys[i]]];
    }
    assert keys[..|keys|] == keys;
    AlongAt(m, keys);
    return Ok(out), keys;
  }

  /**
   * ToSliceFromMapKeys: nil and values that are not maps are refused;
   * otherwise every key once, in the order MapKeys gives.
   */
  method ToSliceFromMapKeys<K(==, !new), V>(v: Dynamic<map<K, V>>) returns (r: Result<seq<K>, ConvertError>)
    ensures v.NilInterface? ==> r == Err(NilInput)
    ensures v.OtherKind? ==> r == Err(NotMap)
    ensures v.Holds? ==> r.Ok? && Walks(v.value, r.value) && |r.value| == |v.value|
  {
    if v.NilInterface? {
      return Err(NilInput);
    }
    if v.OtherKind? {
      return Err(NotMap);
    }
    var m := v.value;
    var keys := Collections.Keys(m);
    var out: seq<K> := [];
    for i := 0 to |keys|
      invariant out == keys[..i]
    {
      out := out + [keys[i]];
    }
    return Ok(out);
  }

  // ---------------------------------------------------------------------
  // The walk order does not matter

  /** Reading along a concatenation is concatenating the readings. */
  lemma AlongConcat<K, V>(m: map<K, V>, a: seq<K>, b: seq<K>)
    requires forall i :: 0 <= i < |a + b| ==> (a + b)[i] in m
    ensures forall i :: 0 <= i < |a| ==> a[i] in m
    ensures forall i :: 0 <= i < |b| ==> b[i] in m
    ensures ValuesAlong(m, a + b) == ValuesAlong(m, a) + ValuesAlong(m, b)
  {
    assert forall i :: 0 <= i < |a| ==> a[i] == (a + b)[i];
    assert forall i :: 0 <= i < |b| ==> b[i] == (a + b)[|a| + i];
    AlongAt(m, a + b);
    AlongAt(m, a);
    AlongAt(m, b);
  }

  /** Every element of a sequence without repetitions occurs in it once. */
  lemma {:induction false} DistinctOnce<K>(o: seq<K>)
    requires Collections.Distinct(o)
    ensures forall k :: multiset(o)[k] == if k in o then 1 else 0
  {
    if o != [] {
      var n := |o| - 1;
      DistinctOnce(o[..n]);
      assert o == o[..n] + [o[n]];
      assert o[n] !in o[..n];
    }
  }

  /** Two walks of a map list the same keys, each once. */
  lemma WalksAgree<K(!new), V>(m: map<K, V>, o1: seq<K>, o2: seq<K>)
    requires Walks(m, o1) && Walks(m, o2)
    ensures multiset(o1) == multiset(o2)
  {
    DistinctOnce(o1);
    DistinctOnce(o2);
    assert forall k :: multiset(o1)[k] == multiset(o2)[k];
  }

  /** o without the key at p. */
  function Without<K>(o: seq<K>, p: nat): (w: seq<K>)
    requires p < |o|
    ensures |w| == |o| - 1
  {
    o[..p] + o[p + 1..]
  }

  /** Taking the element in the middle out of a sequence takes it out of its multiset. */
  lemma MultisetMiddle<T>(a: seq<T>, y: T, c: seq<T>)
    ensures multiset(a + [y] + c) == multiset(a + c) + multiset{y}
  {
  }

  /** Adding the same element to two multisets keeps them apart or equal. */
  lemma MultisetCancel<T>(a: multiset<T>, b: multiset<T>, x: T)
    requires a + multiset{x} == b + multiset{x}
    ensures a == b
  {
    forall k
      ensures a[k] == b[k]
    {
      assert (a + multiset{x})[k] == (b + multiset{x})[k];
    }
  }

  /** Taking the element at p out of a sequence takes it out of its multiset. */
  lemma MultisetWithout<K>(o: seq<K>, p: nat)
    requires p < |o|
    ensures multiset(o) == multiset(Without(o, p)) + multiset{o[p]}
  {
    assert o == o[..p] + [o[p]] + o[p + 1..];
    MultisetMiddle(o[..p], o[p], o[p + 1..]);
  }

  /** The keys other than the one at p are keys of m too. */
  lemma OthersIn<K, V>(m: map<K, V>, o: seq<K>, p: nat)
    requires p < |o| && forall i :: 0 <= i < |o| ==> o[i] in m
    ensures forall i :: 0 <= i < |Without(o, p)| ==> Without(o, p)[i] in m
  {
    var w := o[..p] + o[p + 1..];
    forall i | 0 <= i < |w|
      ensures w[i] in m
    {
      var oi := if i < p then i else i + 1;
      assert w[i] == o[oi];
    }
  }

  /** Reading along o splits around the key at p. */
  lemma AlongSplit<K, V>(m: map<K, V>, o: seq<K>, p: nat)
    requires p < |o| && forall i :: 0 <= i < |o| ==> o[i] in m
    ensures ValuesAlong(m, o) == ValuesAlong(m, o[..p]) + [m[o[p]]] + ValuesAlong(m, o[p + 1..])
  {
    var lo, hi := o[..p], o[p + 1..];
    assert o == lo + [o[p]] + hi;
    AlongConcat(m, lo + [o[p]], hi);
    AlongConcat(m, lo, [o[p]]);
  }

  /** Reading along one key at p is reading along the others, plus that key's value. */
  lemma AlongWithout<K, V>(m: map<K, V>, o: seq<K>, p: nat)
    requires p < |o| && forall i :: 0 <= i < |o| ==> o[i] in m
    ensures forall i :: 0 <= i < |Without(o, p)| ==> Without(o, p)[i] in m
    ensures multiset(ValuesAlong(m, o)) == multiset(ValuesAlong(m, Without(o, p))) + multiset{m[o[p]]}
  {
    OthersIn(m, o, p);
    AlongSplit(m, o, p);
    AlongConcat(m, o[..p], o[p + 1..]);
    MultisetMiddle(ValuesAlong(m, o[..p]), m[o[p]], ValuesAlong(m, o[p + 1..]));
  }

  /** In two orderings of the same keys, the first key of one sits at some place p of the other, and the rest agree. */
  lemma MatchingPlace<K>(o1: seq<K>, o2: seq<K>) returns (p: nat)
    requires o1 != [] && multiset(o1) == multiset(o2)
    ensures p < |o2| && o2[p] == o1[0]
    ensures multiset(Without(o1, 0)) == multiset(Without(o2, p))
  {
    assert o1[0] in multiset(o2);
    p :| 0 <= p < |o2| && o2[p] == o1[0];
    MultisetWithout(o1, 0);
    MultisetWithout(o2, p);
    MultisetCancel(multiset(Without(o1, 0)), multiset(Without(o2, p)), o1[0]);
  }

  /** Reading along two orderings of the same keys reads the same values, each as often. */
  lemma {:induction false} AlongPermuted<K, V>(m: map<K, V>, o1: seq<K>, o2: seq<K>)
    requires multiset(o1) == multiset(o2)
    requires forall i :: 0 <= i < |o1| ==> o1[i] in m
    requires forall i :: 0 <= i < |o2| ==> o2[i] in m
    ensures multiset(ValuesAlong(m, o1)) == multiset(ValuesAlong(m, o2))
    decreases |o1|
  {
    if o1 != [] {
      var x := o1[0];
      var p := MatchingPlace(o1, o2);
      var r1, r2 := Without(o1, 0), Without(o2, p);
      assert multiset(ValuesAlong(m, o1)) == multiset(ValuesAlong(m, r1)) + multiset{m[x]} by {
        AlongWithout(m, o1, 0);
      }
      assert multiset(ValuesAlong(m, o2)) == multiset(ValuesAlong(m, r2)) + multiset{m[x]} by {
        AlongWithout(m, o2, p);
      }
      OthersIn(m, o1, 0);
      OthersIn(m, o2, p);
      AlongPermuted(m, r1, r2);
    }
  }

  /** Any two walks of a map read the same values, each as often: the order MapKeys takes is not observable in the multiset. */
  lemma WalkOrderFree<K(!new), V>(m: map<K, V>, o1: seq<K>, o2: seq<K>)
    requires Walks(m, o1) && Walks(m, o2)
    ensures multiset(ValuesAlong(m, o1)) == multiset(ValuesAlong(m, o2))
  {
    WalksAgree(m, o1, o2);
    AlongPermuted(m, o1, o2);
  }

  /** The indices in ascending order walk IndexMap, and read the slice back. */
  lemma AscendingWalk<E>(s: seq<E>)
    ensures Walks(IndexMap(s), seq(|s|, i => i))
    ensures ValuesAlong(IndexMap(s), seq(|s|, i => i)) == s
  {
    var o := seq(|s|, i => i);
    forall k | k in IndexMap(s)
      ensures k in o
    {
      assert o[k] == k;
    }
    AlongAt(IndexMap(s), o);
  }

  /** ToSliceFromMapValues after ToMapFromSlice gives back the slice's elements, each as often, in whatever order. */
  lemma SliceComesBack<E>(s: seq<E>, order: seq<int>)
    requires Walks(IndexMap(s), order)
    ensures multiset(ValuesAlong(IndexMap(s), order)) == multiset(s)
  {
    AscendingWalk(s);
    WalkOrderFree(IndexMap(s), order, seq(|s|, i => i));
  }

  /** A walk is as long as the map it walks. */
  lemma WalkLength<K(!new), V>(m: map<K, V>, o: seq<K>)
    requires Walks(m, o)
    ensures |o| == |m|
  {
    var ks := set i | 0 <= i < |o| :: o[i];
    assert ks == m.Keys;
    DistinctCard(o);
  }

  /** A sequence without repetitions has as many distinct elements as positions. */
  lemma {:induction false} DistinctCard<K>(o: seq<K>)
    requires Collections.Distinct(o)
    ensures |set i | 0 <= i < |o| :: o[i]| == |o|
  {
    if o != [] {
      var n := |o| - 1;
      DistinctCard(o[..n]);
      var a := set i | 0 <= i < n :: o[..n][i];
      var b := set i | 0 <= i < |o| :: o[i];
      assert b == a + {o[n]};
      assert o[n] !in a;
    }
  }

  /** The package's own check: the values of {"a": 1, "b": 2}, sorted, are 1 and 2. */
  lemma ValuesSample(order: seq<string>)
    requires Walks(map["a" := 1, "b" := 2], order)
    ensures multiset(ValuesAlong(map["a" := 1, "b" := 2], order)) == multiset{1, 2}
  {
    var m := map["a" := 1, "b" := 2];
    assert Walks(m, ["a", "b"]);
    WalkOrderFree(m, order, ["a", "b"]);
    assert ValuesAlong(m, ["a", "b"]) == [1, 2];
  }

  /** [x, y] becomes {0: x, 1: y}. */
  lemma IndexSample()
    ensures IndexMap(["x", "y"]) == map[0 := "x", 1 := "y"]
  {
  }
}
