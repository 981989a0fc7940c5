// Generic slice and map helpers (collections/generic_collections_util.go).
// Go slices are sequences and Go maps are Dafny maps. Go walks a map in an
// unspecified order; the loops below pick the next key with `:|`, so every
// result is proved for whatever order the walk takes.

module Collections {

  /** No element occurs twice. */
  predicate Distinct<T(==)>(s: seq<T>)
  {
    forall i, j :: 0 <= i < j < |s| ==> s[i] != s[j]
  }

  /** Contains: a linear scan for an element equal to target. */
  method Contains<T(==)>(s: seq<T>, target: T) returns (found: bool)
    ensures found <==> target in s
  {
    var i := 0;
    while i < |s|
      invariant 0 <= i <= |s|
      invariant target !in s[..i]
    {
      if s[i] == target {
        return true;
      }
      i := i + 1;
    }
    return false;
  }

  /** IndexOf: the first index holding target, or -1. */
  method IndexOf<T(==)>(s: seq<T>, target: T) returns (idx: int)
    ensures -1 <= idx < |s|
    ensures idx == -1 <==> target !in s
    ensures 0 <= idx ==> s[idx] == target && target !in s[..idx]
  {
    var i := 0;
    while i < |s|
      invariant 0 <= i <= |s|
      invariant target !in s[..i]
    {
      if s[i] == target {
        return i;
      }
      i := i + 1;
    }
    return -1;
  }

  // ---------------------------------------------------------------------
  // Unique

  /** The first occurrence of each element, in input order. */
  function Dedup<T(==)>(s: seq<T>): (r: seq<T>)
    ensures |r| <= |s|
  {
    if s == [] then []
    else
      var init := s[..|s| - 1];
      if s[|s| - 1] in init then Dedup(init) else Dedup(init) + [s[|s| - 1]]
  }

  /** The index of the first occurrence of x in s. */
  function FirstIndex<T(==)>(s: seq<T>, x: T): (i: nat)
    requires x in s
    ensures i < |s| && s[i] == x && x !in s[..i]
  {
    if s[0] == x then 0 else 1 + FirstIndex(s[1..], x)
  }

  /** Dedup keeps exactly the elements of s. */
  lemma {:induction false} DedupElements<T>(s: seq<T>)
    ensures forall x :: x in Dedup(s) <==> x in s
  {
    if s != [] {
      var init := s[..|s| - 1];
      DedupElements(init);
      assert s == init + [s[|s| - 1]];
    }
  }

  /** Dedup never repeats an element. */
  lemma {:induction false} DedupDistinct<T>(s: seq<T>)
    ensures Distinct(Dedup(s))
  {
    if s != [] {
      var init := s[..|s| - 1];
      DedupDistinct(init);
      DedupElements(init);
    }
  }

  /** The first index of x in a prefix that holds x is its first index in the whole. */
  lemma {:induction false} FirstIndexPrefix<T>(s: seq<T>, n: nat, x: T)
    requires n <= |s| && x in s[..n]
    ensures FirstIndex(s[..n], x) == FirstIndex(s, x)
  {
    var i := FirstIndex(s[..n], x);
    assert s[..n][..i] == s[..i];
  }

  /** An occurrence of x with no x before it is the first. */
  lemma {:induction false} FirstIndexAt<T>(s: seq<T>, x: T, i: nat)
    requires i < |s| && s[i] == x && x !in s[..i]
    ensures FirstIndex(s, x) == i
  {
    if i > 0 {
      assert s[0] == s[..i][0];
      assert s[1..][..i - 1] == s[..i][1..];
      FirstIndexAt(s[1..], x, i - 1);
    }
  }

  /** The elements of d occur in s, and in the order of their first occurrence there. */
  predicate OrderedByFirst<T(==)>(s: seq<T>, d: seq<T>)
  {
    && (forall x :: x in d ==> x in s)
    && (forall i, j :: 0 <= i < j < |d| ==> FirstIndex(s, d[i]) < FirstIndex(s, d[j]))
  }

  /** An order by first occurrence in a prefix of s is one in s. */
  lemma PrefixOrder<T>(s: seq<T>, n: nat, d: seq<T>)
    requires n <= |s| && OrderedByFirst(s[..n], d)
    ensures OrderedByFirst(s, d)
    ensures forall x :: x in d ==> FirstIndex(s, x) < n
  {
    forall x | x in d
      ensures FirstIndex(s[..n], x) == FirstIndex(s, x)
    {
      FirstIndexPrefix(s, n, x);
    }
  }

  /** An element that first occurs after all of d extends the order. */
  lemma AppendOrder<T>(s: seq<T>, d: seq<T>, x: T)
    requires OrderedByFirst(s, d) && x in s
    requires forall y :: y in d ==> FirstIndex(s, y) < FirstIndex(s, x)
    ensures OrderedByFirst(s, d + [x])
  {
    var e := d + [x];
    forall i, j | 0 <= i < j < |e|
      ensures FirstIndex(s, e[i]) < FirstIndex(s, e[j])
    {
      assert e[i] == d[i];
      if j < |d| {
        assert e[j] == d[j];
      }
    }
  }

  /** Dedup lists the elements in the order of their first occurrence. */
  lemma {:induction false} DedupFirstOccurrenceOrder<T>(s: seq<T>)
    ensures forall x :: x in Dedup(s) ==> x in s
    ensures forall i, j :: 0 <= i < j < |Dedup(s)| ==> FirstIndex(s, Dedup(s)[i]) < FirstIndex(s, Dedup(s)[j])
  {
    if s != [] {
      var n := |s| - 1;
      var init := s[..n];
      var last := s[n];
      var d := Dedup(init);
      DedupFirstOccurrenceOrder(init);
      PrefixOrder(s, n, d);
      if last !in init {
        DedupElements(init);
        assert FirstIndex(s, last) == n by {
          assert s[..n] == init;
        }
        AppendOrder(s, d, last);
      }
    }
  }

  /**
   * Unique: walk the slice once, remembering the elements already emitted in
   * `seen`, and append each element the first time it appears.
   */
  method Unique<T(==)>(s: seq<T>) returns (out: seq<T>)
    ensures out == Dedup(s)
    ensures Distinct(out)
    ensures forall x :: x in out <==> x in s
  {
    var seen: set<T> := {};
    out := [];
    var i := 0;
    while i < |s|
      invariant 0 <= i <= |s|
      invariant out == Dedup(s[..i])
      invariant forall x :: x in seen <==> x in s[..i]
    {
      assert s[..i + 1][..i] == s[..i];
      if s[i] !in seen {
        seen := seen + {s[i]};
        out := out + [s[i]];
      }
      i := i + 1;
    }
    assert s[..i] == s;
    DedupDistinct(s);
    DedupElements(s);
  }

  // ---------------------------------------------------------------------
  // Map and Filter

  /** Map: apply fn to every element, keeping the length and the positions. */
  method Map<T, R>(s: seq<T>, fn: T -> R) returns (out: seq<R>)
    ensures |out| == |s|
    ensures forall i :: 0 <= i < |s| ==> out[i] == fn(s[i])
  {
    out := [];
    var i := 0;
    while i < |s|
      invariant 0 <= i <= |s|
      invariant |out| == i
      invariant forall j :: 0 <= j < i ==> out[j] == fn(s[j])
    {
      out := out + [fn(s[i])];
      i := i + 1;
    }
  }

  /** The elements of s that satisfy keep, in order. */
  function Kept<T>(s: seq<T>, keep: T -> bool): (r: seq<T>)
    ensures |r| <= |s|
  {
    if s == [] then []
    else if keep(s[|s| - 1]) then Kept(s[..|s| - 1], keep) + [s[|s| - 1]]
    else Kept(s[..|s| - 1], keep)
  }

  /** Filter: append every element fn accepts. */
  method Filter<T>(s: seq<T>, fn: T -> bool) returns (out: seq<T>)
    ensures out == Kept(s, fn)
  {
    out := [];
    var i := 0;
    while i < |s|
      invariant 0 <= i <= |s|
      invariant out == Kept(s[..i], fn)
    {
      assert s[..i + 1][..i] == s[..i];
      if fn(s[i]) {
        out := out + [s[i]];
      }
      i := i + 1;
    }
    assert s[..i] == s;
  }

  /** What Filter keeps: exactly the accepted elements; all of s when all are accepted, none when none are. */
  lemma {:induction false} KeptElements<T>(s: seq<T>, keep: T -> bool)
    ensures forall x :: x in Kept(s, keep) <==> x in s && keep(x)
    ensures (forall i :: 0 <= i < |s| ==> keep(s[i])) ==> Kept(s, keep) == s
    ensures (forall i :: 0 <= i < |s| ==> !keep(s[i])) ==> Kept(s, keep) == []
  {
    if s != [] {
      var init := s[..|s| - 1];
      KeptElements(init, keep);
      assert s == init + [s[|s| - 1]];
    }
  }

  // ---------------------------------------------------------------------
  // Maps

  /** Keys: every key of m once, in the order the walk visits them. */
  method Keys<K(==), V>(m: map<K, V>) returns (keys: seq<K>)
    ensures |keys| == |m|
    ensures Distinct(keys)
    ensures forall k :: k in keys <==> k in m
  {
    keys := [];
    var rest := m.Keys;
    while rest != {}
      invariant rest <= m.Keys
      invariant |keys| + |rest| == |m|
      invariant Distinct(keys)
      invariant forall k :: k in keys <==> k in m && k !in rest
      decreases |rest|
    {
      var k :| k in rest;
      keys := keys + [k];
      rest := rest - {k};
    }
  }

  /**
   * Values: the value of every key once; `order` is the walk's key order,
   * which the caller cannot observe.
   */
  method Values<K(==), V>(m: map<K, V>) returns (values: seq<V>, ghost order: seq<K>)
    ensures |values| == |m| && |order| == |m|
    ensures Distinct(order) && forall k :: k in order <==> k in m
    ensures forall i :: 0 <= i < |order| ==> values[i] == m[order[i]]
  {
    values, order := [], [];
    var rest := m.Keys;
    while rest != {}
      invariant rest <= m.Keys
      invariant |order| + |rest| == |m| && |values| == |order|
      invariant Distinct(order)
      invariant forall k :: k in order <==> k in m && k !in rest
      invariant forall i :: 0 <= i < |order| ==> values[i] == m[order[i]]
      decreases |rest|
    {
      var k :| k in rest;
      values, order := values + [m[k]], order + [k];
      rest := rest - {k};
    }
  }

  /** Merge: a fresh map holding a's entries, then b's on top. */
  method Merge<K(==), V>(a: map<K, V>, b: map<K, V>) returns (out: map<K, V>)
    ensures forall k :: k in out <==> k in a || k in b
    ensures forall k :: k in b ==> out[k] == b[k]
    ensures forall k :: k in a && k !in b ==> out[k] == a[k]
  {
    out := map[];
    var rest := a.Keys;
    while rest != {}
      invariant rest <= a.Keys
      invariant forall k :: k in out <==> k in a && k !in rest
      invariant forall k :: k in out ==> out[k] == a[k]
      decreases |rest|
    {
      var k :| k in rest;
      out := out[k := a[k]];
      rest := rest - {k};
    }
    rest := b.Keys;
    while rest != {}
      invariant rest <= b.Keys
      invariant forall k :: k in out <==> k in a || (k in b && k !in rest)
      invariant forall k :: k in b && k !in rest ==> out[k] == b[k]
      invariant forall k :: k in a && k !in b ==> out[k] == a[k]
      invariant forall k :: k in a && k in rest ==> out[k] == a[k]
      decreases |rest|
    {
      var k :| k in rest;
      out := out[k := b[k]];
      rest := rest - {k};
    }
  }

  /** GetOrDefault: the stored value when key is present, else def. */
  function GetOrDefault<K(==), V>(m: map<K, V>, key: K, def: V): (v: V)
    ensures key in m ==> v == m[key]
    ensures key !in m ==> v == def
  {
    if key in m then m[key] else def
  }
}
