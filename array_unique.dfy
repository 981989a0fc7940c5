// convert/array_unique.go: removing repeated elements from a slice or an
// array, either by the elements themselves or by one field (or map key)
// of each element, keeping the first element of each key in input order.
//
// The three loops of the source (elements, struct fields, map entries)
// share one shape: compute a key per element, skip the element when the
// key was seen, otherwise remember the key and append the element. That
// shape is UniqueBy below, specified by FirstByKey; the key functions say
// what the source remembers in its `seenI` and `seenS` maps. Looking up a
// key in `seenI` hashes the dynamic value, which panics when a value of an
// interface type holds a slice, a map or a function; `panics` says which
// elements do that.

module ArrayUnique {

  import opened Wrappers
  import opened ConvertBase
  import Collections

  /**
   * What the source remembers for an element: the value itself when its
   * type is comparable (a key of `seenI`), its %#v text otherwise (a key of
   * `seenS`), or the `uniqueMissing{}` placeholder for a nil pointer or a
   * missing map key.
   */
  datatype SeenKey<V> = Missing | Same(v: V) | Formatted(text: string)

  /** The key of a present value: itself when comparable, its %#v text (given by format) otherwise. */
  function KeyOf<V>(v: V, comparable: bool, format: V -> string): (k: SeenKey<V>)
    ensures comparable ==> k == Same(v)
    ensures !comparable ==> k == Formatted(format(v))
  {
    if comparable then Same(v) else Formatted(format(v))
  }

  /** The keys of the elements of s. */
  function KeysOf<E, K(==)>(s: seq<E>, key: E -> K): set<K>
  {
    set i | 0 <= i < |s| :: key(s[i])
  }

  /** The first element of each key, in input order. */
  function FirstByKey<E, K(==)>(s: seq<E>, key: E -> K): (r: seq<E>)
    ensures |r| <= |s|
  {
    if s == [] then []
    else
      var init := s[..|s| - 1];
      if key(s[|s| - 1]) in KeysOf(init, key) then FirstByKey(init, key)
      else FirstByKey(init, key) + [s[|s| - 1]]
  }

  /** The index of the first element of s whose key is k; |s| when there is none. */
  function FirstAt<E, K(==)>(s: seq<E>, k: K, key: E -> K): (i: nat)
    ensures i <= |s|
    ensures i < |s| ==> key(s[i]) == k
    ensures forall j :: 0 <= j < i ==> key(s[j]) != k
  {
    if s == [] then 0
    else if key(s[0]) == k then 0
    else 1 + FirstAt(s[1..], k, key)
  }

  // ---------------------------------------------------------------------
  // The loop

  /** One more element adds its key to the keys seen. */
  lemma KeysOfSnoc<E, K>(s: seq<E>, x: E, key: E -> K)
    ensures KeysOf(s + [x], key) == KeysOf(s, key) + {key(x)}
  {
    var t := s + [x];
    forall k | k in KeysOf(t, key)
      ensures k in KeysOf(s, key) + {key(x)}
    {
      var i :| 0 <= i < |t| && key(t[i]) == k;
      if i < |s| {
        assert t[i] == s[i];
      }
    }
    forall k | k in KeysOf(s, key)
      ensures k in KeysOf(t, key)
    {
      var i :| 0 <= i < |s| && key(s[i]) == k;
      assert t[i] == s[i];
    }
    assert t[|s|] == x;
  }

  /** Looking up the key of some element of s panics. */
  predicate SomePanics<E>(s: seq<E>, panics: E -> bool)
  {
    exists i :: 0 <= i < |s| && panics(s[i])
  }

  /**
   * UniqueBy: walk the elements once, remembering the keys already seen,
   * and append an element only when its key is new; the walk ends in a
   * panic at the first element whose key lookup panics.
   */
  method UniqueBy<E, K(==)>(s: seq<E>, key: E -> K, panics: E -> bool) returns (r: Option<seq<E>>)
    ensures r == if SomePanics(s, panics) then None else Some(FirstByKey(s, key))
  {
    var seen: set<K> := {};
    var out := [];
    for i := 0 to |s|
      invariant out == FirstByKey(s[..i], key)
      invariant seen == KeysOf(s[..i], key)
      invariant forall j :: 0 <= j < i ==> !panics(s[j])
    {
      if panics(s[i]) {
        return None;
      }
      assert s[..i + 1][..i] == s[..i];
      KeysOfSnoc(s[..i], s[i], key);
      assert s[..i] + [s[i]] == s[..i + 1];
      var k := key(s[i]);
      if k !in seen {
        seen := seen + {k};
        out := out + [s[i]];
      }
    }
    assert s[..|s|] == s;
    return Some(out);
  }

  // ---------------------------------------------------------------------
  // What the loop keeps

  /** The first index of a key found in a prefix is its first index in the whole. */
  lemma {:induction false} FirstAtPrefix<E, K>(s: seq<E>, n: nat, k: K, key: E -> K)
    requires n <= |s| && k in KeysOf(s[..n], key)
    ensures FirstAt(s[..n], k, key) == FirstAt(s, k, key) < n
  {
    var j :| 0 <= j < n && key(s[..n][j]) == k;
    if key(s[0]) != k {
      var t := s[1..];
      assert s[..n][1..] == t[..n - 1];
      assert t[..n - 1][j - 1] == s[..n][j];
      assert k in KeysOf(t[..n - 1], key);
      FirstAtPrefix(t, n - 1, k, key);
      assert FirstAt(s[..n], k, key) == 1 + FirstAt(t[..n - 1], k, key);
    }
  }

  /** What FirstByKeyKeeps states of d, as the kept elements of s. */
  ghost predicate KeepsFirsts<E, K>(s: seq<E>, d: seq<E>, key: E -> K)
  {
    && KeysOf(d, key) == KeysOf(s, key)
    && (forall t :: 0 <= t < |d| ==> FirstAt(s, key(d[t]), key) < |s| && d[t] == s[FirstAt(s, key(d[t]), key)])
    && (forall t, u :: 0 <= t < u < |d| ==> FirstAt(s, key(d[t]), key) < FirstAt(s, key(d[u]), key))
  }

  /** Kept elements of a prefix stay kept elements of the whole, and keep their first indices. */
  lemma KeepsFirstsPrefix<E, K>(s: seq<E>, n: nat, d: seq<E>, key: E -> K)
    requires n <= |s| && KeepsFirsts(s[..n], d, key)
    ensures forall t :: 0 <= t < |d| ==> FirstAt(s[..n], key(d[t]), key) == FirstAt(s, key(d[t]), key) < n
  {
    forall t | 0 <= t < |d|
      ensures FirstAt(s[..n], key(d[t]), key) == FirstAt(s, key(d[t]), key) < n
    {
      assert key(d[t]) in KeysOf(d, key);
      FirstAtPrefix(s, n, key(d[t]), key);
    }
  }

  /** An element whose key is new extends the kept elements of the elements before it. */
  lemma KeepsFirstsSnoc<E, K>(s: seq<E>, d: seq<E>, key: E -> K)
    requires s != [] && KeepsFirsts(s[..|s| - 1], d, key) && key(s[|s| - 1]) !in KeysOf(s[..|s| - 1], key)
    ensures KeepsFirsts(s, d + [s[|s| - 1]], key)
  {
    var n := |s| - 1;
    var init, last := s[..n], s[n];
    var r := d + [last];
    KeepsFirstsPrefix(s, n, d, key);
    KeysOfSnoc(init, last, key);
    KeysOfSnoc(d, last, key);
    assert init + [last] == s;
    assert FirstAt(s, key(last), key) == n;
    forall t | 0 <= t < |r|
      ensures FirstAt(s, key(r[t]), key) < |s| && r[t] == s[FirstAt(s, key(r[t]), key)]
    {
      if t < |d| {
        assert r[t] == d[t];
      }
    }
    forall t, u | 0 <= t < u < |r|
      ensures FirstAt(s, key(r[t]), key) < FirstAt(s, key(r[u]), key)
    {
      assert r[t] == d[t];
      if u < |d| {
        assert r[u] == d[u];
      }
    }
  }

  /** An element whose key was seen leaves the kept elements of the elements before it as they are. */
  lemma KeepsFirstsSeen<E, K>(s: seq<E>, d: seq<E>, key: E -> K)
    requires s != [] && KeepsFirsts(s[..|s| - 1], d, key) && key(s[|s| - 1]) in KeysOf(s[..|s| - 1], key)
    ensures KeepsFirsts(s, d, key)
  {
    var n := |s| - 1;
    KeepsFirstsPrefix(s, n, d, key);
    KeysOfSnoc(s[..n], s[n], key);
    assert s[..n] + [s[n]] == s;
  }

  /**
   * FirstByKey keeps one element per key and loses no key; each element it
   * keeps is the first input element with that key; and the kept elements
   * appear in the order their keys first appear.
   */
  lemma {:induction false} FirstByKeyKeeps<E, K>(s: seq<E>, key: E -> K)
    ensures KeysOf(FirstByKey(s, key), key) == KeysOf(s, key)
    ensures forall t :: 0 <= t < |FirstByKey(s, key)| ==>
              FirstAt(s, key(FirstByKey(s, key)[t]), key) < |s| &&
              FirstByKey(s, key)[t] == s[FirstAt(s, key(FirstByKey(s, key)[t]), key)]
    ensures forall t, u :: 0 <= t < u < |FirstByKey(s, key)| ==>
              FirstAt(s, key(FirstByKey(s, key)[t]), key) < FirstAt(s, key(FirstByKey(s, key)[u]), key)
  {
    if s != [] {
      var init := s[..|s| - 1];
      FirstByKeyKeeps(init, key);
      if key(s[|s| - 1]) in KeysOf(init, key) {
        KeepsFirstsSeen(s, FirstByKey(init, key), key);
      } else {
        KeepsFirstsSnoc(s, FirstByKey(init, key), key);
      }
    }
  }

  /** No two kept elements share a key. */
  lemma FirstByKeyDistinctKeys<E, K>(s: seq<E>, key: E -> K)
    ensures forall t, u :: 0 <= t < u < |FirstByKey(s, key)| ==> key(FirstByKey(s, key)[t]) != key(FirstByKey(s, key)[u])
  {
    FirstByKeyKeeps(s, key);
  }

  // ---------------------------------------------------------------------
  // UniqueSlice

  /** The key UniqueSlice remembers for an element, decided once by the element type's comparability. */
  function ElementKey<E>(comparable: bool, format: E -> string): E -> SeenKey<E>
  {
    e => KeyOf(e, comparable, format)
  }

  /** An element whose lookup in `seenI` panics: a comparable (interface) element type holding an unhashable value. */
  function ElementPanics<E>(comparable: bool, hashable: E -> bool): E -> bool
  {
    e => comparable && !hashable(e)
  }

  /**
   * UniqueSlice: nil and values that are not slices or arrays are refused;
   * otherwise a new slice holds the first element of each key. comparable
   * is the element type's Comparable(); hashable tells whether an element's
   * dynamic value can be hashed (always, unless the element type is an
   * interface holding a slice, map or function). An unhashable element of a
   * comparable type is the runtime panic.
   */
  method UniqueSlice<E(==)>(v: Dynamic<seq<E>>, comparable: bool, hashable: E -> bool, format: E -> string)
    returns (r: Result<seq<E>, ConvertError>)
    ensures v.NilInterface? ==> r == Err(NilInput)
    ensures v.OtherKind? ==> r == Err(NotSliceOrArray)
    ensures v.Holds? ==> r == if SomePanics(v.value, ElementPanics(comparable, hashable)) then Err(UnhashablePanic)
                              else Ok(FirstByKey(v.value, ElementKey(comparable, format)))
    ensures v.Holds? && !comparable ==> r == Ok(FirstByKey(v.value, ElementKey(comparable, format)))
  {
    if v.NilInterface? {
      return Err(NilInput);
    }
    if v.OtherKind? {
      return Err(NotSliceOrArray);
    }
    var out := UniqueBy(v.value, ElementKey(comparable, format), ElementPanics(comparable, hashable));
    if out.None? {
      return Err(UnhashablePanic);
    }
    return Ok(out.value);
  }

  /** For comparable elements UniqueSlice is the element-wise de-duplication of the collections package. */
  lemma {:induction false} ComparableIsDedup<E>(s: seq<E>, format: E -> string)
    ensures FirstByKey(s, ElementKey(true, format)) == Collections.Dedup(s)
  {
    if s != [] {
      var init := s[..|s| - 1];
      var last := s[|s| - 1];
      ComparableIsDedup(init, format);
      var key := ElementKey(true, format);
      assert key(last) in KeysOf(init, key) <==> last in init by {
        if last in init {
          var i :| 0 <= i < |init| && init[i] == last;
          assert key(init[i]) == key(last);
        }
        if key(last) in KeysOf(init, key) {
          var i :| 0 <= i < |init| && key(init[i]) == key(last);
          assert init[i] == last;
        }
      }
    }
  }

  /** Elements whose %#v texts agree count as one: the first is kept, as for slices of non-comparable structs. */
  lemma FormattedCollide<E>(a: E, b: E, c: E, format: E -> string)
    requires format(a) == format(b) != format(c)
    ensures FirstByKey([a, b, c], ElementKey(false, format)) == [a, c]
  {
    var key := ElementKey(false, format);
    assert key(a) == key(b) != key(c);
    assert [a, b, c][..2] == [a, b] && [a, b][..1] == [a] && [a][..0] == [];
    assert FirstByKey([a], key) == [a];
    assert KeysOf([a], key) == {key(a)} by {
      KeysOfSnoc([], a, key);
    }
    assert FirstByKey([a, b], key) == [a];
    assert KeysOf([a, b], key) == {key(a)} by {
      KeysOfSnoc([a], b, key);
    }
  }

  /** De-duplicating one more element. */
  lemma DedupSnoc<E>(s: seq<E>, x: E)
    ensures Collections.Dedup(s + [x]) == if x in s then Collections.Dedup(s) else Collections.Dedup(s) + [x]
  {
    assert (s + [x])[..|s|] == s;
  }

  /** The first half of the package's own check: a, b, a keeps a, b. */
  lemma FirstRepeatDropped<E>(a: E, b: E)
    requires a != b
    ensures Collections.Dedup([a, b, a]) == [a, b]
  {
    assert Collections.Dedup([a]) == [a] by {
      DedupSnoc([], a);
      assert [] + [a] == [a];
    }
    assert Collections.Dedup([a, b]) == [a, b] by {
      DedupSnoc([a], b);
      assert [a] + [b] == [a, b];
    }
    assert Collections.Dedup([a, b, a]) == [a, b] by {
      DedupSnoc([a, b], a);
      assert [a, b] + [a] == [a, b, a];
    }
  }

  /** The shape of the package's own check: a, b, a, c, b, d keeps a, b, c, d. */
  lemma RepeatsDropped<E>(a: E, b: E, c: E, d: E)
    requires a != b && a != c && a != d && b != c && b != d && c != d
    ensures Collections.Dedup([a, b, a, c, b, d]) == [a, b, c, d]
  {
    FirstRepeatDropped(a, b);
    assert Collections.Dedup([a, b, a, c]) == [a, b, c] by {
      DedupSnoc([a, b, a], c);
      assert [a, b, a] + [c] == [a, b, a, c];
    }
    assert Collections.Dedup([a, b, a, c, b]) == [a, b, c] by {
      DedupSnoc([a, b, a, c], b);
      assert [a, b, a, c] + [b] == [a, b, a, c, b];
    }
    assert Collections.Dedup([a, b, a, c, b, d]) == [a, b, c, d] by {
      DedupSnoc([a, b, a, c, b], d);
      assert [a, b, a, c, b] + [d] == [a, b, a, c, b, d];
    }
  }

  /** [1, 2, 1, 3, 2, 4] keeps [1, 2, 3, 4]. */
  lemma IntSample(format: int -> string)
    ensures FirstByKey([1, 2, 1, 3, 2, 4], ElementKey(true, format)) == [1, 2, 3, 4]
  {
    ComparableIsDedup([1, 2, 1, 3, 2, 4], format);
    RepeatsDropped(1, 2, 3, 4);
  }

  // ---------------------------------------------------------------------
  // UniqueSliceByField

  /** A field a name or a tag value designates: exported, and named field, or tagged with field before any comma. */
  predicate Designates(f: StructField, field: string, tag: string)
  {
    f.exported && ((tag != "" && BeforeComma(f.Get(tag)) == field && field != "") || f.name == field)
  }

  /** fieldIndexByNameOrTag: the first field the name or tag value designates. */
  function FieldIndex(fields: seq<StructField>, field: string, tag: string): (r: Option<nat>)
    ensures r.Some? ==> r.value < |fields| && Designates(fields[r.value], field, tag)
    ensures r.Some? ==> forall j :: 0 <= j < r.value ==> !Designates(fields[j], field, tag)
    ensures r.None? <==> forall j :: 0 <= j < |fields| ==> !Designates(fields[j], field, tag)
  {
    if fields == [] then None
    else if Designates(fields[0], field, tag) then Some(0)
    else
      match FieldIndex(fields[1..], field, tag)
      case None => None
      case Some(i) => Some(i + 1)
  }

  /** A designated field with none designated before it is the one FieldIndex finds. */
  lemma FieldIndexIsFirst(fields: seq<StructField>, field: string, tag: string, i: nat)
    requires i < |fields| && Designates(fields[i], field, tag)
    requires forall j :: 0 <= j < i ==> !Designates(fields[j], field, tag)
    ensures FieldIndex(fields, field, tag) == Some(i)
  {
  }

  /** The loop of fieldIndexByNameOrTag: unexported fields skipped, the tag value tried before the Go name. */
  method FieldIndexByNameOrTag(fields: seq<StructField>, field: string, tag: string) returns (r: Option<nat>)
    ensures r == FieldIndex(fields, field, tag)
  {
    for i := 0 to |fields|
      invariant forall j :: 0 <= j < i ==> !Designates(fields[j], field, tag)
    {
      var sf := fields[i];
      if !sf.exported {
        continue;
      }
      if tag != "" {
        var name := BeforeComma(sf.Get(tag));
        if name == field && name != "" {
          FieldIndexIsFirst(fields, field, tag, i);
          return Some(i);
        }
      }
      if sf.name == field {
        FieldIndexIsFirst(fields, field, tag, i);
        return Some(i);
      }
    }
    return None;
  }

  /** The slice's static element type, as far as UniqueSliceByField looks at it. */
  datatype ElementType =
    | Structs(fields: seq<StructField>)
    | StructPointers(fields: seq<StructField>)
    | Maps(stringKeys: bool)
    | OtherElements

  /** An element: the field values of a struct, a pointer to them (None for nil), or a map's entries. */
  datatype Element<V> =
    | StructValue(values: seq<V>)
    | Pointer(target: Option<seq<V>>)
    | MapValue(entries: map<string, V>)

  /** The element has the shape its static type gives it. */
  predicate Typed<V>(t: ElementType, e: Element<V>)
  {
    match t
    case Structs(fields) => e.StructValue? && |e.values| == |fields|
    case StructPointers(fields) => e.Pointer? && (e.target.Some? ==> |e.target.value| == |fields|)
    case Maps(_) => e.MapValue?
    case OtherElements => true
  }

  /** The value UniqueSliceByField keys an element by: none for a nil pointer or a missing map key. */
  function FieldValue<V>(idx: nat, field: string, e: Element<V>): Option<V>
  {
    match e
    case StructValue(values) => if idx < |values| then Some(values[idx]) else None
    case Pointer(target) => if target.Some? && idx < |target.value| then Some(target.value[idx]) else None
    case MapValue(entries) => if field in entries then Some(entries[field]) else None
  }

  /**
   * The key UniqueSliceByField remembers for an element: the placeholder
   * for a nil pointer or a missing map key, otherwise the key of the field
   * value, by the static comparability of the field's (or the map value's) type.
   */
  function FieldKey<V>(idx: nat, field: string, comparable: bool, format: V -> string, e: Element<V>): (k: SeenKey<V>)
    ensures FieldValue(idx, field, e).None? <==> k == Missing
  {
    match FieldValue(idx, field, e)
    case None => Missing
    case Some(x) => KeyOf(x, comparable, format)
  }

  /** FieldKey as the key function of one call. */
  function FieldKeyOf<V>(idx: nat, field: string, comparable: bool, format: V -> string): Element<V> -> SeenKey<V>
  {
    e => FieldKey(idx, field, comparable, format, e)
  }

  /** An element whose lookup panics: a present value of a comparable (interface) type that cannot be hashed. */
  function FieldPanics<V>(idx: nat, field: string, comparable: bool, hashable: V -> bool): Element<V> -> bool
  {
    e => comparable && FieldValue(idx, field, e).Some? && !hashable(FieldValue(idx, field, e).value)
  }

  /**
   * UniqueSliceByField: the checks in the source's order (nil, empty field
   * name, not a slice or array), then by element type: structs and struct
   * pointers need the field, maps need string keys, any other element type
   * is refused.
   */
  method UniqueSliceByField<V(==)>(v: Dynamic<seq<Element<V>>>, t: ElementType, field: string, tag: string,
                                   comparable: bool, hashable: V -> bool, format: V -> string)
    returns (r: Result<seq<Element<V>>, ConvertError>)
    requires v.Holds? ==> forall i :: 0 <= i < |v.value| ==> Typed(t, v.value[i])
    ensures v.NilInterface? ==> r == Err(NilInput)
    ensures !v.NilInterface? && field == "" ==> r == Err(EmptyFieldName)
    ensures v.OtherKind? && field != "" ==> r == Err(NotSliceOrArray)
    ensures v.Holds? && field != "" && (t.Structs? || t.StructPointers?) ==>
              match FieldIndex(t.fields, field, tag)
              case None => r == Err(FieldNotFound)
              case Some(idx) =>
                r == if SomePanics(v.value, FieldPanics(idx, field, comparable, hashable)) then Err(UnhashablePanic)
                     else Ok(FirstByKey(v.value, FieldKeyOf(idx, field, comparable, format)))
    ensures v.Holds? && field != "" && t.Maps? ==>
              r == if !t.stringKeys then Err(MapKeyNotString)
                   else if SomePanics(v.value, FieldPanics(0, field, comparable, hashable)) then Err(UnhashablePanic)
                   else Ok(FirstByKey(v.value, FieldKeyOf(0, field, comparable, format)))
    ensures v.Holds? && field != "" && t.OtherElements? ==> r == Err(UnsupportedElement)
  {
    if v.NilInterface? {
      return Err(NilInput);
    }
    if field == "" {
      return Err(EmptyFieldName);
    }
    if v.OtherKind? {
      return Err(NotSliceOrArray);
    }
    if t.Structs? || t.StructPointers? {
      var idx := FieldIndexByNameOrTag(t.fields, field, tag);
      if idx.None? {
        return Err(FieldNotFound);
      }
      var out := UniqueBy(v.value, FieldKeyOf(idx.value, field, comparable, format), FieldPanics(idx.value, field, comparable, hashable));
      if out.None? {
        return Err(UnhashablePanic);
      }
      return Ok(out.value);
    }
    if t.Maps? {
      if !t.stringKeys {
        return Err(MapKeyNotString);
      }
      var out := UniqueBy(v.value, FieldKeyOf(0, field, comparable, format), FieldPanics(0, field, comparable, hashable));
      if out.None? {
        return Err(UnhashablePanic);
      }
      return Ok(out.value);
    }
    return Err(UnsupportedElement);
  }

  /** Nil pointers and elements lacking the map key share one key: only the first of them is kept. */
  lemma MissingKeptOnce<V>(s: seq<Element<V>>, idx: nat, field: string, comparable: bool, format: V -> string)
    ensures forall t, u :: 0 <= t < u < |FirstByKey(s, FieldKeyOf(idx, field, comparable, format))| ==>
              FieldKey(idx, field, comparable, format, FirstByKey(s, FieldKeyOf(idx, field, comparable, format))[t]) != Missing ||
              FieldKey(idx, field, comparable, format, FirstByKey(s, FieldKeyOf(idx, field, comparable, format))[u]) != Missing
  {
    FirstByKeyDistinctKeys(s, FieldKeyOf(idx, field, comparable, format));
  }

  /** Of three elements, the third is dropped when it repeats the first's key and the second's key differs. */
  lemma ThirdRepeatsFirst<E, K>(a: E, b: E, c: E, key: E -> K)
    requires key(a) == key(c) != key(b)
    ensures FirstByKey([a, b, c], key) == [a, b]
  {
    assert [a, b, c][..2] == [a, b] && [a, b][..1] == [a] && [a][..0] == [];
    assert KeysOf([a], key) == {key(a)} by {
      KeysOfSnoc([], a, key);
    }
    assert FirstByKey([a, b], key) == [a, b];
    assert KeysOf([a, b], key) == {key(a), key(b)} by {
      KeysOfSnoc([a], b, key);
    }
  }

  /** Three elements with three different keys are all kept. */
  lemma ThreeKeysKept<E, K>(a: E, b: E, c: E, key: E -> K)
    requires key(a) != key(b) && key(a) != key(c) && key(b) != key(c)
    ensures FirstByKey([a, b, c], key) == [a, b, c]
  {
    assert [a, b, c][..2] == [a, b] && [a, b][..1] == [a] && [a][..0] == [];
    assert KeysOf([a], key) == {key(a)} by {
      KeysOfSnoc([], a, key);
    }
    assert FirstByKey([a, b], key) == [a, b];
    assert KeysOf([a, b], key) == {key(a), key(b)} by {
      KeysOfSnoc([a], b, key);
    }
  }

  /** The package's User records: ID tagged json:"id", Name tagged json:"name". */
  function UserFields(): seq<StructField>
  {
    [StructField("ID", true, map["json" := "id"]), StructField("Name", true, map["json" := "name"])]
  }

  /** A User record's field values. */
  function User(id: int, name: string): Element<Value>
  {
    StructValue([Int(W64, id), Str(name)])
  }

  /** ID is found by its Go name without a tag, Name by its json tag value. */
  lemma UserFieldsFound()
    ensures FieldIndex(UserFields(), "ID", "") == Some(0)
    ensures FieldIndex(UserFields(), "name", "json") == Some(1)
  {
    assert BeforeComma("id") == "id";
    assert BeforeComma("name") == "name";
  }

  /** By ID, {1 a}, {2 b}, {1 c} keeps {1 a}, {2 b}; by the json name all three stay. */
  lemma UserSample(format: Value -> string)
    ensures FirstByKey([User(1, "a"), User(2, "b"), User(1, "c")], FieldKeyOf(0, "ID", true, format))
            == [User(1, "a"), User(2, "b")]
    ensures FirstByKey([User(1, "a"), User(2, "b"), User(1, "c")], FieldKeyOf(1, "name", true, format))
            == [User(1, "a"), User(2, "b"), User(1, "c")]
  {
    ThirdRepeatsFirst(User(1, "a"), User(2, "b"), User(1, "c"), FieldKeyOf(0, "ID", true, format));
    ThreeKeysKept(User(1, "a"), User(2, "b"), User(1, "c"), FieldKeyOf(1, "name", true, format));
  }

  /** Two pairs of equal keys keep the first of each pair. */
  lemma TwoPairsCollapse<E, K>(a: E, b: E, c: E, d: E, key: E -> K)
    requires key(a) == key(b) && key(c) == key(d) && key(a) != key(c)
    ensures FirstByKey([a, b, c, d], key) == [a, c]
  {
    assert [a, b, c, d][..3] == [a, b, c] && [a, b, c][..2] == [a, b] && [a, b][..1] == [a] && [a][..0] == [];
    assert KeysOf([a], key) == {key(a)} by {
      KeysOfSnoc([], a, key);
    }
    assert FirstByKey([a, b], key) == [a];
    assert KeysOf([a, b], key) == {key(a)} by {
      KeysOfSnoc([a], b, key);
    }
    assert FirstByKey([a, b, c], key) == [a, c];
    assert KeysOf([a, b, c], key) == {key(a), key(c)} by {
      KeysOfSnoc([a, b], c, key);
    }
  }

  /** Pointers nil, nil, {1 a}, {1 b} by ID keep one nil and {1 a}. */
  lemma PointerSample(format: Value -> string)
    ensures var p := Pointer(Some([Int(W64, 1), Str("a")]));
            var q := Pointer(Some([Int(W64, 1), Str("b")]));
            FirstByKey([Pointer(None), Pointer(None), p, q], FieldKeyOf(0, "ID", true, format)) == [Pointer(None), p]
  {
    var p := Pointer(Some([Int(W64, 1), Str("a")]));
    var q := Pointer(Some([Int(W64, 1), Str("b")]));
    TwoPairsCollapse(Pointer(None), Pointer(None), p, q, FieldKeyOf(0, "ID", true, format));
  }
}
