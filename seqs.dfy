// Identities on sequences, stated for any element type so that using them
// on sequences of strings does not compare the strings themselves.

module Seqs {

  lemma TakeAppendLast<T>(a: seq<T>, x: T)
    ensures (a + [x])[..|a|] == a
  {
  }

  lemma TakeAppend<T>(a: seq<T>, b: seq<T>)
    requires b != []
    ensures (a + b)[..|a + b| - 1] == a + b[..|b| - 1]
  {
  }

  lemma AppendAssoc<T>(a: seq<T>, b: seq<T>, c: seq<T>)
    ensures (a + b) + c == a + (b + c)
  {
  }

  lemma TakeTake<T>(a: seq<T>, i: nat)
    requires i < |a|
    ensures a[..i + 1][..i] == a[..i]
  {
  }

  lemma TakeAll<T>(a: seq<T>)
    ensures a[..|a|] == a
  {
  }

  lemma ConsTail<T>(a: seq<T>)
    requires a != []
    ensures a == [a[0]] + a[1..]
  {
  }

  /** f applied to each element, told whether it is the very first. */
  function MapFirst<T, U>(s: seq<T>, f: (T, bool) -> U, first: bool): (r: seq<U>)
    ensures |r| == |s|
    ensures forall i :: 0 <= i < |s| ==> r[i] == f(s[i], first && i == 0)
  {
    seq(|s|, i requires 0 <= i < |s| => f(s[i], first && i == 0))
  }

  /** Mapping a + b maps a, then b; b's head is the very first only when a is empty. */
  lemma MapFirstAppend<T, U>(a: seq<T>, b: seq<T>, f: (T, bool) -> U, first: bool)
    ensures MapFirst(a + b, f, first) == MapFirst(a, f, first) + MapFirst(b, f, first && a == [])
  {
    var l, r := MapFirst(a + b, f, first), MapFirst(a, f, first) + MapFirst(b, f, first && a == []);
    forall i | 0 <= i < |l|
      ensures l[i] == r[i]
    {
      if i >= |a| {
        assert (a + b)[i] == b[i - |a|];
      }
    }
  }

  lemma Snoc<T>(a: seq<T>)
    requires a != []
    ensures a == a[..|a| - 1] + [a[|a| - 1]]
  {
  }

  lemma Ends<T>(a: seq<T>, x: T, b: seq<T>)
    ensures (a + [x] + b)[0] == if a == [] then x else a[0]
    ensures (a + [x] + b)[|a + [x] + b| - 1] == if b == [] then x else b[|b| - 1]
  {
  }

  /** Mapping a non-empty sequence maps its head, then its tail, whose head is no longer the first. */
  lemma MapFirstCons<T, U>(s: seq<T>, f: (T, bool) -> U, first: bool)
    requires s != []
    ensures MapFirst(s, f, first) == [f(s[0], first)] + MapFirst(s[1..], f, false)
  {
    var l, r := MapFirst(s, f, first), [f(s[0], first)] + MapFirst(s[1..], f, false);
    forall i | 0 <= i < |l|
      ensures l[i] == r[i]
    {
    }
  }

  lemma MapFirstOne<T, U>(x: T, f: (T, bool) -> U, first: bool)
    ensures MapFirst([x], f, first) == [f(x, first)]
  {
  }
}
