// Go's string ordering and `sort.Strings`. Go compares strings byte by byte
// on their UTF-8 encoding; on runes that is the order of code points, which
// is Dafny's order on `char`.

module GoSort {

  /** a sorts strictly before b: a proper prefix, or smaller at the first difference. */
  predicate Less(a: string, b: string)
    decreases |a|
  {
    b != [] && (a == [] || a[0] < b[0] || (a[0] == b[0] && Less(a[1..], b[1..])))
  }

  predicate LessEq(a: string, b: string)
  {
    a == b || Less(a, b)
  }

  lemma {:induction false} LessIrreflexive(a: string)
    ensures !Less(a, a)
    decreases |a|
  {
    if a != [] {
      LessIrreflexive(a[1..]);
    }
  }

  lemma {:induction false} LessTransitive(a: string, b: string, c: string)
    requires Less(a, b) && Less(b, c)
    ensures Less(a, c)
    decreases |a|
  {
    if a != [] && a[0] == b[0] && b[0] == c[0] {
      LessTransitive(a[1..], b[1..], c[1..]);
    }
  }

  lemma {:induction false} LessTotal(a: string, b: string)
    requires a != b
    ensures Less(a, b) || Less(b, a)
    decreases |a|
  {
    if a != [] && b != [] && a[0] == b[0] {
      assert a == [a[0]] + a[1..] && b == [b[0]] + b[1..];
      LessTotal(a[1..], b[1..]);
    }
  }

  lemma LessAsymmetric(a: string, b: string)
    requires Less(a, b)
    ensures !Less(b, a) && a != b
  {
    LessIrreflexive(a);
    if Less(b, a) {
      LessTransitive(a, b, a);
    }
  }

  lemma LessAntisymmetric(a: string, b: string)
    requires LessEq(a, b) && LessEq(b, a)
    ensures a == b
  {
    if a != b {
      LessAsymmetric(a, b);
    }
  }

  /** The empty string sorts before every other string. */
  lemma EmptyIsLeast(b: string)
    ensures LessEq([], b)
  {
  }

  predicate Sorted(s: seq<string>)
  {
    forall i, j :: 0 <= i < j < |s| ==> LessEq(s[i], s[j])
  }

  /** Sorted without repetitions. */
  predicate StrictlySorted(s: seq<string>)
  {
    forall i, j :: 0 <= i < j < |s| ==> Less(s[i], s[j])
  }

  /** A string no greater than any member of a sorted sequence may lead it. */
  lemma PrependSorted(x: string, s: seq<string>)
    requires Sorted(s)
    requires forall y :: y in s ==> LessEq(x, y)
    ensures Sorted([x] + s)
  {
    forall i, j | 0 <= i < j < |s| + 1
      ensures LessEq(([x] + s)[i], ([x] + s)[j])
    {
      assert s[j - 1] in s;
    }
  }

  /** x placed into a sorted sequence before the first element not below it. */
  function Insert(s: seq<string>, x: string): (r: seq<string>)
    requires Sorted(s)
    ensures Sorted(r)
    ensures multiset(r) == multiset(s) + multiset{x}
  {
    if s == [] then [x]
    else if LessEq(x, s[0]) then
      assert forall y :: y in s ==> LessEq(x, y) by {
        forall y | y in s
          ensures LessEq(x, y)
        {
          if x != s[0] && s[0] != y {
            LessTransitive(x, s[0], y);
          }
        }
      }
      PrependSorted(x, s);
      [x] + s
    else
      assert s == [s[0]] + s[1..];
      LessTotal(x, s[0]);
      var t := Insert(s[1..], x);
      assert forall y :: y in t ==> LessEq(s[0], y) by {
        forall y | y in t
          ensures LessEq(s[0], y)
        {
          assert y in multiset(t);
          assert y in s[1..] || y == x;
        }
      }
      PrependSorted(s[0], t);
      [s[0]] + t
  }

  /** sort.Strings: the same strings, rearranged into ascending order (insertion sort). */
  method SortStrings(xs: seq<string>) returns (r: seq<string>)
    ensures Sorted(r)
    ensures multiset(r) == multiset(xs)
  {
    r := [];
    for i := 0 to |xs|
      invariant Sorted(r)
      invariant multiset(r) == multiset(xs[..i])
    {
      assert xs[..i + 1] == xs[..i] + [xs[i]];
      r := Insert(r, xs[i]);
    }
    assert xs[..|xs|] == xs;
  }

  /** A sorted arrangement of distinct strings is strictly sorted. */
  lemma SortedDistinct(r: seq<string>)
    requires Sorted(r)
    requires forall i, j :: 0 <= i < j < |r| ==> r[i] != r[j]
    ensures StrictlySorted(r)
  {
  }

  /** Distinctness survives a rearrangement. */
  lemma {:induction false} PermutationKeepsDistinct(r: seq<string>, xs: seq<string>)
    requires multiset(r) == multiset(xs)
    requires forall i, j :: 0 <= i < j < |xs| ==> xs[i] != xs[j]
    ensures forall i, j :: 0 <= i < j < |r| ==> r[i] != r[j]
  {
    forall i, j | 0 <= i < j < |r|
      ensures r[i] != r[j]
    {
      if r[i] == r[j] {
        var x := r[i];
        assert multiset(r)[x] >= 2 by {
          assert r == r[..i] + [x] + r[i + 1..j] + [x] + r[j + 1..];
        }
        DistinctCountsOne(xs, x);
      }
    }
  }

  lemma {:induction false} DistinctCountsOne(xs: seq<string>, x: string)
    requires forall i, j :: 0 <= i < j < |xs| ==> xs[i] != xs[j]
    ensures multiset(xs)[x] <= 1
  {
    if xs != [] {
      var t := xs[1..];
      assert xs == [xs[0]] + t;
      DistinctCountsOne(t, x);
      if xs[0] == x {
        assert x !in t;
      }
    }
  }

  /** There is at most one strictly sorted arrangement of a set of strings. */
  lemma {:induction false} StrictlySortedUnique(a: seq<string>, b: seq<string>)
    requires StrictlySorted(a) && StrictlySorted(b)
    requires forall x :: x in a <==> x in b
    ensures a == b
    decreases |a|
  {
    if a != [] {
      assert a[0] in a;
    }
    if b != [] {
      assert b[0] in b;
    }
    if a != [] && b != [] {
      assert b[0] in a && a[0] in b;
      var i :| 0 <= i < |a| && a[i] == b[0];
      var j :| 0 <= j < |b| && b[j] == a[0];
      assert LessEq(a[0], b[0]) && LessEq(b[0], a[0]) by {
        assert i == 0 || Less(a[0], a[i]);
        assert j == 0 || Less(b[0], b[j]);
      }
      LessAntisymmetric(a[0], b[0]);
      forall x
        ensures x in a[1..] <==> x in b[1..]
      {
        if x in a[1..] {
          var i :| 1 <= i < |a| && a[i] == x;
          LessAsymmetric(a[0], a[i]);
          assert x in a && x in b;
          var j :| 0 <= j < |b| && b[j] == x;
          assert j != 0 && b[1..][j - 1] == x;
        }
        if x in b[1..] {
          var j :| 1 <= j < |b| && b[j] == x;
          LessAsymmetric(b[0], b[j]);
          assert x in b && x in a;
          var i :| 0 <= i < |a| && a[i] == x;
          assert i != 0 && a[1..][i - 1] == x;
        }
      }
      StrictlySortedUnique(a[1..], b[1..]);
      assert a == [a[0]] + a[1..] && b == [b[0]] + b[1..];
    }
  }

  /** A finite non-empty set of strings has a least element. */
  lemma {:induction false} LeastExists(s: set<string>)
    requires s != {}
    ensures exists m :: m in s && forall x :: x in s ==> LessEq(m, x)
    decreases |s|
  {
    var y :| y in s;
    if s - {y} == {} {
      forall x | x in s
        ensures x == y
      {
        assert x !in s - {y};
      }
    } else {
      LeastExists(s - {y});
      var m :| m in s - {y} && forall x :: x in s - {y} ==> LessEq(m, x);
      LessTotal(m, y);
      if Less(m, y) {
        assert forall x :: x in s ==> LessEq(m, x);
      } else {
        forall x | x in s
          ensures LessEq(y, x)
        {
          if x != y && x != m {
            assert x in s - {y};
            LessTransitive(y, m, x);
          }
        }
      }
    }
  }

  /** The members of a finite set of strings in ascending order. */
  ghost function SortedOf(s: set<string>): (r: seq<string>)
    ensures StrictlySorted(r)
    ensures |r| == |s|
    ensures forall x :: x in r <==> x in s
    decreases |s|
  {
    if s == {} then []
    else
      LeastExists(s);
      var m :| m in s && forall x :: x in s ==> LessEq(m, x);
      var t := SortedOf(s - {m});
      assert StrictlySorted([m] + t) by {
        forall j | 0 < j < |t| + 1
          ensures Less(m, ([m] + t)[j])
        {
          assert t[j - 1] in s - {m};
        }
      }
      [m] + t
  }

  /**
   * Collecting the members of a set in any order and sorting them gives
   * the one ascending arrangement of the set.
   */
  lemma SortedCollection(r: seq<string>, keys: seq<string>, s: set<string>)
    requires Sorted(r) && multiset(r) == multiset(keys)
    requires forall i, j :: 0 <= i < j < |keys| ==> keys[i] != keys[j]
    requires forall x :: x in keys <==> x in s
    ensures r == SortedOf(s)
  {
    PermutationKeepsDistinct(r, keys);
    SortedDistinct(r);
    forall x
      ensures x in r <==> x in keys
    {
      assert x in r <==> x in multiset(r);
      assert x in keys <==> x in multiset(keys);
    }
    StrictlySortedUnique(r, SortedOf(s));
  }
}
