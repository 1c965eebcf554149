/**
 * Ordering helpers shared by several modules: the ascending enumeration of
 * a set of indices (`Array.from(set).sort((a, b) => a - b)`).
 */
module Sorting {

  predicate StrictlyIncreasing(s: seq<int>) {
    forall i, j :: 0 <= i < j < |s| ==> s[i] < s[j]
  }

  /** A set of naturals holding `x` has a least element. */
  lemma HasLeast(s: set<nat>, x: nat)
    requires x in s
    ensures exists m :: m in s && forall y :: y in s ==> m <= y
    decreases x
  {
    if exists y :: y in s && y < x {
      var y :| y in s && y < x;
      HasLeast(s, y);
    }
  }

  function Least(s: set<nat>): (m: nat)
    requires s != {}
    ensures m in s && forall y :: y in s ==> m <= y
  {
    var x :| x in s;
    HasLeast(s, x);
    var m :| m in s && forall y :: y in s ==> m <= y;
    m
  }

  /** The elements of `s` in ascending order. */
  function SortedElements(s: set<nat>): seq<nat>
    decreases |s|
  {
    if s == {} then [] else [Least(s)] + SortedElements(s - {Least(s)})
  }

  /** `SortedElements(s)` lists exactly the elements of `s`, once each, ascending. */
  lemma SortedElementsSpec(s: set<nat>)
    ensures |SortedElements(s)| == |s|
    ensures forall i :: 0 <= i < |SortedElements(s)| ==> SortedElements(s)[i] in s
    ensures forall x :: x in s ==> x in SortedElements(s)
    ensures StrictlyIncreasing(SortedElements(s))
  {
    SortedElementsMembers(s);
    SortedElementsIncreasing(s);
  }

  lemma {:induction false} SortedElementsMembers(s: set<nat>)
    ensures |SortedElements(s)| == |s|
    ensures forall i :: 0 <= i < |SortedElements(s)| ==> SortedElements(s)[i] in s
    ensures forall x :: x in s ==> x in SortedElements(s)
    decreases |s|
  {
    if s != {} {
      var m := Least(s);
      var rest := s - {m};
      SortedElementsMembers(rest);
      var r := SortedElements(s);
      assert r == [m] + SortedElements(rest);
      forall i | 0 <= i < |r|
        ensures r[i] in s
      {
        if i > 0 {
          assert r[i] == SortedElements(rest)[i - 1];
        }
      }
      forall x | x in s
        ensures x in r
      {
        if x != m {
          assert x in rest;
        }
      }
    }
  }

  lemma {:induction false} SortedElementsIncreasing(s: set<nat>)
    ensures StrictlyIncreasing(SortedElements(s))
    decreases |s|
  {
    if s != {} {
      var m := Least(s);
      var rest := s - {m};
      SortedElementsIncreasing(rest);
      SortedElementsMembers(rest);
      var r := SortedElements(s);
      assert r == [m] + SortedElements(rest);
      forall i, j | 0 <= i < j < |r|
        ensures r[i] < r[j]
      {
        assert r[j] == SortedElements(rest)[j - 1];
        assert r[j] in rest;
        if i > 0 {
          assert r[i] == SortedElements(rest)[i - 1];
        }
      }
    }
  }

  /** Two ascending sequences with the same elements are equal. */
  lemma {:induction false} IncreasingUnique(a: seq<int>, b: seq<int>)
    requires StrictlyIncreasing(a) && StrictlyIncreasing(b)
    requires forall x :: x in a <==> x in b
    ensures a == b
  {
    if a != [] {
      assert a[0] in a;
    }
    if b != [] {
      assert b[0] in b;
    }
    if a != [] && b != [] {
      assert a[0] in b;
      assert b[0] in a;
      assert a[0] == b[0];
      forall x
        ensures x in a[1..] <==> x in b[1..]
      {
        if x in a[1..] {
          var k :| 1 <= k < |a| && a[k] == x;
          assert a[0] < x && x in b;
          var k' :| 0 <= k' < |b| && b[k'] == x;
          assert k' != 0 && b[1..][k' - 1] == x;
        }
        if x in b[1..] {
          var k :| 1 <= k < |b| && b[k] == x;
          assert b[0] < x && x in a;
          var k' :| 0 <= k' < |a| && a[k'] == x;
          assert k' != 0 && a[1..][k' - 1] == x;
        }
      }
      IncreasingUnique(a[1..], b[1..]);
      assert a == [a[0]] + a[1..];
      assert b == [b[0]] + b[1..];
    }
  }

  /** The indices below `n`. */
  function Below(n: nat): (s: set<nat>)
    ensures forall i: int :: i in s <==> 0 <= i < n
  {
    if n == 0 then {} else Below(n - 1) + {n - 1}
  }

  /** The indices below `n`, in ascending order, are 0, 1, ..., n - 1. */
  lemma SortedRange(n: nat)
    ensures SortedElements(Below(n)) == seq(n, i => i)
  {
    var s := Below(n);
    var r := seq(n, i => i);
    SortedElementsSpec(s);
    forall x
      ensures x in SortedElements(s) <==> x in r
    {
      if 0 <= x < n {
        assert r[x] == x;
      }
    }
    IncreasingUnique(SortedElements(s), r);
  }

  // ---------------------------------------------------------------------
  // `array.sort((a, b) => key(a) - key(b))`: a stable sort by a real key

  predicate SortedBy<T>(s: seq<T>, key: T -> real) {
    forall i, j :: 0 <= i < j < |s| ==> key(s[i]) <= key(s[j])
  }

  /** Puts `x` before the first element whose key is not smaller. */
  function InsertBy<T>(x: T, s: seq<T>, key: T -> real): seq<T> {
    if s == [] || key(x) <= key(s[0]) then [x] + s else [s[0]] + InsertBy(x, s[1..], key)
  }

  /** Insertion sort from the back, which keeps equal keys in their original order. */
  function SortBy<T>(s: seq<T>, key: T -> real): seq<T> {
    if s == [] then [] else InsertBy(s[0], SortBy(s[1..], key), key)
  }

  lemma {:induction false} InsertByPermutation<T>(x: T, s: seq<T>, key: T -> real)
    ensures multiset(InsertBy(x, s, key)) == multiset{x} + multiset(s)
    decreases |s|
  {
    if s != [] && key(x) > key(s[0]) {
      InsertByPermutation(x, s[1..], key);
      assert s == [s[0]] + s[1..];
    }
  }

  lemma {:induction false} InsertBySorted<T>(x: T, s: seq<T>, key: T -> real)
    requires SortedBy(s, key)
    ensures SortedBy(InsertBy(x, s, key), key)
    decreases |s|
  {
    if s != [] && key(x) > key(s[0]) {
      InsertBySorted(x, s[1..], key);
      InsertByPermutation(x, s[1..], key);
      var r := InsertBy(x, s[1..], key);
      forall i | 0 <= i < |r|
        ensures key(s[0]) <= key(r[i])
      {
        assert r[i] in multiset(r);
        if r[i] != x {
          assert r[i] in multiset(s[1..]);
          var k :| 0 <= k < |s[1..]| && s[1..][k] == r[i];
          assert s[k + 1] == r[i];
        }
      }
    }
  }

  /** The sorted list is ascending by key and holds the same elements. */
  lemma {:induction false} SortBySpec<T>(s: seq<T>, key: T -> real)
    ensures SortedBy(SortBy(s, key), key)
    ensures multiset(SortBy(s, key)) == multiset(s)
    ensures |SortBy(s, key)| == |s|
    decreases |s|
  {
    if s != [] {
      SortBySpec(s[1..], key);
      InsertBySorted(s[0], SortBy(s[1..], key), key);
      InsertByPermutation(s[0], SortBy(s[1..], key), key);
      assert s == [s[0]] + s[1..];
      assert |multiset(SortBy(s, key))| == |multiset(s)|;
    }
  }

  /** The elements of `s` whose key is `k`, in their order in `s`. */
  function WithKey<T>(s: seq<T>, key: T -> real, k: real): seq<T> {
    if s == [] then [] else (if key(s[0]) == k then [s[0]] else []) + WithKey(s[1..], key, k)
  }

  lemma WithKeyCons<T>(y: T, t: seq<T>, key: T -> real, k: real)
    ensures WithKey([y] + t, key, k) == (if key(y) == k then [y] else []) + WithKey(t, key, k)
  {
    assert ([y] + t)[1..] == t;
  }

  lemma {:induction false} WithKeyInsertBy<T>(x: T, s: seq<T>, key: T -> real, k: real)
    ensures WithKey(InsertBy(x, s, key), key, k) == (if key(x) == k then [x] else []) + WithKey(s, key, k)
    decreases |s|
  {
    var hx := if key(x) == k then [x] else [];
    if s == [] || key(x) <= key(s[0]) {
      WithKeyCons(x, s, key, k);
    } else {
      var h0 := if key(s[0]) == k then [s[0]] else [];
      var r := InsertBy(x, s[1..], key);
      WithKeyInsertBy(x, s[1..], key, k);
      WithKeyCons(s[0], r, key, k);
      WithKeyCons(s[0], s[1..], key, k);
      assert s == [s[0]] + s[1..];
      assert h0 == [] || hx == [];
      assert WithKey(InsertBy(x, s, key), key, k) == h0 + (hx + WithKey(s[1..], key, k));
    }
  }

  /** The sort is stable: elements with equal keys keep their relative order. */
  lemma {:induction false} SortByStable<T>(s: seq<T>, key: T -> real, k: real)
    ensures WithKey(SortBy(s, key), key, k) == WithKey(s, key, k)
    decreases |s|
  {
    if s != [] {
      SortByStable(s[1..], key, k);
      WithKeyInsertBy(s[0], SortBy(s[1..], key), key, k);
    }
  }

  /** The first element of the sorted list has the least key of all. */
  lemma SortByFirst<T>(s: seq<T>, key: T -> real)
    requires s != []
    ensures SortBy(s, key) != [] && SortBy(s, key)[0] in s
    ensures forall x :: x in s ==> key(SortBy(s, key)[0]) <= key(x)
  {
    var r := SortBy(s, key);
    SortBySpec(s, key);
    assert r[0] in multiset(r);
    forall x | x in s
      ensures key(r[0]) <= key(x)
    {
      assert x in multiset(r);
      var k :| 0 <= k < |r| && r[k] == x;
      if k > 0 {
        assert key(r[0]) <= key(r[k]);
      }
    }
  }
}
