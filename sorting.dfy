/** The platform sort as the app uses it: `arr.sort((a, b) => key(b) - key(a))`,
    a stable sort into non-increasing key order, modelled as insertion sort.
    Stability is stated per key: the elements that share a key keep their order. */
module Sorting {

  ghost predicate SortedDesc<T>(s: seq<T>, key: T -> int) {
    forall i, j :: 0 <= i < j < |s| ==> key(s[i]) >= key(s[j])
  }

  /** The elements of `s` whose key is `k`, in their order in `s`. */
  function WithKey<T>(s: seq<T>, key: T -> int, k: int): (r: seq<T>)
    ensures |r| <= |s|
    ensures forall i :: 0 <= i < |r| ==> key(r[i]) == k
    ensures forall x :: x in r ==> x in s
  {
    if s == [] then []
    else (if key(s[0]) == k then [s[0]] else []) + WithKey(s[1..], key, k)
  }

  /** Puts `x` in front of the first element whose key is not larger than its own. */
  function InsertDesc<T>(x: T, s: seq<T>, key: T -> int): (r: seq<T>)
    ensures |r| == |s| + 1
    ensures multiset(r) == multiset(s) + multiset{x}
  {
    if s == [] || key(x) >= key(s[0]) then [x] + s
    else
      assert s == [s[0]] + s[1..];
      [s[0]] + InsertDesc(x, s[1..], key)
  }

  /** The stable sort into non-increasing key order. */
  function SortDesc<T>(s: seq<T>, key: T -> int): (r: seq<T>)
    ensures |r| == |s|
    ensures multiset(r) == multiset(s)
  {
    if s == [] then []
    else
      assert s == [s[0]] + s[1..];
      InsertDesc(s[0], SortDesc(s[1..], key), key)
  }

  lemma {:induction false} InsertKeepsSorted<T>(x: T, s: seq<T>, key: T -> int)
    requires SortedDesc(s, key)
    ensures SortedDesc(InsertDesc(x, s, key), key)
  {
    if s != [] && key(x) < key(s[0]) {
      InsertKeepsSorted(x, s[1..], key);
      var r := InsertDesc(x, s[1..], key);
      assert multiset(r) == multiset(s[1..]) + multiset{x};
      forall j | 0 <= j < |r| ensures key(s[0]) >= key(r[j]) {
        assert r[j] in multiset(r);
        if r[j] != x {
          assert r[j] in multiset(s[1..]);
        }
      }
    }
  }

  /** The sort returns its input in non-increasing key order. */
  lemma {:induction false} SortDescIsSorted<T>(s: seq<T>, key: T -> int)
    ensures SortedDesc(SortDesc(s, key), key)
  {
    if s != [] {
      SortDescIsSorted(s[1..], key);
      InsertKeepsSorted(s[0], SortDesc(s[1..], key), key);
    }
  }

  /** The sort keeps exactly the input's elements. That it keeps each as often as
      it occurs is `SortDesc`'s own ensures. */
  lemma SortDescIsPermutation<T>(s: seq<T>, key: T -> int)
    ensures forall x :: x in SortDesc(s, key) <==> x in s
  {
    var r := SortDesc(s, key);
    forall x ensures x in r <==> x in s {
      assert x in r <==> x in multiset(r);
      assert x in s <==> x in multiset(s);
    }
  }

  lemma {:induction false} WithKeyAppend<T>(a: seq<T>, b: seq<T>, key: T -> int, k: int)
    ensures WithKey(a + b, key, k) == WithKey(a, key, k) + WithKey(b, key, k)
  {
    if a == [] {
      assert a + b == b;
    } else {
      assert (a + b)[1..] == a[1..] + b;
      WithKeyAppend(a[1..], b, key, k);
    }
  }

  lemma {:induction false} InsertIsStable<T>(x: T, s: seq<T>, key: T -> int, k: int)
    requires SortedDesc(s, key)
    ensures WithKey(InsertDesc(x, s, key), key, k) == WithKey([x] + s, key, k)
  {
    if s == [] || key(x) >= key(s[0]) {
    } else {
      InsertIsStable(x, s[1..], key, k);
      var y := s[0];
      assert s == [y] + s[1..];
      calc {
        WithKey(InsertDesc(x, s, key), key, k);
        { WithKeyAppend([y], InsertDesc(x, s[1..], key), key, k); }
        WithKey([y], key, k) + WithKey([x] + s[1..], key, k);
        { WithKeyAppend([x], s[1..], key, k); }
        WithKey([y], key, k) + WithKey([x], key, k) + WithKey(s[1..], key, k);
        // x and y never share a key here, so at most one of them is kept
        WithKey([x], key, k) + WithKey([y], key, k) + WithKey(s[1..], key, k);
        { WithKeyAppend([y], s[1..], key, k); }
        WithKey([x], key, k) + WithKey(s, key, k);
        { WithKeyAppend([x], s, key, k); }
        WithKey([x] + s, key, k);
      }
    }
  }

  /** The sort is stable: for every key, the elements with that key appear in the
      sorted output in the same order as in the input. */
  lemma {:induction false} SortDescIsStable<T>(s: seq<T>, key: T -> int, k: int)
    ensures WithKey(SortDesc(s, key), key, k) == WithKey(s, key, k)
  {
    if s != [] {
      var t := SortDesc(s[1..], key);
      SortDescIsSorted(s[1..], key);
      InsertIsStable(s[0], t, key, k);
      SortDescIsStable(s[1..], key, k);
      calc {
        WithKey(SortDesc(s, key), key, k);
        WithKey([s[0]] + t, key, k);
        { WithKeyAppend([s[0]], t, key, k); }
        WithKey([s[0]], key, k) + WithKey(t, key, k);
        WithKey([s[0]], key, k) + WithKey(s[1..], key, k);
        { WithKeyAppend([s[0]], s[1..], key, k); assert [s[0]] + s[1..] == s; }
        WithKey(s, key, k);
      }
    }
  }

  /** When `x` heads the elements with key `k` and occurs nowhere else among them,
      it stands before every other element with that key. */
  lemma {:induction false} HeadOfKeyComesFirst<T>(r: seq<T>, key: T -> int, x: T, rest: seq<T>, i: int, j: int)
    requires WithKey(r, key, key(x)) == [x] + rest && x !in rest
    requires 0 <= i < |r| && 0 <= j < |r| && r[i] == x && r[j] != x && key(r[j]) == key(x)
    ensures i < j
  {
    assert r == [r[0]] + r[1..];
    WithKeyAppend([r[0]], r[1..], key, key(x));
    if key(r[0]) == key(x) {
      assert WithKey([r[0]], key, key(x)) == [r[0]];
      assert ([r[0]] + WithKey(r[1..], key, key(x)))[0] == r[0];
      assert r[0] == x;
      assert ([x] + rest)[1..] == rest;
      assert ([r[0]] + WithKey(r[1..], key, key(x)))[1..] == WithKey(r[1..], key, key(x));
      if i > 0 {
        WithKeyMember(r[1..], key, key(x), i - 1);
      }
    } else {
      assert WithKey([r[0]], key, key(x)) == [];
      assert i > 0 && j > 0;
      HeadOfKeyComesFirst(r[1..], key, x, rest, i - 1, j - 1);
    }
  }

  lemma {:induction false} WithKeyMember<T>(s: seq<T>, key: T -> int, k: int, i: int)
    requires 0 <= i < |s| && key(s[i]) == k
    ensures s[i] in WithKey(s, key, k)
  {
    assert s == [s[0]] + s[1..];
    WithKeyAppend([s[0]], s[1..], key, k);
    if i > 0 {
      WithKeyMember(s[1..], key, k, i - 1);
    }
  }

  /** Predicate for "`a` is `b` with some elements dropped, the rest in order". */
  predicate IsSubsequence<T(==)>(a: seq<T>, b: seq<T>)
    decreases |b|
  {
    if a == [] then true
    else if b == [] then false
    else if a[0] == b[0] then IsSubsequence(a[1..], b[1..])
    else IsSubsequence(a, b[1..])
  }

  lemma {:induction false} SubsequenceMembers<T>(a: seq<T>, b: seq<T>)
    requires IsSubsequence(a, b)
    ensures forall x :: x in a ==> x in b
    decreases |b|
  {
    if a != [] {
      if a[0] == b[0] {
        SubsequenceMembers(a[1..], b[1..]);
        forall x | x in a ensures x in b {
          if x != a[0] { assert x in a[1..]; }
        }
      } else {
        SubsequenceMembers(a, b[1..]);
      }
    }
  }

  /** Dropping elements from a sorted sequence leaves it sorted. */
  lemma {:induction false} SubsequenceOfSorted<T>(a: seq<T>, b: seq<T>, key: T -> int)
    requires IsSubsequence(a, b) && SortedDesc(b, key)
    ensures SortedDesc(a, key)
    decreases |b|
  {
    if a != [] {
      assert SortedDesc(b[1..], key);
      if a[0] == b[0] {
        SubsequenceOfSorted(a[1..], b[1..], key);
        SubsequenceMembers(a[1..], b[1..]);
        forall j | 0 < j < |a| ensures key(a[0]) >= key(a[j]) {
          assert a[j] in a[1..];
        }
      } else {
        SubsequenceOfSorted(a, b[1..], key);
      }
    }
  }
}
