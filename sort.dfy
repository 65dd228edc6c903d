/** `Array.prototype.sort` with a numeric comparator `(a, b) => key(a) - key(b)`, which
    JavaScript requires to be stable, written as an insertion sort on sequences. */
module Sorting {

  predicate SortedBy<T>(s: seq<T>, key: T -> real) {
    forall i, j :: 0 <= i < j < |s| ==> key(s[i]) <= key(s[j])
  }

  /** The elements of `s` whose key is `v`, in their order in `s`. */
  function WithKey<T>(s: seq<T>, key: T -> real, v: real): (r: seq<T>)
    ensures |r| <= |s|
  {
    if s == [] then []
    else (if key(s[0]) == v then [s[0]] else []) + WithKey(s[1..], key, v)
  }

  /** Puts `x` in front of the first element whose key is not smaller. */
  function Insert<T>(x: T, s: seq<T>, key: T -> real): (r: seq<T>)
    requires SortedBy(s, key)
    ensures SortedBy(r, key)
    ensures multiset(r) == multiset(s) + multiset{x}
  {
    if s == [] || key(x) <= key(s[0]) then [x] + s
    else
      var rest := Insert(x, s[1..], key);
      assert multiset(s) == multiset{s[0]} + multiset(s[1..]) by { assert s == [s[0]] + s[1..]; }
      assert forall y | y in multiset(rest) :: key(s[0]) <= key(y) by {
        forall y | y in multiset(rest) ensures key(s[0]) <= key(y) {
          if y != x {
            assert y in multiset(s[1..]);
            var k :| 0 <= k < |s[1..]| && s[1..][k] == y;
            assert s[k + 1] == y;
          }
        }
      }
      SortedCons(s[0], rest, key);
      [s[0]] + rest
  }

  lemma SortedCons<T>(x: T, s: seq<T>, key: T -> real)
    requires SortedBy(s, key)
    requires forall y | y in multiset(s) :: key(x) <= key(y)
    ensures SortedBy([x] + s, key)
  {
    var r := [x] + s;
    forall i, j | 0 <= i < j < |r| ensures key(r[i]) <= key(r[j]) {
      if i == 0 {
        assert r[j] == s[j - 1] && r[j] in multiset(s);
      } else {
        assert r[i] == s[i - 1] && r[j] == s[j - 1];
      }
    }
  }

  /** A stable sort: sorted, a permutation, and equal keys keep their order. */
  function SortBy<T>(s: seq<T>, key: T -> real): (r: seq<T>)
    ensures SortedBy(r, key)
    ensures multiset(r) == multiset(s)
    ensures |r| == |s|
  {
    if s == [] then []
    else
      assert s == [s[0]] + s[1..];
      Insert(s[0], SortBy(s[1..], key), key)
  }

  lemma {:induction false} InsertKeepsOrder<T>(x: T, s: seq<T>, key: T -> real, v: real)
    requires SortedBy(s, key)
    ensures WithKey(Insert(x, s, key), key, v)
         == (if key(x) == v then [x] else []) + WithKey(s, key, v)
  {
    if s == [] || key(x) <= key(s[0]) {
      assert ([x] + s)[1..] == s;
    } else {
      var rest := Insert(x, s[1..], key);
      assert SortedBy(s[1..], key);
      InsertKeepsOrder(x, s[1..], key, v);
      assert ([s[0]] + rest)[1..] == rest;
      assert WithKey(s, key, v) == (if key(s[0]) == v then [s[0]] else []) + WithKey(s[1..], key, v);
    }
  }

  /** Stability: sorting does not reorder elements with equal keys. */
  lemma {:induction false} SortByIsStable<T>(s: seq<T>, key: T -> real, v: real)
    ensures WithKey(SortBy(s, key), key, v) == WithKey(s, key, v)
  {
    if s != [] {
      SortByIsStable(s[1..], key, v);
      InsertKeepsOrder(s[0], SortBy(s[1..], key), key, v);
    }
  }

  /** Sorting an already sorted sequence changes nothing. */
  lemma {:induction false} SortBySorted<T>(s: seq<T>, key: T -> real)
    requires SortedBy(s, key)
    ensures SortBy(s, key) == s
  {
    if s != [] {
      assert SortedBy(s[1..], key);
      SortBySorted(s[1..], key);
      assert s == [s[0]] + s[1..];
    }
  }
}
