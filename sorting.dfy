/** The stable sort behind Laravel's `Collection::sortBy` and PHP's `usort`
    (both stable since PHP 8.0): an insertion sort ordering a sequence by an
    integer key, ascending. A descending order is the ascending order of the
    negated key. */
module Sorting {

  /** `s` is ordered by `key`, ascending. */
  predicate SortedBy<T>(s: seq<T>, key: T -> int) {
    forall i, j :: 0 <= i < j < |s| ==> key(s[i]) <= key(s[j])
  }

  /** Puts `x` in front of the first element whose key is not smaller, so that
      `x` stays ahead of the elements with an equal key. */
  function Insert<T>(x: T, s: seq<T>, key: T -> int): (r: seq<T>)
    requires SortedBy(s, key)
    ensures SortedBy(r, key)
    ensures multiset(r) == multiset(s) + multiset{x}
    ensures |r| == |s| + 1
    ensures r[0] == x || (s != [] && r[0] == s[0])
  {
    if s == [] || key(x) <= key(s[0]) then
      [x] + s
    else
      var rest := Insert(x, s[1..], key);
      assert multiset(s) == multiset{s[0]} + multiset(s[1..]) by {
        assert s == [s[0]] + s[1..];
      }
      assert key(s[0]) <= key(rest[0]);
      [s[0]] + rest
  }

  /** The elements of `s` ordered by `key`, ascending; a permutation of `s`. */
  function SortBy<T>(s: seq<T>, key: T -> int): (r: seq<T>)
    ensures SortedBy(r, key)
    ensures multiset(r) == multiset(s)
    ensures |r| == |s|
  {
    if s == [] then []
    else
      assert s == [s[0]] + s[1..];
      Insert(s[0], SortBy(s[1..], key), key)
  }

  /** The elements of `s` whose key is `k`, in their order in `s`. */
  function WithKey<T>(s: seq<T>, key: T -> int, k: int): seq<T> {
    if s == [] then []
    else (if key(s[0]) == k then [s[0]] else []) + WithKey(s[1..], key, k)
  }

  lemma {:induction false} WithKeyInsert<T>(x: T, s: seq<T>, key: T -> int, k: int)
    requires SortedBy(s, key)
    ensures WithKey(Insert(x, s, key), key, k)
         == (if key(x) == k then [x] else []) + WithKey(s, key, k)
  {
    if s == [] || key(x) <= key(s[0]) {
      assert Insert(x, s, key) == [x] + s;
      assert ([x] + s)[1..] == s;
    } else {
      assert SortedBy(s[1..], key);
      assert Insert(x, s, key) == [s[0]] + Insert(x, s[1..], key);
      var rest := Insert(x, s[1..], key);
      var head := if key(s[0]) == k then [s[0]] else [];
      var mine := if key(x) == k then [x] else [];
      assert ([s[0]] + rest)[1..] == rest;
      assert WithKey([s[0]] + rest, key, k) == head + WithKey(rest, key, k);
      WithKeyInsert(x, s[1..], key, k);
      assert WithKey(s, key, k) == head + WithKey(s[1..], key, k);
      // x sorts after s[0], so at most one of the two is kept
      assert head == [] || mine == [];
      assert head + (mine + WithKey(s[1..], key, k)) == mine + (head + WithKey(s[1..], key, k));
    }
  }

  /** Stability: among elements with the same key, the sorted sequence keeps
      the order they had in the input. */
  lemma {:induction false} SortByIsStable<T>(s: seq<T>, key: T -> int, k: int)
    ensures WithKey(SortBy(s, key), key, k) == WithKey(s, key, k)
  {
    if s != [] {
      SortByIsStable(s[1..], key, k);
      WithKeyInsert(s[0], SortBy(s[1..], key), key, k);
    }
  }

  /** Applies `f` to every element, in order. */
  function MapSeq<T, U>(s: seq<T>, f: T -> U): (r: seq<U>)
    ensures |r| == |s|
    ensures forall i :: 0 <= i < |s| ==> r[i] == f(s[i])
  {
    if s == [] then [] else [f(s[0])] + MapSeq(s[1..], f)
  }

  /** Mapping commutes with selecting one key, when the image's key is the
      element's key. */
  lemma {:induction false} MapWithKey<T, U>(s: seq<T>, f: T -> U, key: T -> int, imageKey: U -> int, k: int)
    requires forall x :: imageKey(f(x)) == key(x)
    ensures WithKey(MapSeq(s, f), imageKey, k) == MapSeq(WithKey(s, key, k), f)
  {
    if s != [] {
      MapWithKey(s[1..], f, key, imageKey, k);
      assert MapSeq(s, f) == [f(s[0])] + MapSeq(s[1..], f);
      assert (if key(s[0]) == k then [s[0]] else []) + WithKey(s[1..], key, k) == WithKey(s, key, k);
      MapAppend(if key(s[0]) == k then [s[0]] else [], WithKey(s[1..], key, k), f);
    }
  }

  lemma MapAppend<T, U>(a: seq<T>, b: seq<T>, f: T -> U)
    ensures MapSeq(a + b, f) == MapSeq(a, f) + MapSeq(b, f)
  {
  }

  lemma {:induction false} MapInsert<T, U>(x: T, s: seq<T>, key: T -> int, f: T -> U)
    requires SortedBy(s, key)
    ensures multiset(MapSeq(Insert(x, s, key), f)) == multiset(MapSeq(s, f)) + multiset{f(x)}
  {
    if s == [] || key(x) <= key(s[0]) {
      assert MapSeq([x] + s, f) == [f(x)] + MapSeq(s, f);
    } else {
      var rest := Insert(x, s[1..], key);
      MapInsert(x, s[1..], key, f);
      assert MapSeq([s[0]] + rest, f) == [f(s[0])] + MapSeq(rest, f);
      assert MapSeq(s, f) == [f(s[0])] + MapSeq(s[1..], f);
    }
  }

  /** Mapping after sorting yields the same multiset of images as mapping
      the unsorted input. */
  lemma {:induction false} MapSortByMultiset<T, U>(s: seq<T>, key: T -> int, f: T -> U)
    ensures multiset(MapSeq(SortBy(s, key), f)) == multiset(MapSeq(s, f))
  {
    if s != [] {
      MapSortByMultiset(s[1..], key, f);
      MapInsert(s[0], SortBy(s[1..], key), key, f);
    }
  }
}
