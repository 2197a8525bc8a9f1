/** Stable sorting by a key, as Python's sort does it. */
module Sorting {
  function Insert<T>(x: T, s: seq<T>, key: T -> real): (r: seq<T>)
    ensures |r| == |s| + 1
  {
    if s == [] || key(x) <= key(s[0]) then [x] + s else [s[0]] + Insert(x, s[1..], key)
  }

  function StableSort<T>(s: seq<T>, key: T -> real): (r: seq<T>)
    ensures |r| == |s|
  {
    if s == [] then [] else Insert(s[0], StableSort(s[1..], key), key)
  }

  predicate Ascending<T>(s: seq<T>, key: T -> real) {
    forall i, j :: 0 <= i < j < |s| ==> key(s[i]) <= key(s[j])
  }

  /** Items with a given key, in order: what stability is about. */
  function WithKey<T>(s: seq<T>, key: T -> real, k: real): seq<T> {
    if s == [] then [] else (if key(s[0]) == k then [s[0]] else []) + WithKey(s[1..], key, k)
  }

  lemma {:induction false} InsertPermutes<T>(x: T, s: seq<T>, key: T -> real)
    ensures multiset(Insert(x, s, key)) == multiset{x} + multiset(s)
  {
    if s != [] && key(x) > key(s[0]) {
      InsertPermutes(x, s[1..], key);
      assert s == [s[0]] + s[1..];
    }
  }

  /** A lower bound of a sequence is one of what it holds. */
  lemma {:induction false} InsertBounded<T>(x: T, s: seq<T>, key: T -> real, low: real)
    requires low <= key(x) && forall i :: 0 <= i < |s| ==> low <= key(s[i])
    ensures forall i :: 0 <= i < |Insert(x, s, key)| ==> low <= key(Insert(x, s, key)[i])
  {
    if s != [] && key(x) > key(s[0]) { InsertBounded(x, s[1..], key, low); }
  }

  lemma {:induction false} InsertKeeps<T>(x: T, s: seq<T>, key: T -> real)
    requires Ascending(s, key)
    ensures Ascending(Insert(x, s, key), key)
  {
    if s != [] && key(x) > key(s[0]) {
      InsertKeeps(x, s[1..], key);
      InsertBounded(x, s[1..], key, key(s[0]));
    }
  }

  /** Sorting yields an ascending permutation. */
  lemma {:induction false} SortSorts<T>(s: seq<T>, key: T -> real)
    ensures Ascending(StableSort(s, key), key) && multiset(StableSort(s, key)) == multiset(s)
  {
    if s != [] {
      SortSorts(s[1..], key);
      InsertKeeps(s[0], StableSort(s[1..], key), key);
      InsertPermutes(s[0], StableSort(s[1..], key), key);
      assert s == [s[0]] + s[1..];
    }
  }

  lemma WithKeyFirst<T>(x: T, s: seq<T>, key: T -> real, k: real)
    ensures WithKey([x] + s, key, k) == (if key(x) == k then [x] else []) + WithKey(s, key, k)
  {
  }

  lemma {:induction false} InsertStable<T>(x: T, s: seq<T>, key: T -> real, k: real)
    ensures WithKey(Insert(x, s, key), key, k) == (if key(x) == k then [x] else []) + WithKey(s, key, k)
  {
    hide WithKey;
    if s != [] && key(x) > key(s[0]) {
      InsertStable(x, s[1..], key, k);
      WithKeyFirst(s[0], Insert(x, s[1..], key), key, k);
      WithKeyFirst(s[0], s[1..], key, k);
      assert s == [s[0]] + s[1..];
    } else {
      WithKeyFirst(x, s, key, k);
    }
  }

  /** Sorting keeps items of equal key in their order. */
  lemma {:induction false} SortStable<T>(s: seq<T>, key: T -> real, k: real)
    ensures WithKey(StableSort(s, key), key, k) == WithKey(s, key, k)
  {
    if s != [] {
      SortStable(s[1..], key, k);
      InsertStable(s[0], StableSort(s[1..], key), key, k);
    }
  }

  lemma LeastFirst<T>(a: seq<T>, b: seq<T>, key: T -> real)
    requires a != [] && b != [] && multiset(a) == multiset(b) && Ascending(a, key)
    requires forall j :: 0 < j < |b| ==> key(b[0]) < key(b[j])
    ensures a[0] == b[0]
  {
    assert b[0] in multiset(a) && a[0] in multiset(b);
    var i :| 0 <= i < |a| && a[i] == b[0];
    assert key(a[0]) <= key(a[i]);
  }

  /** Two strictly ascending arrangements of the same items are the same. */
  lemma {:induction false} StrictUnique<T>(a: seq<T>, b: seq<T>, key: T -> real)
    requires multiset(a) == multiset(b) && Ascending(a, key)
    requires forall i, j :: 0 <= i < j < |b| ==> key(b[i]) < key(b[j])
    ensures a == b
  {
    assert |a| == |multiset(a)| && |b| == |multiset(b)|;
    if b != [] {
      LeastFirst(a, b, key);
      TailsMatch(a, b);
      StrictUnique(a[1..], b[1..], key);
    }
  }

  lemma TailsMatch<T>(a: seq<T>, b: seq<T>)
    requires a != [] && b != [] && multiset(a) == multiset(b) && a[0] == b[0]
    ensures multiset(a[1..]) == multiset(b[1..])
  {
    assert a == [a[0]] + a[1..] && b == [b[0]] + b[1..];
    assert multiset(a) == multiset{a[0]} + multiset(a[1..]) && multiset(b) == multiset{b[0]} + multiset(b[1..]);
    assert multiset(a[1..]) == multiset(a) - multiset{a[0]};
    assert multiset(b[1..]) == multiset(b) - multiset{b[0]};
  }
}
