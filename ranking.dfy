/**
 * Ordering by a score, highest first, as Python's `list.sort(key=...,
 * reverse=True)` / `sorted(..., reverse=True)` and JavaScript's
 * `Array.prototype.sort((a, b) => b.x - a.x)` do it: both sorts are stable,
 * so items with equal scores keep their original relative order.
 */
module Ranking {

  predicate SortedDesc<T>(s: seq<T>, key: T -> real) {
    forall i, j :: 0 <= i < j < |s| ==> key(s[i]) >= key(s[j])
  }

  /** The items of `s` whose score is `k`, in their order in `s`. */
  function WithKey<T>(s: seq<T>, key: T -> real, k: real): (r: seq<T>)
    ensures |r| <= |s|
  {
    if s == [] then []
    else if key(s[0]) == k then [s[0]] + WithKey(s[1..], key, k)
    else WithKey(s[1..], key, k)
  }

  /** Place `x` before the first item that does not outrank it. */
  function Insert<T>(x: T, t: seq<T>, key: T -> real): (r: seq<T>)
    ensures |r| == |t| + 1
  {
    if t == [] || key(t[0]) <= key(x) then [x] + t
    else [t[0]] + Insert(x, t[1..], key)
  }

  /** Insertion sort from the back: each item goes in front of the equal-scored items after it. */
  function SortDesc<T>(s: seq<T>, key: T -> real): (r: seq<T>)
    ensures |r| == |s|
  {
    if s == [] then [] else Insert(s[0], SortDesc(s[1..], key), key)
  }

  lemma {:induction false} InsertMultiset<T>(x: T, t: seq<T>, key: T -> real)
    ensures multiset(Insert(x, t, key)) == multiset(t) + multiset{x}
  {
    if !(t == [] || key(t[0]) <= key(x)) {
      InsertMultiset(x, t[1..], key);
      assert t == [t[0]] + t[1..];
    }
  }

  /** The result holds the same items as the input. */
  lemma {:induction false} SortPermutes<T>(s: seq<T>, key: T -> real)
    ensures multiset(SortDesc(s, key)) == multiset(s)
  {
    if s != [] {
      SortPermutes(s[1..], key);
      InsertMultiset(s[0], SortDesc(s[1..], key), key);
      assert s == [s[0]] + s[1..];
    }
  }

  lemma {:induction false} InsertSorted<T>(x: T, t: seq<T>, key: T -> real)
    requires SortedDesc(t, key)
    ensures SortedDesc(Insert(x, t, key), key)
  {
    if !(t == [] || key(t[0]) <= key(x)) {
      InsertSorted(x, t[1..], key);
      var r := Insert(x, t, key);
      var tail := Insert(x, t[1..], key);
      InsertMultiset(x, t[1..], key);
      forall j | 0 < j < |r| ensures key(r[0]) >= key(r[j]) {
        assert r[j] == tail[j - 1];
        assert r[j] in multiset(tail);
        assert r[j] in multiset(t[1..]) + multiset{x};
        if r[j] != x {
          assert r[j] in t[1..];
        }
      }
    }
  }

  /** The result is ordered by score, highest first. */
  lemma {:induction false} SortSorted<T>(s: seq<T>, key: T -> real)
    ensures SortedDesc(SortDesc(s, key), key)
  {
    if s != [] {
      SortSorted(s[1..], key);
      InsertSorted(s[0], SortDesc(s[1..], key), key);
    }
  }

  lemma {:induction false} InsertStable<T>(x: T, t: seq<T>, key: T -> real, k: real)
    ensures WithKey(Insert(x, t, key), key, k) == if key(x) == k then [x] + WithKey(t, key, k) else WithKey(t, key, k)
  {
    if t == [] || key(t[0]) <= key(x) {
      assert ([x] + t)[1..] == t;
    } else {
      InsertStable(x, t[1..], key, k);
      assert ([t[0]] + Insert(x, t[1..], key))[1..] == Insert(x, t[1..], key);
    }
  }

  /** Stability: the items of each score come out in their original order. */
  lemma {:induction false} SortStable<T>(s: seq<T>, key: T -> real, k: real)
    ensures WithKey(SortDesc(s, key), key, k) == WithKey(s, key, k)
  {
    if s != [] {
      SortStable(s[1..], key, k);
      InsertStable(s[0], SortDesc(s[1..], key), key, k);
    }
  }

  /** The first item of a non-empty ranking has the highest score. */
  lemma FirstIsMax<T>(s: seq<T>, key: T -> real)
    requires s != []
    ensures forall x :: x in s ==> key(SortDesc(s, key)[0]) >= key(x)
  {
    var r := SortDesc(s, key);
    SortSorted(s, key);
    SortPermutes(s, key);
    forall x | x in s ensures key(r[0]) >= key(x) {
      assert x in multiset(s);
      assert x in multiset(r);
      var j :| 0 <= j < |r| && r[j] == x;
    }
  }
}
