/** `Array.prototype.sort` with a comparator that orders by a numeric key.
    The language guarantees a stable sort, so the model is a stable insertion
    sort on a real-valued key: ascending keys, and equal keys in their original
    order. A descending sort (`b - a` comparators) is the ascending sort on the
    negated key. */
module Sorting {
  import opened Common

  ghost predicate Sorted<T>(s: seq<T>, key: T -> real) {
    forall i, j :: 0 <= i < j < |s| ==> key(s[i]) <= key(s[j])
  }

  ghost predicate AllAtLeast<T>(s: seq<T>, key: T -> real, b: real) {
    forall i :: 0 <= i < |s| ==> b <= key(s[i])
  }

  /** Insert `x` before the first element whose key is not smaller than its own. */
  function Insert<T>(x: T, s: seq<T>, key: T -> real): (r: seq<T>)
    ensures |r| == |s| + 1
  {
    if s == [] then [x]
    else if key(x) <= key(s[0]) then [x] + s
    else [s[0]] + Insert(x, s[1..], key)
  }

  /** The stable sort of `s` by ascending `key`. */
  function SortBy<T>(s: seq<T>, key: T -> real): (r: seq<T>)
    ensures |r| == |s|
  {
    if s == [] then [] else Insert(s[0], SortBy(s[1..], key), key)
  }

  lemma SortedCons<T>(a: T, s: seq<T>, key: T -> real)
    requires Sorted(s, key) && AllAtLeast(s, key, key(a))
    ensures Sorted([a] + s, key)
  {
    var r := [a] + s;
    forall i, j | 0 <= i < j < |r| ensures key(r[i]) <= key(r[j]) {
      assert r[j] == s[j - 1];
      if i > 0 {
        assert r[i] == s[i - 1];
      }
    }
  }

  lemma {:induction false} InsertAtLeast<T>(x: T, s: seq<T>, key: T -> real, b: real)
    requires AllAtLeast(s, key, b) && b <= key(x)
    ensures AllAtLeast(Insert(x, s, key), key, b)
    decreases |s|
  {
    if s != [] && key(x) > key(s[0]) {
      InsertAtLeast(x, s[1..], key, b);
      var r := Insert(x, s, key);
      forall i | 0 <= i < |r| ensures b <= key(r[i]) {
        if i > 0 {
          assert r[i] == Insert(x, s[1..], key)[i - 1];
        }
      }
    }
  }

  lemma {:induction false} InsertSorted<T>(x: T, s: seq<T>, key: T -> real)
    requires Sorted(s, key)
    ensures Sorted(Insert(x, s, key), key)
    ensures multiset(Insert(x, s, key)) == multiset(s) + multiset{x}
    decreases |s|
  {
    if s == [] {
    } else if key(x) <= key(s[0]) {
      SortedCons(x, s, key);
    } else {
      var rest := Insert(x, s[1..], key);
      assert Insert(x, s, key) == [s[0]] + rest;
      InsertSorted(x, s[1..], key);
      InsertAtLeast(x, s[1..], key, key(s[0]));
      SortedCons(s[0], rest, key);
      assert s == [s[0]] + s[1..];
      assert multiset([s[0]] + rest) == multiset{s[0]} + multiset(rest);
      assert multiset(s) == multiset{s[0]} + multiset(s[1..]);
    }
  }

  /** `SortBy` returns its input rearranged into ascending key order. */
  lemma {:induction false} SortBySorted<T>(s: seq<T>, key: T -> real)
    ensures Sorted(SortBy(s, key), key)
    ensures multiset(SortBy(s, key)) == multiset(s)
    decreases |s|
  {
    if s != [] {
      SortBySorted(s[1..], key);
      InsertSorted(s[0], SortBy(s[1..], key), key);
      assert s == [s[0]] + s[1..];
    }
  }

  /** The elements of `s` whose key is `k`, in order. */
  function WithKey<T>(s: seq<T>, key: T -> real, k: real): seq<T> {
    if s == [] then [] else (if key(s[0]) == k then [s[0]] else []) + WithKey(s[1..], key, k)
  }

  lemma {:induction false} WithKeyAll<T>(s: seq<T>, key: T -> real, k: real)
    requires forall i :: 0 <= i < |s| ==> key(s[i]) == k
    ensures WithKey(s, key, k) == s
    decreases |s|
  {
    if s != [] {
      WithKeyAll(s[1..], key, k);
    }
  }

  lemma {:induction false} WithKeyNone<T>(s: seq<T>, key: T -> real, k: real)
    requires forall i :: 0 <= i < |s| ==> key(s[i]) != k
    ensures WithKey(s, key, k) == []
    decreases |s|
  {
    if s != [] {
      WithKeyNone(s[1..], key, k);
    }
  }

  lemma WithKeyCons<T>(a: T, s: seq<T>, key: T -> real, k: real)
    ensures WithKey([a] + s, key, k) == (if key(a) == k then [a] else []) + WithKey(s, key, k)
  {
    assert ([a] + s)[1..] == s;
  }

  /** The step of `InsertWithKey` where `x` goes past the first element. */
  lemma InsertWithKeyPast<T>(x: T, s: seq<T>, key: T -> real, k: real)
    requires s != [] && key(x) > key(s[0])
    requires WithKey(Insert(x, s[1..], key), key, k) ==
             (if key(x) == k then [x] else []) + WithKey(s[1..], key, k)
    ensures WithKey(Insert(x, s, key), key, k) ==
            (if key(x) == k then [x] else []) + WithKey(s, key, k)
  {
    var rest := Insert(x, s[1..], key);
    var tail := WithKey(s[1..], key, k);
    assert Insert(x, s, key) == [s[0]] + rest;
    WithKeyCons(s[0], rest, key, k);
    assert s == [s[0]] + s[1..];
    WithKeyCons(s[0], s[1..], key, k);
    if key(s[0]) == k {
      assert key(x) != k;
      assert WithKey(rest, key, k) == tail;
    } else {
      assert WithKey(s, key, k) == tail;
    }
  }

  lemma {:induction false} InsertWithKey<T>(x: T, s: seq<T>, key: T -> real, k: real)
    ensures WithKey(Insert(x, s, key), key, k) ==
            (if key(x) == k then [x] else []) + WithKey(s, key, k)
    decreases |s|
  {
    if s == [] || key(x) <= key(s[0]) {
      WithKeyCons(x, s, key, k);
    } else {
      InsertWithKey(x, s[1..], key, k);
      InsertWithKeyPast(x, s, key, k);
    }
  }

  /** Stability: for every key value, the elements with that key come out in the order
      they went in. Together with the permutation and sortedness in `SortBy`'s contract
      this determines the result completely. */
  lemma {:induction false} SortByStable<T>(s: seq<T>, key: T -> real, k: real)
    ensures WithKey(SortBy(s, key), key, k) == WithKey(s, key, k)
    decreases |s|
  {
    if s != [] {
      SortByStable(s[1..], key, k);
      InsertWithKey(s[0], SortBy(s[1..], key), key, k);
    }
  }

  lemma {:induction false} SortedSplit<T>(s: seq<T>, key: T -> real, lo: real, hi: real)
    requires Sorted(s, key)
    requires lo < hi
    requires forall i :: 0 <= i < |s| ==> key(s[i]) == lo || key(s[i]) == hi
    ensures s == WithKey(s, key, lo) + WithKey(s, key, hi)
    decreases |s|
  {
    if s != [] {
      var t := s[1..];
      assert Sorted(t, key) by {
        forall i, j | 0 <= i < j < |t| ensures key(t[i]) <= key(t[j]) {
          assert t[i] == s[i + 1] && t[j] == s[j + 1];
        }
      }
      assert s == [s[0]] + t;
      if key(s[0]) == lo {
        SortedSplit(t, key, lo, hi);
      } else {
        forall i | 0 <= i < |s| ensures key(s[i]) == hi {
          assert key(s[0]) <= key(s[i]);
        }
        WithKeyAll(s, key, hi);
        WithKeyNone(s, key, lo);
      }
    }
  }

  /** A sort on a two-valued key is a stable partition: every element with the lower key,
      in input order, followed by every element with the higher key, in input order. */
  lemma TwoKeySort<T>(s: seq<T>, key: T -> real, lo: real, hi: real)
    requires lo < hi
    requires forall i :: 0 <= i < |s| ==> key(s[i]) == lo || key(s[i]) == hi
    ensures SortBy(s, key) == WithKey(s, key, lo) + WithKey(s, key, hi)
  {
    var r := SortBy(s, key);
    SortBySorted(s, key);
    forall i | 0 <= i < |r| ensures key(r[i]) == lo || key(r[i]) == hi {
      assert r[i] in multiset(s);
    }
    SortedSplit(r, key, lo, hi);
    SortByStable(s, key, lo);
    SortByStable(s, key, hi);
  }
}
