/**
 * Python's `sorted(xs, key=key, reverse=True)` (main.py:184-188): a stable
 * sort into non-increasing key order. Equal keys keep their original order.
 */
module StableSort {

  /** Every element's key is at least the key of every later element. */
  ghost predicate NonIncreasing<T>(s: seq<T>, key: T -> real) {
    forall i, j :: 0 <= i < j < |s| ==> key(s[i]) >= key(s[j])
  }

  /** An earlier element's key is at least a later one's. */
  lemma NonIncreasingAt<T>(s: seq<T>, key: T -> real, i: int, j: int)
    requires NonIncreasing(s, key) && 0 <= i <= j < |s|
    ensures key(s[i]) >= key(s[j])
  {
  }

  /** An element of a permutation of `t` sits at some position of it. */
  lemma IndexIn<T>(s: seq<T>, t: seq<T>, x: T) returns (p: int)
    requires multiset(s) == multiset(t) && x in t
    ensures 0 <= p < |s| && s[p] == x
  {
    assert x in multiset(t);
    assert x in multiset(s);
    p :| 0 <= p < |s| && s[p] == x;
  }

  /** Every position of a permutation of `t` holds an element of `t`. */
  lemma PositionIn<T>(t: seq<T>, s: seq<T>, p: int)
    requires multiset(s) == multiset(t) && 0 <= p < |s|
    ensures s[p] in t
  {
    assert s[p] in multiset(s);
  }

  /** The elements of `s` whose key is `k`, in their order in `s`. */
  function WithKey<T>(s: seq<T>, key: T -> real, k: real): seq<T> {
    if s == [] then [] else (if key(s[0]) == k then [s[0]] else []) + WithKey(s[1..], key, k)
  }

  /** No element's key exceeds `b`. */
  ghost predicate AllAtMost<T>(s: seq<T>, key: T -> real, b: real) {
    forall i :: 0 <= i < |s| ==> key(s[i]) <= b
  }

  /** Insert `x` before the first element whose key does not exceed that of `x`. */
  function Insert<T>(x: T, s: seq<T>, key: T -> real): (r: seq<T>)
    ensures multiset(r) == multiset(s) + multiset{x}
  {
    if s == [] || key(s[0]) <= key(x) then [x] + s
    else
      assert s == [s[0]] + s[1..];
      [s[0]] + Insert(x, s[1..], key)
  }

  /** Inserting an element under a bound keeps every key under it. */
  lemma {:induction false} InsertAtMost<T>(x: T, s: seq<T>, key: T -> real, b: real)
    requires AllAtMost(s, key, b) && key(x) <= b
    ensures AllAtMost(Insert(x, s, key), key, b)
    decreases |s|
  {
    if !(s == [] || key(s[0]) <= key(x)) {
      InsertAtMost(x, s[1..], key, b);
    }
  }

  /** Inserting into a non-increasing sequence keeps it non-increasing. */
  lemma {:induction false} InsertKeepsOrder<T>(x: T, s: seq<T>, key: T -> real)
    requires NonIncreasing(s, key)
    ensures NonIncreasing(Insert(x, s, key), key)
    decreases |s|
  {
    var r := Insert(x, s, key);
    if s == [] || key(s[0]) <= key(x) {
      forall i, j | 0 <= i < j < |r| ensures key(r[i]) >= key(r[j]) {
        if i > 0 { assert r[i] == s[i - 1]; }
        assert r[j] == s[j - 1];
      }
    } else {
      var rest := Insert(x, s[1..], key);
      InsertKeepsOrder(x, s[1..], key);
      InsertAtMost(x, s[1..], key, key(s[0]));
      forall i, j | 0 <= i < j < |r| ensures key(r[i]) >= key(r[j]) {
        assert r[j] == rest[j - 1];
        if i > 0 { assert r[i] == rest[i - 1]; }
      }
    }
  }

  /** The sorted list: a permutation of `s`, built by inserting each element into the sorted rest. */
  function SortDescending<T>(s: seq<T>, key: T -> real): (r: seq<T>)
    ensures multiset(r) == multiset(s) && |r| == |s|
  {
    if s == [] then []
    else
      assert s == [s[0]] + s[1..];
      Insert(s[0], SortDescending(s[1..], key), key)
  }

  /** The sorted list is in non-increasing key order. */
  lemma {:induction false} SortDescendingOrdered<T>(s: seq<T>, key: T -> real)
    ensures NonIncreasing(SortDescending(s, key), key)
    decreases |s|
  {
    if s != [] {
      SortDescendingOrdered(s[1..], key);
      InsertKeepsOrder(s[0], SortDescending(s[1..], key), key);
    }
  }

  /** Two elements with increasing keys swap places. */
  lemma SortPair<T>(a: T, b: T, key: T -> real)
    requires key(a) < key(b)
    ensures SortDescending([a, b], key) == [b, a]
  {
    assert [a, b][1..] == [b];
    assert SortDescending([b], key) == Insert(b, [], key) == [b];
  }

  /** Insertion puts `x` in front of every element that shares its key. */
  lemma {:induction false} InsertWithKey<T>(x: T, s: seq<T>, key: T -> real, k: real)
    ensures WithKey(Insert(x, s, key), key, k) == (if key(x) == k then [x] else []) + WithKey(s, key, k)
    decreases |s|
  {
    if s == [] || key(s[0]) <= key(x) {
      assert ([x] + s)[1..] == s;
    } else {
      var rest := Insert(x, s[1..], key);
      var h0 := if key(s[0]) == k then [s[0]] else [];
      var hx := if key(x) == k then [x] else [];
      assert ([s[0]] + rest)[1..] == rest;
      assert WithKey([s[0]] + rest, key, k) == h0 + WithKey(rest, key, k);
      InsertWithKey(x, s[1..], key, k);
      assert WithKey(rest, key, k) == hx + WithKey(s[1..], key, k);
      assert WithKey(s, key, k) == h0 + WithKey(s[1..], key, k);
      if h0 == [] {
        assert h0 + (hx + WithKey(s[1..], key, k)) == hx + (h0 + WithKey(s[1..], key, k));
      } else {
        assert hx == [];
        assert h0 + (hx + WithKey(s[1..], key, k)) == hx + (h0 + WithKey(s[1..], key, k));
      }
    }
  }

  /** Stability: for every key, the elements with that key appear in their original order. */
  lemma {:induction false} SortStable<T>(s: seq<T>, key: T -> real, k: real)
    ensures WithKey(SortDescending(s, key), key, k) == WithKey(s, key, k)
    decreases |s|
  {
    if s != [] {
      SortStable(s[1..], key, k);
      InsertWithKey(s[0], SortDescending(s[1..], key), key, k);
    }
  }

  /** In a non-increasing sequence an element with key `k` bounds `k` by the first key. */
  lemma {:induction false} WithKeyBound<T>(s: seq<T>, key: T -> real, k: real)
    requires NonIncreasing(s, key) && WithKey(s, key, k) != []
    ensures s != [] && k <= key(s[0])
    decreases |s|
  {
    if key(s[0]) != k {
      WithKeyBound(s[1..], key, k);
      assert key(s[1]) <= key(s[0]);
    }
  }

  /** The first element is among the elements with its own key. */
  lemma HeadKeyPresent<T>(s: seq<T>, key: T -> real)
    ensures s != [] ==> WithKey(s, key, key(s[0])) != []
  {
  }

  /** Two non-increasing sequences that agree on every key's elements are equal. */
  lemma {:induction false} OrderDeterminedByKeys<T>(r: seq<T>, t: seq<T>, key: T -> real)
    requires NonIncreasing(r, key) && NonIncreasing(t, key)
    requires forall k :: WithKey(r, key, k) == WithKey(t, key, k)
    ensures r == t
    decreases |r|
  {
    if r == [] || t == [] {
      HeadKeyPresent(r, key);
      HeadKeyPresent(t, key);
    } else {
      var k1, k2 := key(r[0]), key(t[0]);
      assert WithKey(r, key, k1) != [];
      WithKeyBound(t, key, k1);
      assert WithKey(t, key, k2) != [];
      WithKeyBound(r, key, k2);
      assert k1 == k2;
      assert WithKey(r, key, k1) == [r[0]] + WithKey(r[1..], key, k1);
      assert WithKey(t, key, k1) == [t[0]] + WithKey(t[1..], key, k1);
      assert r[0] == WithKey(r, key, k1)[0] == WithKey(t, key, k1)[0] == t[0];
      forall k ensures WithKey(r[1..], key, k) == WithKey(t[1..], key, k) {
        assert WithKey(r, key, k) == WithKey(t, key, k);
        if k == k1 {
          assert key(t[0]) == k;
          assert WithKey(r[1..], key, k) == WithKey(r, key, k)[1..] == WithKey(t, key, k)[1..] == WithKey(t[1..], key, k);
        } else {
          assert key(r[0]) != k && key(t[0]) != k;
          assert WithKey(r, key, k) == [] + WithKey(r[1..], key, k) == WithKey(r[1..], key, k);
          assert WithKey(t, key, k) == [] + WithKey(t[1..], key, k) == WithKey(t[1..], key, k);
        }
      }
      OrderDeterminedByKeys(r[1..], t[1..], key);
      assert r == [r[0]] + r[1..] && t == [t[0]] + t[1..];
    }
  }

  /**
   * The sort is the only stable non-increasing arrangement: any sequence in
   * non-increasing key order that keeps each key's elements in the input's
   * order is exactly SortDescending of the input.
   */
  lemma SortDescendingUnique<T>(s: seq<T>, r: seq<T>, key: T -> real)
    requires NonIncreasing(r, key)
    requires forall k :: WithKey(r, key, k) == WithKey(s, key, k)
    ensures r == SortDescending(s, key)
  {
    SortDescendingOrdered(s, key);
    forall k ensures WithKey(r, key, k) == WithKey(SortDescending(s, key), key, k) {
      SortStable(s, key, k);
    }
    OrderDeterminedByKeys(r, SortDescending(s, key), key);
  }
}
