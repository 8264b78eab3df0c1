/** The stable sort that `Array.prototype.sort` performs when its comparator
    is `key(a) - key(b)`: the result is a permutation of the input, ordered by
    ascending key, and elements with equal keys keep their input order.
    A descending order is a sort by the negated key. */
module Sorting {

  ghost predicate SortedBy<T>(s: seq<T>, key: T -> int) {
    forall i, j :: 0 <= i < j < |s| ==> key(s[i]) <= key(s[j])
  }

  /** The elements of `s` whose key is `k`, in order. Two lists with the same
      `WithKey` for every `k` order each group of equal keys the same way. */
  function WithKey<T>(s: seq<T>, key: T -> int, k: int): seq<T> {
    if s == [] then []
    else if key(s[0]) == k then [s[0]] + WithKey(s[1..], key, k)
    else WithKey(s[1..], key, k)
  }

  /** Inserts `x` before the first element whose key is not smaller, so that
      `x` precedes the elements of equal key already in `s`. */
  function Insert<T>(x: T, s: seq<T>, key: T -> int): seq<T> {
    if s == [] || key(x) <= key(s[0]) then [x] + s
    else [s[0]] + Insert(x, s[1..], key)
  }

  lemma {:induction false} InsertPermutes<T>(x: T, s: seq<T>, key: T -> int)
    ensures |Insert(x, s, key)| == |s| + 1
    ensures multiset(Insert(x, s, key)) == multiset{x} + multiset(s)
  {
    if s != [] && key(s[0]) < key(x) {
      InsertPermutes(x, s[1..], key);
      assert s == [s[0]] + s[1..];
    }
  }

  /** Every key in `s` is at least `lo`, and inserting keeps that true. */
  lemma {:induction false} InsertLowerBound<T>(x: T, s: seq<T>, key: T -> int, lo: int)
    requires lo <= key(x)
    requires forall i :: 0 <= i < |s| ==> lo <= key(s[i])
    ensures forall i :: 0 <= i < |Insert(x, s, key)| ==> lo <= key(Insert(x, s, key)[i])
  {
    if s != [] && key(s[0]) < key(x) {
      InsertLowerBound(x, s[1..], key, lo);
    }
  }

  lemma {:induction false} InsertSorted<T>(x: T, s: seq<T>, key: T -> int)
    requires SortedBy(s, key)
    ensures SortedBy(Insert(x, s, key), key)
  {
    if s != [] && key(s[0]) < key(x) {
      var t := s[1..];
      InsertSorted(x, t, key);
      InsertLowerBound(x, t, key, key(s[0]));
      var r := [s[0]] + Insert(x, t, key);
      forall i, j | 0 <= i < j < |r| ensures key(r[i]) <= key(r[j]) {
        assert r[j] == Insert(x, t, key)[j - 1];
        if i > 0 { assert r[i] == Insert(x, t, key)[i - 1]; }
      }
    } else {
      var r := [x] + s;
      forall i, j | 0 <= i < j < |r| ensures key(r[i]) <= key(r[j]) {
        assert r[j] == s[j - 1];
        if i > 0 { assert r[i] == s[i - 1]; }
      }
    }
  }

  /** `x` joins the group of its key at the front and no other group changes. */
  lemma {:induction false} InsertWithKey<T>(x: T, s: seq<T>, key: T -> int, k: int)
    ensures WithKey(Insert(x, s, key), key, k)
            == (if key(x) == k then [x] else []) + WithKey(s, key, k)
  {
    if s != [] && key(s[0]) < key(x) {
      InsertWithKey(x, s[1..], key, k);
      assert ([s[0]] + Insert(x, s[1..], key))[1..] == Insert(x, s[1..], key);
    } else {
      assert ([x] + s)[1..] == s;
    }
  }

  /** Stable insertion sort by ascending `key`. */
  function SortBy<T>(s: seq<T>, key: T -> int): (r: seq<T>)
    ensures |r| == |s|
    ensures multiset(r) == multiset(s)
    ensures SortedBy(r, key)
    ensures forall k :: WithKey(r, key, k) == WithKey(s, key, k)
  {
    if s == [] then []
    else
      var t := SortBy(s[1..], key);
      InsertPermutes(s[0], t, key);
      InsertSorted(s[0], t, key);
      assert forall k :: WithKey(Insert(s[0], t, key), key, k) == WithKey(s, key, k) by {
        forall k ensures WithKey(Insert(s[0], t, key), key, k) == WithKey(s, key, k) {
          InsertWithKey(s[0], t, key, k);
        }
      }
      assert s == [s[0]] + s[1..];
      Insert(s[0], t, key)
  }

  /** The first element of a sorted list has the smallest key of the input. */
  lemma {:induction false} SortedHeadIsMinimum<T>(s: seq<T>, key: T -> int)
    requires s != []
    ensures SortBy(s, key) != []
    ensures forall i :: 0 <= i < |s| ==> key(SortBy(s, key)[0]) <= key(s[i])
    ensures exists i :: 0 <= i < |s| && SortBy(s, key)[0] == s[i]
  {
    var r := SortBy(s, key);
    forall i | 0 <= i < |s| ensures key(r[0]) <= key(s[i]) {
      assert s[i] in multiset(r);
      var m :| 0 <= m < |r| && r[m] == s[i];
      assert m == 0 || key(r[0]) <= key(r[m]);
    }
    assert r[0] in multiset(s);
    assert r[0] in s;
  }
}
