/**
 * The model of `Array.prototype.sort` with a comparator: a stable sort of a
 * sequence by a key under a total preorder on keys, written as insertion sort.
 * The comparators of the source become a key function and an order on keys:
 * `(a, b) => a.price - b.price` is key `price` with `<=`, and so on.
 */
module Sorting {

  /** `le` is total and transitive: what a consistent comparator describes. */
  ghost predicate TotalPreorder<K(!new)>(le: (K, K) -> bool) {
    && (forall a, b :: le(a, b) || le(b, a))
    && (forall a, b, c :: le(a, b) && le(b, c) ==> le(a, c))
  }

  /** The orders of numeric comparators: `a - b` ascending and `b - a` descending. */
  predicate IntLe(a: int, b: int) { a <= b }
  predicate IntGe(a: int, b: int) { a >= b }

  lemma IntOrdersArePreorders()
    ensures TotalPreorder(IntLe) && TotalPreorder(IntGe)
  {
  }

  /** Every earlier element's key is `le` every later one's. */
  ghost predicate SortedOn<T, K>(s: seq<T>, key: T -> K, le: (K, K) -> bool) {
    forall i, j :: 0 <= i < j < |s| ==> le(key(s[i]), key(s[j]))
  }

  /** Places `x` before the first element whose key it precedes. */
  function InsertOn<T, K>(x: T, s: seq<T>, key: T -> K, le: (K, K) -> bool): (r: seq<T>)
    ensures multiset(r) == multiset(s) + multiset{x}
    ensures |r| == |s| + 1
  {
    if s == [] then [x]
    else if le(key(x), key(s[0])) then [x] + s
    else
      assert s == [s[0]] + s[1..];
      [s[0]] + InsertOn(x, s[1..], key, le)
  }

  /** Stable insertion sort of `s` by `key` under `le`. */
  function SortOn<T, K>(s: seq<T>, key: T -> K, le: (K, K) -> bool): (r: seq<T>)
    ensures multiset(r) == multiset(s)
    ensures |r| == |s|
  {
    if s == [] then []
    else
      assert s == [s[0]] + s[1..];
      InsertOn(s[0], SortOn(s[1..], key, le), key, le)
  }

  lemma {:induction false} InsertOnSorted<T, K(!new)>(x: T, s: seq<T>, key: T -> K, le: (K, K) -> bool)
    requires TotalPreorder(le)
    requires SortedOn(s, key, le)
    ensures SortedOn(InsertOn(x, s, key, le), key, le)
  {
    if s == [] {
    } else if le(key(x), key(s[0])) {
      forall k | 0 <= k < |s| ensures le(key(x), key(s[k])) {
        if k > 0 {
          assert le(key(s[0]), key(s[k]));
        }
      }
      ConsSorted(x, s, key, le);
    } else {
      var tail := InsertOn(x, s[1..], key, le);
      SortedTail(s, key, le);
      InsertOnSorted(x, s[1..], key, le);
      assert le(key(s[0]), key(x));
      forall k | 0 <= k < |tail| ensures le(key(s[0]), key(tail[k])) {
        assert tail[k] in multiset(tail);
        assert tail[k] in multiset(s[1..]) + multiset{x};
        if tail[k] != x {
          assert tail[k] in s[1..];
          var m :| 1 <= m < |s| && s[m] == tail[k];
        }
      }
      ConsSorted(s[0], tail, key, le);
    }
  }

  /** A sorted sequence stays sorted without its first element. */
  lemma SortedTail<T, K>(s: seq<T>, key: T -> K, le: (K, K) -> bool)
    requires s != [] && SortedOn(s, key, le)
    ensures SortedOn(s[1..], key, le)
  {
    forall i, j | 0 <= i < j < |s[1..]| ensures le(key(s[1..][i]), key(s[1..][j])) {
      assert s[1..][i] == s[i + 1] && s[1..][j] == s[j + 1];
    }
  }

  /** An element below every element of a sorted sequence can go in front. */
  lemma ConsSorted<T, K>(y: T, r: seq<T>, key: T -> K, le: (K, K) -> bool)
    requires SortedOn(r, key, le)
    requires forall k :: 0 <= k < |r| ==> le(key(y), key(r[k]))
    ensures SortedOn([y] + r, key, le)
  {
    var t := [y] + r;
    forall i, j | 0 <= i < j < |t| ensures le(key(t[i]), key(t[j])) {
      assert t[j] == r[j - 1];
      if i > 0 {
        assert t[i] == r[i - 1];
      }
    }
  }

  /** With a consistent order, `SortOn` sorts. */
  lemma {:induction false} SortOnSorted<T, K(!new)>(s: seq<T>, key: T -> K, le: (K, K) -> bool)
    requires TotalPreorder(le)
    ensures SortedOn(SortOn(s, key, le), key, le)
  {
    if s != [] {
      SortOnSorted(s[1..], key, le);
      InsertOnSorted(s[0], SortOn(s[1..], key, le), key, le);
    }
  }
}
