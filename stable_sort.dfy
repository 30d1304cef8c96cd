/**
 * A stable sort by an integer key, the behaviour `Collections.sort` promises
 * for a comparator that compares keys: ascending by key, and elements with
 * equal keys keep their relative order.
 */
module StableSort {

  ghost predicate SortedBy<T>(key: T -> int, s: seq<T>) {
    forall i, j :: 0 <= i < j < |s| ==> key(s[i]) <= key(s[j])
  }

  /** Put `x` in front of the first element whose key is not smaller. */
  function InsertBy<T>(key: T -> int, x: T, s: seq<T>): seq<T>
    decreases |s|
  {
    if s == [] || key(x) <= key(s[0]) then [x] + s
    else [s[0]] + InsertBy(key, x, s[1..])
  }

  /** Insertion sort: the reference definition of the stable sort. */
  function SortBy<T>(key: T -> int, xs: seq<T>): seq<T>
    decreases |xs|
  {
    if xs == [] then [] else InsertBy(key, xs[0], SortBy(key, xs[1..]))
  }

  /** The elements of `s` whose key is `k`, in their order in `s`. */
  function WithKey<T>(key: T -> int, s: seq<T>, k: int): seq<T>
    decreases |s|
  {
    if s == [] then []
    else (if key(s[0]) == k then [s[0]] else []) + WithKey(key, s[1..], k)
  }

  lemma {:induction false} InsertByMultiset<T>(key: T -> int, x: T, s: seq<T>)
    ensures multiset(InsertBy(key, x, s)) == multiset(s) + multiset{x}
    decreases |s|
  {
    if s != [] && key(x) > key(s[0]) {
      InsertByMultiset(key, x, s[1..]);
      assert s == [s[0]] + s[1..];
    }
  }

  /** A lower bound on every key of `x` and `s` bounds every key of the insertion. */
  lemma {:induction false} InsertByBound<T>(key: T -> int, x: T, s: seq<T>, b: int)
    requires b <= key(x)
    requires forall i :: 0 <= i < |s| ==> b <= key(s[i])
    ensures forall i :: 0 <= i < |InsertBy(key, x, s)| ==> b <= key(InsertBy(key, x, s)[i])
    decreases |s|
  {
    if s != [] && key(x) > key(s[0]) {
      InsertByBound(key, x, s[1..], b);
    }
  }

  lemma {:induction false} InsertBySorted<T>(key: T -> int, x: T, s: seq<T>)
    requires SortedBy(key, s)
    ensures SortedBy(key, InsertBy(key, x, s))
    decreases |s|
  {
    if s != [] && key(x) > key(s[0]) {
      InsertBySorted(key, x, s[1..]);
      InsertByBound(key, x, s[1..], key(s[0]));
      var r := InsertBy(key, x, s);
      assert r == [s[0]] + InsertBy(key, x, s[1..]);
    }
  }

  /** The result is in non-decreasing key order and is a permutation of the input. */
  lemma {:induction false} SortByProperties<T>(key: T -> int, xs: seq<T>)
    ensures SortedBy(key, SortBy(key, xs))
    ensures multiset(SortBy(key, xs)) == multiset(xs)
    decreases |xs|
  {
    if xs != [] {
      SortByProperties(key, xs[1..]);
      InsertBySorted(key, xs[0], SortBy(key, xs[1..]));
      InsertByMultiset(key, xs[0], SortBy(key, xs[1..]));
      assert xs == [xs[0]] + xs[1..];
    }
  }

  /** `WithKey` on a list with a known head. */
  lemma WithKeyCons<T>(key: T -> int, a: T, t: seq<T>, k: int)
    ensures WithKey(key, [a] + t, k) == (if key(a) == k then [a] else []) + WithKey(key, t, k)
  {
    assert ([a] + t)[1..] == t;
  }

  lemma {:induction false} InsertByWithKey<T>(key: T -> int, x: T, s: seq<T>, k: int)
    ensures WithKey(key, InsertBy(key, x, s), k)
         == (if key(x) == k then [x] else []) + WithKey(key, s, k)
    decreases |s|
  {
    if s == [] || key(x) <= key(s[0]) {
      assert InsertBy(key, x, s) == [x] + s;
      WithKeyCons(key, x, s, k);
    } else {
      var t := s[1..];
      assert s == [s[0]] + t;
      assert InsertBy(key, x, s) == [s[0]] + InsertBy(key, x, t);
      InsertByWithKey(key, x, t, k);
      WithKeyCons(key, s[0], InsertBy(key, x, t), k);
      WithKeyCons(key, s[0], t, k);
    }
  }

  /** Stability: for every key, the elements carrying it keep their relative order. */
  lemma {:induction false} SortByIsStable<T>(key: T -> int, xs: seq<T>, k: int)
    ensures WithKey(key, SortBy(key, xs), k) == WithKey(key, xs, k)
    decreases |xs|
  {
    if xs != [] {
      SortByIsStable(key, xs[1..], k);
      InsertByWithKey(key, xs[0], SortBy(key, xs[1..]), k);
    }
  }

  /** Sorting a list that is already in order leaves it as it is. */
  lemma {:induction false} SortBySortedIsIdentity<T>(key: T -> int, xs: seq<T>)
    requires SortedBy(key, xs)
    ensures SortBy(key, xs) == xs
    decreases |xs|
  {
    if xs != [] {
      assert SortedBy(key, xs[1..]);
      SortBySortedIsIdentity(key, xs[1..]);
      assert xs == [xs[0]] + xs[1..];
    }
  }

  /** Sorting twice is sorting once. */
  lemma SortByIdempotent<T>(key: T -> int, xs: seq<T>)
    ensures SortBy(key, SortBy(key, xs)) == SortBy(key, xs)
  {
    SortByProperties(key, xs);
    SortBySortedIsIdentity(key, SortBy(key, xs));
  }

  /** Sorting neither adds nor drops elements. */
  lemma SortByMembers<T>(key: T -> int, xs: seq<T>)
    ensures |SortBy(key, xs)| == |xs|
    ensures forall x :: x in SortBy(key, xs) <==> x in xs
  {
    SortByProperties(key, xs);
    assert |multiset(SortBy(key, xs))| == |multiset(xs)|;
    forall x ensures x in SortBy(key, xs) <==> x in xs {
      assert x in SortBy(key, xs) <==> x in multiset(SortBy(key, xs));
      assert x in xs <==> x in multiset(xs);
    }
  }
}
