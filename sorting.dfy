/**
 * Python's `sorted(xs, key=...)` and `list.sort(key=...)` for an integer key: a stable sort.
 * Modelled as insertion sort, in which an element is placed before the elements whose key is
 * not smaller than its own, so that equal keys keep their original order.
 */
module Sorting {
  import opened Seqs

  ghost predicate SortedBy<T>(xs: seq<T>, key: T -> int)
  {
    forall i, j :: 0 <= i < j < |xs| ==> key(xs[i]) <= key(xs[j])
  }

  function Insert<T>(x: T, ys: seq<T>, key: T -> int): (r: seq<T>)
    ensures |r| == |ys| + 1
    ensures multiset(r) == multiset(ys) + multiset{x}
  {
    if ys == [] || key(x) <= key(ys[0]) then [x] + ys
    else
      assert ys == [ys[0]] + ys[1..];
      [ys[0]] + Insert(x, ys[1..], key)
  }

  function SortBy<T>(xs: seq<T>, key: T -> int): (r: seq<T>)
    ensures |r| == |xs|
    ensures multiset(r) == multiset(xs)
  {
    if xs == [] then []
    else
      assert xs == [xs[0]] + xs[1..];
      Insert(xs[0], SortBy(xs[1..], key), key)
  }

  lemma {:induction false} InsertSorted<T>(x: T, ys: seq<T>, key: T -> int)
    requires SortedBy(ys, key)
    ensures SortedBy(Insert(x, ys, key), key)
  {
    if ys != [] && key(x) > key(ys[0]) {
      InsertSorted(x, ys[1..], key);
      var r := Insert(x, ys, key);
      forall j | 0 < j < |r| ensures key(r[0]) <= key(r[j]) {
        assert r[j] in multiset(ys[1..]) + multiset{x};
        if r[j] in multiset{x} {
          assert r[j] == x;
        } else {
          assert r[j] in ys[1..];
        }
      }
    }
  }

  /** The sorted sequence is ordered by key and is a permutation of the input. */
  lemma {:induction false} SortBySorted<T>(xs: seq<T>, key: T -> int)
    ensures SortedBy(SortBy(xs, key), key)
    ensures multiset(SortBy(xs, key)) == multiset(xs)
  {
    if xs != [] {
      SortBySorted(xs[1..], key);
      InsertSorted(xs[0], SortBy(xs[1..], key), key);
    }
  }

  /** Sorting keeps exactly the elements of the input. */
  lemma SortByMembers<T>(xs: seq<T>, key: T -> int)
    ensures forall x :: x in SortBy(xs, key) <==> x in xs
  {
    var s := SortBy(xs, key);
    forall x ensures x in s <==> x in xs {
      assert x in s <==> x in multiset(s);
      assert x in xs <==> x in multiset(xs);
    }
  }

  /** The last element of a sorted sequence has the greatest key. */
  lemma SortedLastIsMax<T>(xs: seq<T>, key: T -> int)
    requires SortedBy(xs, key) && xs != []
    ensures forall x :: x in xs ==> key(x) <= key(xs[|xs| - 1])
  {
    forall x | x in xs ensures key(x) <= key(xs[|xs| - 1]) {
      var j :| 0 <= j < |xs| && xs[j] == x;
      if j < |xs| - 1 {
        assert key(xs[j]) <= key(xs[|xs| - 1]);
      }
    }
  }

  /** The predicate "has key `k`". */
  function HasKey<T>(key: T -> int, k: int): T -> bool
  {
    y => key(y) == k
  }

  lemma {:induction false} InsertStable<T>(x: T, ys: seq<T>, key: T -> int, k: int)
    ensures Filter(Insert(x, ys, key), HasKey(key, k))
         == (if key(x) == k then [x] else []) + Filter(ys, HasKey(key, k))
  {
    var p := HasKey(key, k);
    if ys == [] || key(x) <= key(ys[0]) {
      assert Insert(x, ys, key) == [x] + ys;
      assert ([x] + ys)[1..] == ys;
      if p(x) {
        assert Filter([x] + ys, p) == [x] + Filter(ys, p);
      } else {
        assert Filter([x] + ys, p) == Filter(ys, p);
      }
    } else {
      var y, rest := ys[0], Insert(x, ys[1..], key);
      InsertStable(x, ys[1..], key, k);
      assert Insert(x, ys, key) == [y] + rest;
      assert ([y] + rest)[1..] == rest;
      if p(y) {
        assert Filter([y] + rest, p) == [y] + Filter(rest, p);
        assert Filter(ys, p) == [y] + Filter(ys[1..], p);
        assert !p(x);
      } else {
        assert Filter([y] + rest, p) == Filter(rest, p);
        assert Filter(ys, p) == Filter(ys[1..], p);
      }
    }
  }

  /** Stability: the elements of any one key appear in the sorted sequence in their original order. */
  lemma {:induction false} SortByStable<T>(xs: seq<T>, key: T -> int, k: int)
    ensures Filter(SortBy(xs, key), HasKey(key, k)) == Filter(xs, HasKey(key, k))
  {
    if xs != [] {
      SortByStable(xs[1..], key, k);
      InsertStable(xs[0], SortBy(xs[1..], key), key, k);
    }
  }

  /** The last element of the sorted sequence is also the last input element with its key. */
  lemma SortedLastIsLastOfKey<T>(xs: seq<T>, key: T -> int, last: T)
    requires xs != [] && last == SortBy(xs, key)[|xs| - 1]
    ensures var same := Filter(xs, HasKey(key, key(last)));
            same != [] && same[|same| - 1] == last
  {
    FilterKeepsLast(SortBy(xs, key), HasKey(key, key(last)));
    SortByStable(xs, key, key(last));
  }

  /** Stability for every key at once. */
  lemma SortByStableAll<T>(xs: seq<T>, key: T -> int)
    ensures forall k :: Filter(SortBy(xs, key), HasKey(key, k)) == Filter(xs, HasKey(key, k))
  {
    forall k ensures Filter(SortBy(xs, key), HasKey(key, k)) == Filter(xs, HasKey(key, k)) {
      SortByStable(xs, key, k);
    }
  }
}
