/** The optional value that Python spells `X | None`. */
module Wrappers {
  datatype Option<+T> = None | Some(value: T)
}

/** Filters and sums over sequences: the list comprehensions and `sum(...)` calls of the engines. */
module Seqs {

  /** `[x for x in xs if p(x)]`: the elements satisfying `p`, in their original order. */
  function Filter<T>(xs: seq<T>, p: T -> bool): (r: seq<T>)
    ensures |r| <= |xs|
    ensures forall x :: x in r ==> x in xs && p(x)
    ensures forall x :: x in xs && p(x) ==> x in r
  {
    if xs == [] then []
    else if p(xs[0]) then [xs[0]] + Filter(xs[1..], p)
    else Filter(xs[1..], p)
  }

  /** Nothing passes the filter when no element satisfies `p`. */
  lemma FilterNone<T>(xs: seq<T>, p: T -> bool)
    ensures (forall x :: x in xs ==> !p(x)) ==> Filter(xs, p) == []
  {
    var r := Filter(xs, p);
    if r != [] {
      assert r[0] in r;
    }
  }

  /** `sum(f(x) for x in xs)`. */
  function Sum<T>(xs: seq<T>, f: T -> real): real
  {
    if xs == [] then 0.0 else f(xs[0]) + Sum(xs[1..], f)
  }

  lemma {:induction false} FilterAppend<T>(xs: seq<T>, ys: seq<T>, p: T -> bool)
    ensures Filter(xs + ys, p) == Filter(xs, p) + Filter(ys, p)
  {
    if xs == [] {
      assert xs + ys == ys;
    } else {
      var x, rest := xs[0], xs[1..];
      assert (xs + ys)[0] == x;
      assert (xs + ys)[1..] == rest + ys;
      FilterAppend(rest, ys, p);
      if p(x) {
        assert Filter(xs + ys, p) == [x] + Filter(rest + ys, p);
        assert Filter(xs, p) == [x] + Filter(rest, p);
      } else {
        assert Filter(xs + ys, p) == Filter(rest + ys, p);
        assert Filter(xs, p) == Filter(rest, p);
      }
    }
  }

  /** A last element that passes the filter is also the filter's last element. */
  lemma FilterKeepsLast<T>(xs: seq<T>, p: T -> bool)
    requires xs != [] && p(xs[|xs| - 1])
    ensures Filter(xs, p) != [] && Filter(xs, p)[|Filter(xs, p)| - 1] == xs[|xs| - 1]
  {
    var n := |xs|;
    var l := xs[n - 1];
    assert xs == xs[..n - 1] + [l];
    FilterAppend(xs[..n - 1], [l], p);
    assert Filter([l], p) == [l] by {
      assert [l][1..] == [];
    }
  }

  /** Filtering by `p` and by its negation `q` splits the sequence into two parts that together are all of it. */
  lemma {:induction false} FilterPartition<T>(xs: seq<T>, p: T -> bool, q: T -> bool)
    requires forall x :: q(x) == !p(x)
    ensures multiset(Filter(xs, p)) + multiset(Filter(xs, q)) == multiset(xs)
  {
    if xs != [] {
      var x, rest := xs[0], xs[1..];
      FilterPartition(rest, p, q);
      assert multiset(xs) == multiset{x} + multiset(rest) by {
        assert xs == [x] + rest;
      }
      if p(x) {
        assert !q(x);
        assert multiset(Filter(xs, p)) == multiset{x} + multiset(Filter(rest, p)) by {
          assert Filter(xs, p) == [x] + Filter(rest, p);
        }
        assert Filter(xs, q) == Filter(rest, q);
      } else {
        assert q(x);
        assert multiset(Filter(xs, q)) == multiset{x} + multiset(Filter(rest, q)) by {
          assert Filter(xs, q) == [x] + Filter(rest, q);
        }
        assert Filter(xs, p) == Filter(rest, p);
      }
    }
  }

  lemma {:induction false} SumAppend<T>(xs: seq<T>, ys: seq<T>, f: T -> real)
    ensures Sum(xs + ys, f) == Sum(xs, f) + Sum(ys, f)
  {
    if xs == [] {
      assert xs + ys == ys;
    } else {
      assert (xs + ys)[1..] == xs[1..] + ys;
      SumAppend(xs[1..], ys, f);
    }
  }

  /** One more element adds its term to a filtered sum exactly when it passes the filter. */
  lemma SumFilterAppendOne<T>(xs: seq<T>, x: T, p: T -> bool, f: T -> real)
    ensures Sum(Filter(xs + [x], p), f) == Sum(Filter(xs, p), f) + (if p(x) then f(x) else 0.0)
  {
    FilterAppend(xs, [x], p);
    assert [x][1..] == [];
    SumAppend(Filter(xs, p), Filter([x], p), f);
    if p(x) {
      assert Filter([x], p) == [x];
    } else {
      assert Filter([x], p) == [];
    }
  }

  /** Replacing one element changes the sum by the difference of the two terms. */
  lemma {:induction false} SumUpdate<T>(xs: seq<T>, i: nat, v: T, f: T -> real)
    requires i < |xs|
    ensures Sum(xs[i := v], f) == Sum(xs, f) - f(xs[i]) + f(v)
  {
    if i > 0 {
      SumUpdate(xs[1..], i - 1, v, f);
      assert xs[i := v][1..] == xs[1..][i - 1 := v];
    } else {
      assert xs[i := v][1..] == xs[1..];
    }
  }

  /** A sum of terms that all lie in [lo, hi] lies in [n * lo, n * hi]. */
  lemma {:induction false} SumBounds<T>(xs: seq<T>, f: T -> real, lo: real, hi: real)
    requires forall x :: x in xs ==> lo <= f(x) <= hi
    ensures (|xs| as real) * lo <= Sum(xs, f) <= (|xs| as real) * hi
  {
    if xs != [] {
      SumBounds(xs[1..], f, lo, hi);
      assert xs[0] in xs;
      var n := (|xs| - 1) as real;
      assert (|xs| as real) * lo == lo + n * lo;
      assert (|xs| as real) * hi == hi + n * hi;
    }
  }

  /** Summing non-negative terms over a narrower filter gives no more. */
  lemma {:induction false} SumFilterNarrower<T>(xs: seq<T>, p: T -> bool, q: T -> bool, f: T -> real)
    requires forall x :: q(x) ==> p(x)
    ensures (forall x :: x in xs ==> f(x) >= 0.0) ==> Sum(Filter(xs, q), f) <= Sum(Filter(xs, p), f)
  {
    if xs != [] && forall x :: x in xs ==> f(x) >= 0.0 {
      assert xs[0] in xs;
      SumFilterNarrower(xs[1..], p, q, f);
      var fq, fp := Filter(xs[1..], q), Filter(xs[1..], p);
      if q(xs[0]) {
        assert Filter(xs, q) == [xs[0]] + fq;
        assert ([xs[0]] + fq)[1..] == fq;
      } else {
        assert Filter(xs, q) == fq;
      }
      if p(xs[0]) {
        assert Filter(xs, p) == [xs[0]] + fp;
        assert ([xs[0]] + fp)[1..] == fp;
      } else {
        assert Filter(xs, p) == fp;
      }
    }
  }

  /** A sum of non-negative terms is non-negative. */
  lemma {:induction false} SumNonNegative<T>(xs: seq<T>, f: T -> real)
    ensures (forall x :: x in xs ==> f(x) >= 0.0) ==> Sum(xs, f) >= 0.0
  {
    if xs != [] && forall x :: x in xs ==> f(x) >= 0.0 {
      assert xs[0] in xs;
      SumNonNegative(xs[1..], f);
    }
  }
}
