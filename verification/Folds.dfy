/** Folds, filters and sums whose order does not matter. */
module Folds {

  function Fold<S, E>(f: (S, E) -> S, s: S, xs: seq<E>): S
    decreases |xs|
  {
    if xs == [] then s else f(Fold(f, s, xs[..|xs| - 1]), xs[|xs| - 1])
  }

  function Filter<E>(p: E -> bool, xs: seq<E>): seq<E>
    decreases |xs|
  {
    if xs == [] then []
    else Filter(p, xs[..|xs| - 1]) + (if p(xs[|xs| - 1]) then [xs[|xs| - 1]] else [])
  }

  /** Iteration over a map's keys comes in no particular order. */
  method AnyOf<T>(keys: set<T>) returns (k: T)
    requires keys != {}
    ensures k in keys
  {
    k :| k in keys;
  }

  /** Two elements may be taken in either order. */
  ghost predicate Commutes<S(!new), E(!new)>(f: (S, E) -> S) {
    forall s, x, y :: f(f(s, x), y) == f(f(s, y), x)
  }

  lemma {:induction false} FoldConcat<S, E>(f: (S, E) -> S, s: S, xs: seq<E>, ys: seq<E>)
    ensures Fold(f, s, xs + ys) == Fold(f, Fold(f, s, xs), ys)
    decreases |ys|
  {
    if ys == [] {
      assert xs + ys == xs;
    } else {
      var n := |ys| - 1;
      assert (xs + ys)[..|xs| + n] == xs + ys[..n];
      FoldConcat(f, s, xs, ys[..n]);
    }
  }

  lemma FoldSnoc<S, E>(f: (S, E) -> S, s: S, xs: seq<E>, x: E)
    ensures Fold(f, s, xs + [x]) == f(Fold(f, s, xs), x)
  {
    assert (xs + [x])[..|xs|] == xs;
  }

  /** Any element may be taken last. */
  lemma {:induction false} TakeLast<S(!new), E(!new)>(f: (S, E) -> S, s: S, xs: seq<E>, i: nat)
    requires Commutes(f) && i < |xs|
    ensures Fold(f, s, xs) == f(Fold(f, s, xs[..i] + xs[i + 1..]), xs[i])
    decreases |xs|
  {
    var n := |xs| - 1;
    if i == n {
      assert xs[..i] + xs[i + 1..] == xs[..n];
    } else {
      var front := xs[..n];
      TakeLast(f, s, front, i);
      var rest := xs[..i] + xs[i + 1..];
      assert rest[..|rest| - 1] == front[..i] + front[i + 1..];
      assert rest[|rest| - 1] == xs[n];
    }
  }

  lemma Without<E>(xs: seq<E>, i: nat)
    requires i < |xs|
    ensures multiset(xs[..i] + xs[i + 1..]) == multiset(xs) - multiset{xs[i]}
  {
    assert xs == xs[..i] + [xs[i]] + xs[i + 1..];
  }

  lemma {:induction false} OrderIsIrrelevant<S(!new), E(!new)>(f: (S, E) -> S, s: S, xs: seq<E>, ys: seq<E>)
    requires Commutes(f) && multiset(xs) == multiset(ys)
    ensures Fold(f, s, xs) == Fold(f, s, ys)
    decreases |xs|
  {
    assert |xs| == |multiset(xs)| == |ys|;
    if xs != [] {
      var n := |xs| - 1;
      assert xs[n] in multiset(ys);
      var i :| 0 <= i < |ys| && ys[i] == xs[n];
      TakeLast(f, s, ys, i);
      Without(ys, i);
      Without(xs, n);
      assert xs[..n] + xs[n + 1..] == xs[..n];
      OrderIsIrrelevant(f, s, xs[..n], ys[..i] + ys[i + 1..]);
    }
  }

  lemma {:induction false} FilterCount<E>(p: E -> bool, xs: seq<E>, e: E)
    ensures multiset(Filter(p, xs))[e] == if p(e) then multiset(xs)[e] else 0
    decreases |xs|
  {
    if xs != [] {
      FilterCount(p, xs[..|xs| - 1], e);
      assert xs == xs[..|xs| - 1] + [xs[|xs| - 1]];
    }
  }

  lemma {:induction false} FilterConcat<E>(p: E -> bool, xs: seq<E>, ys: seq<E>)
    ensures Filter(p, xs + ys) == Filter(p, xs) + Filter(p, ys)
    decreases |ys|
  {
    if ys == [] {
      assert xs + ys == xs;
    } else {
      var n := |ys| - 1;
      assert (xs + ys)[..|xs| + n] == xs + ys[..n];
      FilterConcat(p, xs, ys[..n]);
    }
  }

  /** A filter that lets nothing through. */
  lemma {:induction false} FilterNone<E>(p: E -> bool, xs: seq<E>)
    requires forall i :: 0 <= i < |xs| ==> !p(xs[i])
    ensures Filter(p, xs) == []
    decreases |xs|
  {
    if xs != [] {
      FilterNone(p, xs[..|xs| - 1]);
    }
  }

  /** Filtering twice is filtering by both. */
  lemma {:induction false} FilterTwice<E>(p: E -> bool, q: E -> bool, r: E -> bool, xs: seq<E>)
    requires forall e: E :: e in xs ==> (r(e) <==> p(e) && q(e))
    ensures Filter(q, Filter(p, xs)) == Filter(r, xs)
    decreases |xs|
  {
    if xs != [] {
      var n := |xs| - 1;
      FilterTwice(p, q, r, xs[..n]);
      FilterConcat(q, Filter(p, xs[..n]), if p(xs[n]) then [xs[n]] else []);
      assert [xs[n]][..0] == [];
    }
  }
}
