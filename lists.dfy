/** Order-preserving filtering of lists, the sub-list relation, and lists without repeats. */
module Lists {

  /** `xs.filter(keep)`. */
  function Filter<T>(xs: seq<T>, keep: T -> bool): (r: seq<T>)
    ensures |r| <= |xs|
    ensures forall i | 0 <= i < |r| :: keep(r[i])
  {
    if xs == [] then []
    else
      var n := |xs| - 1;
      Filter(xs[..n], keep) + (if keep(xs[n]) then [xs[n]] else [])
  }

  /** `a` is `b` with some elements left out, the rest in their order. */
  predicate IsSublist<T(==)>(a: seq<T>, b: seq<T>)
    decreases |b|
  {
    if a == [] then true
    else if b == [] then false
    else if a[|a| - 1] == b[|b| - 1] then IsSublist(a[..|a| - 1], b[..|b| - 1])
    else IsSublist(a, b[..|b| - 1])
  }

  /** No element occurs twice. */
  predicate NoDup<T(==)>(xs: seq<T>) {
    forall i, j | 0 <= i < j < |xs| :: xs[i] != xs[j]
  }

  /** An element is kept exactly when it occurs and passes the test. */
  lemma {:induction false} FilterMembers<T>(xs: seq<T>, keep: T -> bool)
    ensures forall x :: x in Filter(xs, keep) <==> x in xs && keep(x)
  {
    if xs != [] {
      var n := |xs| - 1;
      FilterMembers(xs[..n], keep);
      assert xs == xs[..n] + [xs[n]];
    }
  }

  /** Every passing element is kept as often as it occurs, and no other element is kept. */
  lemma {:induction false} FilterCount<T>(xs: seq<T>, keep: T -> bool)
    ensures forall x :: multiset(Filter(xs, keep))[x] == if keep(x) then multiset(xs)[x] else 0
  {
    if xs != [] {
      var n := |xs| - 1;
      FilterCount(xs[..n], keep);
      assert xs == xs[..n] + [xs[n]];
      assert multiset(xs) == multiset(xs[..n]) + multiset{xs[n]};
    }
  }

  /** Filtering keeps order: the result is a sub-list. */
  lemma {:induction false} FilterIsSublist<T>(xs: seq<T>, keep: T -> bool)
    ensures IsSublist(Filter(xs, keep), xs)
  {
    if xs != [] {
      var n := |xs| - 1;
      var r := Filter(xs[..n], keep);
      FilterIsSublist(xs[..n], keep);
      assert xs == xs[..n] + [xs[n]];
      if keep(xs[n]) {
        assert (r + [xs[n]])[..|r|] == r;
      } else {
        assert Filter(xs, keep) == r;
        SublistExtend(r, xs[..n], xs[n]);
      }
    }
  }

  /** A sub-list of `b` is a sub-list of `b` with one more element at the end. */
  lemma {:induction false} SublistExtend<T>(a: seq<T>, b: seq<T>, x: T)
    requires IsSublist(a, b)
    ensures IsSublist(a, b + [x])
    decreases |b|, 1
  {
    assert (b + [x])[..|b|] == b;
    if a != [] && a[|a| - 1] == x {
      SublistDropLast(a, b);
    }
  }

  /** A sub-list without its last element is still a sub-list. */
  lemma {:induction false} SublistDropLast<T>(a: seq<T>, b: seq<T>)
    requires a != [] && IsSublist(a, b)
    ensures IsSublist(a[..|a| - 1], b)
    decreases |b|, 0
  {
    var m := |b| - 1;
    assert b == b[..m] + [b[m]];
    if a[|a| - 1] == b[m] {
      SublistExtend(a[..|a| - 1], b[..m], b[m]);
    } else {
      SublistDropLast(a, b[..m]);
      SublistExtend(a[..|a| - 1], b[..m], b[m]);
    }
  }

  /** Filtering with a test every element passes changes nothing. */
  lemma {:induction false} FilterAll<T>(xs: seq<T>, keep: T -> bool)
    requires forall i | 0 <= i < |xs| :: keep(xs[i])
    ensures Filter(xs, keep) == xs
  {
    if xs != [] {
      var n := |xs| - 1;
      FilterAll(xs[..n], keep);
    }
  }

  /** The distinct elements of a list without repeats are as many as its length. */
  lemma {:induction false} NoDupCard<T>(xs: seq<T>)
    requires NoDup(xs)
    ensures |set x | x in xs| == |xs|
  {
    if xs != [] {
      var n := |xs| - 1;
      NoDupCard(xs[..n]);
      assert (set x | x in xs) == (set x | x in xs[..n]) + {xs[n]};
      assert xs[n] !in xs[..n];
    }
  }
}
