/** Optional values: JavaScript's `undefined`/`null` beside a present value. */
module Wrappers {

  datatype Option<+T> = None | Some(value: T) {

    /** The value, or `default` when there is none (`x ?? default`). */
    function GetOr(default: T): T {
      match this
      case Some(v) => v
      case None => default
    }
  }

  /** The present values of a list, in order: what a loop pushing only non-null results collects. */
  function Present<T>(xs: seq<Option<T>>): seq<T> {
    if xs == [] then []
    else
      var n := |xs| - 1;
      Present(xs[..n]) + (if xs[n].Some? then [xs[n].value] else [])
  }

  /** How many entries of a list are present. */
  function PresentCount<T>(xs: seq<Option<T>>): nat {
    if xs == [] then 0
    else PresentCount(xs[..|xs| - 1]) + (if xs[|xs| - 1].Some? then 1 else 0)
  }

  /** One more entry adds its value, if it has one, at the end. */
  lemma PresentStep<T>(xs: seq<Option<T>>, i: nat)
    requires i < |xs|
    ensures Present(xs[..i + 1]) == Present(xs[..i]) + (if xs[i].Some? then [xs[i].value] else [])
  {
    assert xs[..i + 1][..i] == xs[..i];
  }

  /** Exactly the present entries are kept, each once. */
  lemma {:induction false} PresentLength<T>(xs: seq<Option<T>>)
    ensures |Present(xs)| == PresentCount(xs)
  {
    if xs != [] {
      PresentLength(xs[..|xs| - 1]);
    }
  }

  /** Every kept value comes from an entry of the list. */
  lemma {:induction false} PresentFrom<T>(xs: seq<Option<T>>)
    ensures forall v | v in Present(xs) :: Some(v) in xs
  {
    if xs != [] {
      var n := |xs| - 1;
      PresentFrom(xs[..n]);
      forall v | v in Present(xs) ensures Some(v) in xs {
        if v in Present(xs[..n]) {
          assert Some(v) in xs[..n];
        } else {
          assert xs[n] == Some(v);
        }
      }
    }
  }
}
