/** Failure-carrying datatypes: Python's `None`, and the exceptions the core raises,
    become values that callers match on. */
module Wrappers {

  datatype Option<+T> = None | Some(value: T)

  /** The outcome of a Python call that either returns a value or raises. */
  datatype Result<+R, +E> = Success(value: R) | Failure(error: E)

  /** The outcome of a Python call that returns nothing or raises. */
  datatype Outcome<+E> = Pass | Fail(error: E)

  /** A Python loop that appends `f(i, xs[i])` for each index in turn and lets
      the first exception out: all results in order, or the first failure. */
  function MapResults<A, B, E>(f: (nat, A) -> Result<B, E>, xs: seq<A>): (r: Result<seq<B>, E>)
    ensures r.Success? <==> forall k :: 0 <= k < |xs| ==> f(k, xs[k]).Success?
    ensures r.Success? ==> |r.value| == |xs| && forall k :: 0 <= k < |xs| ==> f(k, xs[k]) == Success(r.value[k])
    ensures r.Failure? ==> exists i :: 0 <= i < |xs| && f(i, xs[i]) == Failure(r.error)
                                     && forall j :: 0 <= j < i ==> f(j, xs[j]).Success?
    decreases |xs|
  {
    if xs == [] then Success([])
    else
      var n := |xs| - 1;
      assert forall k :: 0 <= k < n ==> xs[..n][k] == xs[k];
      match MapResults(f, xs[..n])
      case Failure(e) => Failure(e)
      case Success(ys) =>
        match f(n, xs[n])
        case Failure(e) => Failure(e)
        case Success(y) => Success(ys + [y])
  }

  /** One more step of the loop: the prefix up to `i + 1` extends the prefix up to `i`. */
  lemma MapResultsStep<A, B, E>(f: (nat, A) -> Result<B, E>, xs: seq<A>, i: nat, ys: seq<B>, y: B)
    requires i < |xs| && MapResults(f, xs[..i]) == Success(ys) && f(i, xs[i]) == Success(y)
    ensures MapResults(f, xs[..i + 1]) == Success(ys + [y])
  {
    assert xs[..i + 1][..i] == xs[..i];
  }

  /** The loop stops at the first failing element, and that failure is the result. */
  lemma MapResultsFailsAt<A, B, E>(f: (nat, A) -> Result<B, E>, xs: seq<A>, i: nat)
    requires i < |xs| && MapResults(f, xs[..i]).Success? && f(i, xs[i]).Failure?
    ensures MapResults(f, xs) == Failure(f(i, xs[i]).error)
  {
    forall j | 0 <= j < i ensures f(j, xs[j]).Success? {
      assert xs[..i][j] == xs[j];
    }
  }

  /** `[f(i, x) for i, x in enumerate(xs, start=1)]`. */
  function Enumerated<T, U>(f: (nat, T) -> U, xs: seq<T>): seq<U>
    decreases |xs|
  {
    if xs == [] then [] else Enumerated(f, xs[..|xs| - 1]) + [f(|xs|, xs[|xs| - 1])]
  }

  /** One result per element, in order, the `k`-th computed with number `k + 1`. */
  lemma {:induction false} EnumeratedSpec<T, U>(f: (nat, T) -> U, xs: seq<T>)
    ensures |Enumerated(f, xs)| == |xs|
    ensures forall k :: 0 <= k < |xs| ==> Enumerated(f, xs)[k] == f(k + 1, xs[k])
    decreases |xs|
  {
    if xs != [] {
      var n := |xs| - 1;
      EnumeratedSpec(f, xs[..n]);
      forall k | 0 <= k < n ensures Enumerated(f, xs)[k] == f(k + 1, xs[k]) {
        assert xs[..n][k] == xs[k];
      }
    }
  }

  /** One more element adds one more result, numbered after the others. */
  lemma EnumeratedSnoc<T, U>(f: (nat, T) -> U, xs: seq<T>, x: T)
    ensures Enumerated(f, xs + [x]) == Enumerated(f, xs) + [f(|xs| + 1, x)]
  {
    assert (xs + [x])[..|xs|] == xs;
  }
}
