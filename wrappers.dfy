/** Option, Result and Outcome: the source's nullable values, thrown
    exceptions and "returns or throws" guards, written as values. */
module Wrappers {

  datatype Option<+T> = None | Some(value: T)

  datatype Result<+R, +E> = Success(value: R) | Failure(error: E) {
    predicate IsFailure() { Failure? }

    function PropagateFailure<U>(): Result<U, E>
      requires Failure?
    {
      Failure(error)
    }

    function Extract(): R
      requires Success?
    {
      value
    }
  }

  /** A guard that either returns normally (Pass) or throws (Fail). */
  datatype Outcome<+E> = Pass | Fail(error: E) {
    predicate IsFailure() { Fail? }

    function PropagateFailure(): Outcome<E>
      requires Fail?
    {
      this
    }
  }

  /** The position of the first element satisfying p, or -1 when none does
      (List<T>.FindIndex, and the position FirstOrDefault stops at). */
  function FirstIndex<T>(xs: seq<T>, p: T -> bool): (i: int)
    ensures -1 <= i < |xs|
    ensures i == -1 <==> forall j :: 0 <= j < |xs| ==> !p(xs[j])
    ensures i >= 0 ==> p(xs[i]) && forall j :: 0 <= j < i ==> !p(xs[j])
  {
    if xs == [] then -1
    else if p(xs[0]) then 0
    else
      var rest := FirstIndex(xs[1..], p);
      assert forall j :: 1 <= j < |xs| ==> xs[j] == xs[1..][j - 1];
      if rest == -1 then -1 else rest + 1
  }

  /** f applied to each element in order; the first failure is the result. */
  function MapAll<T, U, E>(f: T -> Result<U, E>, xs: seq<T>): Result<seq<U>, E>
  {
    if xs == [] then Success([])
    else
      match MapAll(f, xs[..|xs| - 1])
      case Failure(e) => Failure(e)
      case Success(us) =>
        match f(xs[|xs| - 1])
        case Failure(e) => Failure(e)
        case Success(u) => Success(us + [u])
  }

  /** MapAll succeeds exactly when f succeeds on every element, and then
      holds f's results in order. */
  lemma {:induction false} MapAllSpec<T, U, E>(f: T -> Result<U, E>, xs: seq<T>)
    ensures MapAll(f, xs).Success? <==> forall i :: 0 <= i < |xs| ==> f(xs[i]).Success?
    ensures MapAll(f, xs).Success? ==>
      |MapAll(f, xs).value| == |xs| && forall i :: 0 <= i < |xs| ==> MapAll(f, xs).value[i] == f(xs[i]).value
  {
    if xs != [] {
      var init := xs[..|xs| - 1];
      MapAllSpec(f, init);
      assert forall i :: 0 <= i < |init| ==> init[i] == xs[i];
    }
  }

  /** Once every earlier element succeeded, the first failing one is the
      error reported. */
  lemma {:induction false} MapAllStops<T, U, E>(f: T -> Result<U, E>, xs: seq<T>, i: nat)
    requires i < |xs|
    requires MapAll(f, xs[..i]).Success? && f(xs[i]).Failure?
    ensures MapAll(f, xs) == Failure(f(xs[i]).error)
  {
    if i == |xs| - 1 {
      assert xs[..|xs| - 1] == xs[..i];
    } else {
      var init := xs[..|xs| - 1];
      assert init[..i] == xs[..i];
      MapAllStops(f, init, i);
    }
  }

  /** A failure is the failure of some element. */
  lemma {:induction false} MapAllFailure<T, U, E>(f: T -> Result<U, E>, xs: seq<T>)
    requires MapAll(f, xs).Failure?
    ensures exists i :: 0 <= i < |xs| && f(xs[i]).Failure? && MapAll(f, xs).error == f(xs[i]).error
  {
    var init := xs[..|xs| - 1];
    if MapAll(f, init).Failure? {
      MapAllFailure(f, init);
      var i :| 0 <= i < |init| && f(init[i]).Failure? && MapAll(f, init).error == f(init[i]).error;
      assert init[i] == xs[i];
    } else {
      assert f(xs[|xs| - 1]).Failure?;
    }
  }

  /** One more successful element extends the mapped prefix. */
  lemma MapAllStep<T, U, E>(f: T -> Result<U, E>, xs: seq<T>, i: nat, us: seq<U>)
    requires i < |xs| && MapAll(f, xs[..i]) == Success(us) && f(xs[i]).Success?
    ensures MapAll(f, xs[..i + 1]) == Success(us + [f(xs[i]).value])
  {
    assert xs[..i + 1][..i] == xs[..i];
  }
}
