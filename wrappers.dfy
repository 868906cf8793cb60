/** Option and Result values used for the source's `None` and its raised exceptions. */
module Wrappers {

  datatype Option<+T> = None | Some(value: T) {
    predicate IsFailure() { None? }

    function PropagateFailure<U>(): Option<U>
      requires None?
    {
      None
    }

    function Extract(): T
      requires Some?
    {
      value
    }

    function GetOr(default: T): T {
      match this
      case Some(v) => v
      case None => default
    }
  }

  datatype Result<+T, +E> = Success(value: T) | Failure(error: E) {
    predicate IsFailure() { Failure? }

    function PropagateFailure<U>(): Result<U, E>
      requires Failure?
    {
      Failure(error)
    }

    function Extract(): T
      requires Success?
    {
      value
    }
  }

  /** The values of a sequence of results, in order, or the error of the first failure. */
  function AllSuccesses<T, E>(rs: seq<Result<T, E>>): Result<seq<T>, E>
    decreases |rs|
  {
    if rs == [] then Success([])
    else
      match rs[0]
      case Failure(e) => Failure(e)
      case Success(v) =>
        match AllSuccesses(rs[1..])
        case Failure(e) => Failure(e)
        case Success(vs) => Success([v] + vs)
  }

  /** When every result succeeds, the values are collected in order, one per result. */
  lemma {:induction false} AllSuccessesValues<T, E>(rs: seq<Result<T, E>>)
    requires AllSuccesses(rs).Success?
    ensures |AllSuccesses(rs).value| == |rs|
    ensures forall n :: 0 <= n < |rs| ==> rs[n].Success? && AllSuccesses(rs).value[n] == rs[n].value
    decreases |rs|
  {
    if rs != [] {
      AllSuccessesValues(rs[1..]);
      assert forall n :: 0 < n < |rs| ==> rs[n] == rs[1..][n - 1];
    }
  }

  /** The collection fails exactly when one of the results is a failure, and then with the first error. */
  lemma {:induction false} AllSuccessesFails<T, E>(rs: seq<Result<T, E>>)
    ensures AllSuccesses(rs).Failure? <==> exists n :: 0 <= n < |rs| && rs[n].Failure?
    ensures AllSuccesses(rs).Failure? ==>
      exists n :: (0 <= n < |rs| && rs[n].Failure? && AllSuccesses(rs).error == rs[n].error &&
        forall m :: 0 <= m < n ==> rs[m].Success?)
    decreases |rs|
  {
    if rs != [] {
      AllSuccessesFails(rs[1..]);
      assert forall n :: 0 < n < |rs| ==> rs[n] == rs[1..][n - 1];
      if rs[0].Success? && AllSuccesses(rs[1..]).Failure? {
        var n :| 0 <= n < |rs| - 1 && rs[1..][n].Failure? && AllSuccesses(rs[1..]).error == rs[1..][n].error &&
                 (forall m :: 0 <= m < n ==> rs[1..][m].Success?);
        assert rs[n + 1].Failure? && forall m :: 0 <= m < n + 1 ==> rs[m].Success?;
      }
    }
  }
}
