/** Option and Result, and the whole-sequence traversal that stops at the
    first failure (how a Python loop behaves when one iteration raises). */
module Wrappers {

  /** A key of a record: `None` when the key is absent from the record. */
  datatype Option<+T> = None | Some(value: T) {
    function GetOr(default: T): T
    {
      match this
      case Some(v) => v
      case None => default
    }
  }

  /** The outcome of an operation that may raise. */
  datatype Result<+T, +E> = Success(value: T) | Failure(error: E)

  /** The elements of an optional list: an absent list has none. */
  function Elements<T>(xs: Option<seq<T>>): seq<T>
  {
    if xs.Some? then xs.value else []
  }

  /** Applies `f` to every element in order, stopping at the first failure.
      Defined from the back so that a left-to-right loop can follow it;
      TraverseAllSuccess and TraverseFirstFailure say what it computes. */
  function Traverse<S, T, E>(s: seq<S>, f: S -> Result<T, E>): Result<seq<T>, E>
  {
    if s == [] then Success([])
    else
      match Traverse(s[..|s| - 1], f)
      case Failure(e) => Failure(e)
      case Success(prefix) =>
        match f(s[|s| - 1])
        case Failure(e) => Failure(e)
        case Success(x) => Success(prefix + [x])
  }

  /** When every element succeeds, `Traverse` succeeds with their results. */
  lemma {:induction false} TraverseAllSuccess<S, T, E>(s: seq<S>, f: S -> Result<T, E>, values: seq<T>)
    requires |values| == |s|
    requires forall i :: 0 <= i < |s| ==> f(s[i]) == Success(values[i])
    ensures Traverse(s, f) == Success(values)
  {
    if s != [] {
      TraverseAllSuccess(s[..|s| - 1], f, values[..|s| - 1]);
      assert values == values[..|s| - 1] + [values[|s| - 1]];
    }
  }

  /** The failure `Traverse` reports is the one of the first element that fails. */
  lemma {:induction false} TraverseFirstFailure<S, T, E>(s: seq<S>, f: S -> Result<T, E>, k: nat)
    requires k < |s| && f(s[k]).Failure?
    requires forall i :: 0 <= i < k ==> f(s[i]).Success?
    ensures Traverse(s, f) == Failure(f(s[k]).error)
  {
    if k < |s| - 1 {
      TraverseFirstFailure(s[..|s| - 1], f, k);
    } else {
      var before := seq(k, i requires 0 <= i < k => f(s[i]).value);
      TraverseAllSuccess(s[..k], f, before);
    }
  }
}
