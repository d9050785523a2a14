/** Optional values and Python-style raised exceptions, shared by every module. */
module Wrappers {

  /** Python's `None` or a present value. */
  datatype Option<+T> = None | Some(value: T) {
    function GetOr(default: T): T {
      match this
      case Some(v) => v
      case None => default
    }
  }

  /** The kinds of exception the modelled code can raise on malformed JSON. */
  datatype PyError = KeyError | IndexError | TypeError | AttributeError | ValueError

  /**
   * The outcome of evaluating a Python expression: a value, or an exception that
   * propagates until some `try` catches it.  Usable with `:-`.
   */
  datatype Result<+T> = Ok(value: T) | Raise(error: PyError) {
    predicate IsFailure() {
      Raise?
    }

    function PropagateFailure<U>(): Result<U>
      requires Raise?
    {
      Raise(error)
    }

    function Extract(): T
      requires Ok?
    {
      value
    }
  }

  /** The items gathered so far in front of the outcome for the rest of a loop. */
  function Prepend<T>(done: seq<T>, rest: Result<seq<T>>): Result<seq<T>> {
    match rest
    case Ok(xs) => Ok(done + xs)
    case Raise(e) => Raise(e)
  }

  lemma PrependNothing<T>(rest: Result<seq<T>>)
    ensures Prepend([], rest) == rest
  {
    if rest.Ok? {
      assert [] + rest.value == rest.value;
    }
  }

  lemma PrependAssoc<T>(done: seq<T>, first: seq<T>, rest: Result<seq<T>>)
    ensures Prepend(done, Prepend(first, rest)) == Prepend(done + first, rest)
  {
    if rest.Ok? {
      assert done + (first + rest.value) == (done + first) + rest.value;
    }
  }

  /**
   * The outcomes of `f` over `xs` up to the first exception: what a loop that
   * appends `f(x)` for each `x` returns when an exception is caught around it.
   */
  function OkPrefix<T, U>(xs: seq<T>, f: T -> Result<U>): (r: seq<U>)
    ensures |r| <= |xs|
    ensures forall i :: 0 <= i < |r| ==> f(xs[i]) == Ok(r[i])
    ensures |r| < |xs| ==> f(xs[|r|]).Raise?
  {
    if xs == [] then []
    else match f(xs[0])
      case Raise(_) => []
      case Ok(y) =>
        var rest := OkPrefix(xs[1..], f);
        assert forall i :: 1 <= i < |xs| ==> xs[1..][i - 1] == xs[i];
        [y] + rest
  }

  /** `OkPrefix` unrolled once behind what a loop has gathered so far. */
  lemma OkPrefixStep<T, U>(done: seq<U>, xs: seq<T>, f: T -> Result<U>)
    requires xs != []
    ensures f(xs[0]).Raise? ==> done + OkPrefix(xs, f) == done
    ensures f(xs[0]).Ok? ==> done + OkPrefix(xs, f) == (done + [f(xs[0]).value]) + OkPrefix(xs[1..], f)
  {
    var r := OkPrefix(xs, f);
    var rest := OkPrefix(xs[1..], f);
    if f(xs[0]).Raise? {
      assert r == [];
    } else {
      assert r == [f(xs[0]).value] + rest;
    }
  }
}
