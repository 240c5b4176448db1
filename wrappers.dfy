/** Option and Result types shared by every module of the model.
    Python exceptions raised by the modelled code become `Err` values whose
    `Error` names the exception class. */
module Wrappers {

  datatype Option<+T> = None | Some(value: T) {
    predicate IsFailure() { None? }

    function PropagateFailure<U>(): Option<U>
      requires None?
    {
      None
    }

    function Extract(): T
      requires Some?
    {
      value
    }

    function GetOr(default: T): T {
      match this
      case Some(v) => v
      case None => default
    }
  }

  /** The exception classes the modelled code can raise. */
  datatype Error =
    | ValueError(msg: string)
    | KeyError(key: string)
    | TypeError(msg: string)
    | AttributeError(msg: string)
    | IndexError
    | RuntimeError(msg: string)
    | OSError(msg: string)
    | RagtagNotFound
    | RubyRubyNotFound
    | RubyRubyError(status: int)
    | DownloadError(msg: string)

  datatype Result<+T> = Ok(value: T) | Err(error: Error) {
    predicate IsFailure() { Err? }

    function PropagateFailure<U>(): Result<U>
      requires Err?
    {
      Err(error)
    }

    function Extract(): T
      requires Ok?
    {
      value
    }
  }

  /** Python's `max`/`min` on two numbers. */
  function Max(a: real, b: real): real { if a >= b then a else b }
  function Min(a: real, b: real): real { if a <= b then a else b }

  /** xs lists the set s, each member once. */
  ghost predicate IsListing<T(!new)>(xs: seq<T>, s: set<T>) {
    && (forall x :: x in s <==> x in xs)
    && (forall i, j :: 0 <= i < j < |xs| ==> xs[i] != xs[j])
  }

  /** xs lists members of s, each once, and all of them when `complete`:
      the entries a walk reached before it stopped. */
  ghost predicate Visited<T(!new)>(xs: seq<T>, s: set<T>, complete: bool) {
    && (forall x :: x in xs ==> x in s)
    && (complete ==> forall x :: x in s ==> x in xs)
    && (forall i, j :: 0 <= i < j < |xs| ==> xs[i] != xs[j])
  }

  /** The elements of a set in some order, as iterating a Python set or
      listing a directory gives them. */
  method Listing<T>(s: set<T>) returns (xs: seq<T>)
    ensures forall x :: x in s <==> x in xs
    ensures forall i, j :: 0 <= i < j < |xs| ==> xs[i] != xs[j]
  {
    xs := [];
    var rest := s;
    while rest != {}
      invariant forall x :: x in s <==> x in rest || x in xs
      invariant forall x :: x in xs ==> x !in rest
      invariant forall i, j :: 0 <= i < j < |xs| ==> xs[i] != xs[j]
      decreases |rest|
    {
      var x :| x in rest;
      xs := xs + [x];
      rest := rest - {x};
    }
  }
}
