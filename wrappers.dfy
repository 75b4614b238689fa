/** Option and Result for Python's `None` and for operations that raise. */
module Wrappers {

  datatype Option<+T> = None | Some(value: T)
  {
    /** `value or default` for a value that is either present or `None`. */
    function GetOr(default: T): T
    {
      match this
      case Some(v) => v
      case None => default
    }
  }

  /** A call that returns `value` or raises an exception described by `error`. */
  datatype Result<+T, +E> = Ok(value: T) | Err(error: E)

  /** Puts `rows` in front of the rows of a successful result; an error passes through. */
  function Prepend<T, E>(rows: seq<T>, r: Result<seq<T>, E>): Result<seq<T>, E>
  {
    match r
    case Ok(rest) => Ok(rows + rest)
    case Err(e) => Err(e)
  }

  /** Prepending nothing changes nothing. */
  lemma PrependEmpty<T, E>(r: Result<seq<T>, E>)
    ensures Prepend([], r) == r
  {
    if r.Ok? {
      assert [] + r.value == r.value;
    }
  }

  /** Prepending twice is prepending the concatenation. */
  lemma PrependTwice<T, E>(a: seq<T>, b: seq<T>, r: Result<seq<T>, E>)
    ensures Prepend(a, Prepend(b, r)) == Prepend(a + b, r)
  {
    if r.Ok? {
      assert a + (b + r.value) == (a + b) + r.value;
    }
  }

  /** Runs `first`, then `rest`: the rows of both, or the first error met. */
  function Then<T, E>(first: Result<seq<T>, E>, rest: Result<seq<T>, E>): Result<seq<T>, E>
  {
    match first
    case Ok(rows) => Prepend(rows, rest)
    case Err(e) => Err(e)
  }
}
