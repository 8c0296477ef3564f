/** Failure-compatible wrappers and small sequence helpers shared by every module
    of the queueing-network model. */
module Common {

  /** A value that may be absent, the model of Python's `None`. */
  datatype Option<+T> = None | Some(value: T)

  /** The outcome of an operation that may raise: a value or the error raised. */
  datatype Result<+T, +E> = Success(value: T) | Failure(error: E)

  /** The last element of a non-empty sequence. */
  function Last<T>(s: seq<T>): T
    requires |s| > 0
  {
    s[|s| - 1]
  }

  /** Sum of a sequence of integers, folded from the left as Python's `sum` does. */
  function SumInts(s: seq<nat>): nat
  {
    if |s| == 0 then 0 else SumInts(s[..|s| - 1]) + s[|s| - 1]
  }

  /** Sum of a sequence of reals, folded from the left. */
  function SumReals(s: seq<real>): real
  {
    if |s| == 0 then 0.0 else SumReals(s[..|s| - 1]) + s[|s| - 1]
  }

  function MinReal(a: real, b: real): real
  {
    if a <= b then a else b
  }

  function MaxReal(a: real, b: real): real
  {
    if a >= b then a else b
  }
}
