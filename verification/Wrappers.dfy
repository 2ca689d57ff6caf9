/** Failure-compatible results shared by the components. */
module Wrappers {
  datatype Option<+T> = None | Some(value: T)

  datatype Result<+T, +E> = Ok(value: T) | Err(error: E) {
    predicate IsFailure() {
      Err?
    }

    function PropagateFailure<U>(): (r: Result<U, E>)
      requires Err?
    {
      Err(this.error)
    }

    function Extract(): T
      requires Ok?
    {
      value
    }
  }

  function Max(a: int, b: int): (m: int)
    ensures m >= a && m >= b && (m == a || m == b)
  {
    if a < b then b else a
  }
}
