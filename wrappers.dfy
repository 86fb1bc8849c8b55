/** Optional values and results with an error, shared by both pallets. */
module Wrappers {

  datatype Option<+T> = None | Some(value: T)

  /** A dispatch outcome: `Ok` carries the value, `Err` the error the call fails with.
      Usable with `:-`, which plays the part of Rust's `?`. */
  datatype Result<+T, +E> = Ok(value: T) | Err(error: E) {
    predicate IsFailure() {
      Err?
    }

    function PropagateFailure<U>(): Result<U, E>
      requires Err?
    {
      Err(error)
    }

    function Extract(): T
      requires Ok?
    {
      value
    }
  }
}
