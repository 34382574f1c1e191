/** Option and Result, used for Rust's `Option` and for operations that can panic. */
module Wrappers {

  datatype Option<+T> = None | Some(value: T)

  datatype Result<+T, +E> = Ok(value: T) | Err(error: E) {
    predicate IsFailure() {
      Err?
    }

    function PropagateFailure<U>(): Result<U, E>
      requires Err?
    {
      Err(error)
    }

    function Extract(): T
      requires Ok?
    {
      value
    }
  }

  /** A Rust panic; the message says which `panic!`, `assert!`, `expect` or `unwrap` fired. */
  datatype Panic = Panic(message: string)

  /** The outcome of an operation that returns nothing but may panic. */
  datatype Outcome = Done | Panicked(reason: Panic)
}
