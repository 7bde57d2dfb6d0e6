/** Failure-carrying datatypes shared by the whole model. */
module Wrappers {

  /** A value that may be absent. For instrument fields, `None` is the
      logger's `NAN` token. */
  datatype Option<+T> = None | Some(value: T)

  /** The outcome of an operation that can raise. */
  datatype Result<+R, +E> = Success(value: R) | Failure(error: E) {

    predicate IsFailure() {
      Failure?
    }

    /** Re-types a failure so that `:-` can pass it on. */
    function PropagateFailure<U>(): (r: Result<U, E>)
      requires Failure?
    {
      Failure(error)
    }

    function Extract(): R
      requires Success?
    {
      value
    }
  }

  /** The exceptions the pipeline can raise that the model keeps. */
  datatype Error =
    | FileNotFound(path: string)   // `open(data_file, "r")` on a missing dump
    | NoLastRow                    // `df.iloc[-1]` on a table without rows
    | TextInArithmetic(column: string)  // `TypeError` from `x / 25` on a text cell
}
