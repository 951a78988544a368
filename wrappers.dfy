/** Option, Result and Outcome: the values that stand for JavaScript's
    `null`/`undefined`, a returned value or a thrown error, and a call that
    either completes or throws. */
module Wrappers {

  datatype Option<+T> = None | Some(value: T)

  datatype Result<+T, +E> = Ok(value: T) | Err(error: E)

  datatype Outcome<+E> = Pass | Fail(error: E)
}
