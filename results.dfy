/** Failure-carrying values shared by the models: an absent value, a value or
    an error, and a pass/fail outcome of an operation that returns nothing. */
module Results {

  datatype Option<+T> = None | Some(value: T)

  datatype Result<+R, +E> = Ok(value: R) | Err(error: E)

  datatype Outcome<+E> = Pass | Fail(error: E)
}
