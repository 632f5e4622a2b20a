/**
 * Outcome of an operation that either produces a value or fails with an
 * error message: the model of a JavaScript value returned normally versus
 * an `Error` thrown (or a promise rejected) with a `message`.
 */
module Results {

  datatype Result<+T> = Ok(value: T) | Err(message: string)
}
