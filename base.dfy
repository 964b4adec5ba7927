/** Option and Result wrappers, and the error kinds the preference store raises. */
module Base {

  datatype Option<+T> = None | Some(value: T)

  /** The exceptions the store throws (or passes to a callback). `TypeError` is
      what the JavaScript runtime raises when a library call receives `undefined`;
      `IoError` stands for every file-system error that is not swallowed. */
  datatype Error =
    | InitializationError
    | UnModifiableStateError
    | IllegalStateError
    | IllegalArgumentError
    | TypeError
    | IoError

  /** A value returned normally, or an exception thrown (for an async function:
      the rejection of its promise). */
  datatype Result<+T> = Ok(value: T) | Err(error: Error)

  /** What a Node-style callback receives: `callbackfn(err, value)`. A `None`
      error is `null`; a `None` value is an argument left out (`undefined`). */
  datatype Reply<+T> = Reply(error: Option<Error>, value: Option<T>)

  /** JavaScript truthiness of an optional string: `undefined` and `""` are falsy. */
  predicate Truthy(o: Option<string>)
  {
    o.Some? && o.value != ""
  }
}
