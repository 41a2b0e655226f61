/** Outcomes of the report engine: a value, or the exception the JavaScript
    runtime would have thrown. */
module Results {

  /** The two ways the engine can fail. */
  datatype Error =
      /** `Array(n)` with a negative `n` throws a RangeError. */
    | InvalidArrayLength
      /** `list[0].createHeaders()` on an empty channel list throws a TypeError. */
    | FirstChannelUndefined

  datatype Result<T> = Ok(value: T) | Err(error: Error)
}
