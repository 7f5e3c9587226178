/** Optional values and the one exception this core can raise. */
module Results {

  /** Python's `None` or a present value. */
  datatype Option<+T> = None | Some(value: T)

  /** An exception raised while defining or using a filter set. */
  datatype Error = AttributeError(attribute: string)

  /** A computation that either produces a value or raises. */
  datatype Result<+T> = Ok(value: T) | Err(error: Error)
}
