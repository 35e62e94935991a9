/** Option and Result, used wherever the source returns None or raises. */
module Results {

  datatype Option<+T> = None | Some(value: T)

  datatype Result<+T, +E> = Ok(value: T) | Err(error: E)

  /**
   * What a Python generator hands its consumer: the items it yielded, and
   * the exception it then raised, if any.
   */
  datatype Yielded<+T, +E> = Yielded(items: seq<T>, raised: Option<E>)
}
