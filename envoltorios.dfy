/** Optional values and the one failure the statistics engine can raise. */
module Envoltorios {

  /** A value that may be absent (Python's None). */
  datatype Option<T> = None | Some(valor: T)

  /** The result of an operation that builds a `datetime`: the value, or the
      ValueError that Python raises when a calendar field is out of range. */
  datatype Resultado<T> = Ok(valor: T) | ValueError
}
