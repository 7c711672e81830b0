/** Optional values (Go's nil pointers) and value-or-error results (Go's `(T, error)` pairs). */
module Wrappers {

  /** `None` stands for a nil pointer or an absent value, `Some(v)` for a pointer to `v`. */
  datatype Option<+T> = None | Some(value: T)

  /** `Success(v)` is a `(v, nil)` return, `Failure(e)` a `(nil, e)` return. */
  datatype Result<+T, +E> = Success(value: T) | Failure(error: E)
}
