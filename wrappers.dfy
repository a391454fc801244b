/** Wrappers used throughout the model: a Python value that may be `None`, a
    call that returns a value or raises, a call that returns nothing or raises. */
module Wrappers {

  /** `None` or a present value. */
  datatype Option<+T> = None | Some(value: T)

  /** A call that returned `value` or raised `error`. */
  datatype Result<+R, +E> = Success(value: R) | Failure(error: E)

  /** A call that returned nothing (`Pass`) or raised `error`. */
  datatype Outcome<+E> = Pass | Fail(error: E)

  /** Python truthiness of an optional string: present and not empty. */
  predicate Truthy(s: Option<string>) { s.Some? && s.value != "" }
}
