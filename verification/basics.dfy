/** Small value types shared by the frontend and backend models. */
module Basics {

  /** A value that may be missing, as Python's `None` and JavaScript's `null`. */
  datatype Option<T> = None | Some(value: T)

  /** The outcome of an operation that can be rejected with an error value. */
  datatype Result<T, E> = Ok(value: T) | Err(error: E)

  /** One property of a JSON object as a lenient reader sees it: the key may be
      missing, may hold `null`, or may hold a value. */
  datatype Field<T> = Absent | Null | Present(value: T)
}
