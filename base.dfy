/** Small failure-carrying datatypes shared by the other modules. */
module Base {

  /** A value that may be absent (Python's `None`). */
  datatype Option<+T> = None | Some(value: T)

  /** A value, or the message of the exception raised instead of it. */
  datatype Result<+T> = Success(value: T) | Failure(error: string)

  /** A step that either completes or raises an exception with a message. */
  datatype Outcome = Pass | Fail(message: string)

  /** True iff `p` is a prefix of `s` (Python's `s.startswith(p)`). */
  predicate StartsWith(s: string, p: string)
  {
    |p| <= |s| && s[..|p|] == p
  }
}
