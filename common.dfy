/** Small shared vocabulary: optional values, results, and the truthiness test
    that the TypeScript code applies to optional strings. */
module Common {

  datatype Option<+T> = None | Some(value: T)

  datatype Result<+R, +E> = Success(value: R) | Failure(error: E)

  /** `if (s)` on a `string | undefined`: false for undefined and for the empty string. */
  predicate Truthy(s: Option<string>)
  {
    s.Some? && s.value != ""
  }
}
