/** Optional values and the truthiness rule the application applies to them.

    The application tests optional strings with Python's `if x:`, which is
    false both for a missing value and for the empty string.
 */
module Values {

  datatype Option<+T> = None | Some(value: T)

  /** `if s:` on an `Optional[str]`: present and non-empty. */
  predicate Truthy(s: Option<string>) {
    s.Some? && s.value != ""
  }
}
