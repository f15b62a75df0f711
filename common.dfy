/** Small shared vocabulary: Python's optional values. */
module Common {

  /** `Optional[T]`: `None` is Python's None. */
  datatype Option<+T> = None | Some(value: T)

  /** Python truthiness of an `Optional[str]`: neither None nor the empty string. */
  predicate Truthy(s: Option<string>)
  {
    s.Some? && s.value != ""
  }
}
