/** An optional value: how the model writes a JSON field or environment
    variable that may be missing. */
module Optional {

  datatype Option<+T> = None | Some(value: T)

  /** JavaScript truthiness of a string that may be missing: `undefined`,
      `null` and the empty string are all falsy. */
  predicate Truthy(s: Option<string>) {
    s.Some? && s.value != ""
  }
}
