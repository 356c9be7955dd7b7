/** Python's `None`-or-value outcomes. */
module Options {

  datatype Option<T> = None | Some(value: T)

  /** Python truthiness of an optional string: `None` and `""` are both falsy. */
  predicate Truthy(o: Option<string>)
  {
    o.Some? && o.value != ""
  }
}
