/** Values that the screens keep as `T | null`, and the truthiness test that the
    JavaScript conditions (`if (uri)`, `a && b && c`) apply to optional strings. */
module Nullable {

  /** `null` is `None`; any other value `v` is `Some(v)`. */
  datatype Option<+T> = None | Some(value: T)

  /** JavaScript truthiness of a `string | null`: both `null` and the empty
      string are falsy, every other string is truthy. */
  predicate Truthy(o: Option<string>)
  {
    o.Some? && o.value != ""
  }
}
