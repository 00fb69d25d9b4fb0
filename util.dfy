/** Small shared vocabulary: an optional value (JavaScript's `null` / `undefined`). */
module Util {

  datatype Option<+T> = None | Some(value: T)

  /** JavaScript truthiness of an optional string: present and not empty. */
  predicate Truthy(s: Option<string>) {
    s.Some? && s.value != ""
  }
}
