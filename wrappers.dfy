/** The optional value used wherever the source has a field or map entry that may be absent. */
module Wrappers {
  datatype Option<+T> = None | Some(value: T)

  /** A JavaScript string that may be missing (undefined or null) is truthy iff present and non-empty. */
  predicate Truthy(v: Option<string>) {
    v.Some? && v.value != ""
  }
}
