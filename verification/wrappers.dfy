/** Optional values, standing in for TypeScript's `T | null`, and the
    JavaScript truthiness test the application applies to optional strings. */
module Wrappers {

  datatype Option<+T> = None | Some(value: T)

  /** `!!x` for `x: string | null`: both `null` and the empty string are falsy. */
  predicate Truthy(x: Option<string>) {
    x.Some? && x.value != ""
  }
}
