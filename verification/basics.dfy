/** Shared wrappers: an optional value, a contract response, and JavaScript truthiness of strings. */
module Basics {

  /** An optional value: `None` stands for JavaScript's `undefined` or Clarity's `none`. */
  datatype Option<+T> = None | Some(value: T) {

    /** The wrapped value, or `default` when absent. */
    function GetOr(default: T): T {
      match this
      case Some(v) => v
      case None => default
    }
  }

  /** A Clarity response: `(ok value)` or `(err code)` with an unsigned error code. */
  datatype Result<+T> = Ok(value: T) | Err(code: nat)

  /** True when a string is truthy in JavaScript, that is, non-empty. */
  predicate Truthy(s: string) {
    |s| > 0
  }

  /** True when an optional string field is truthy: present and non-empty. */
  predicate Present(o: Option<string>) {
    o.Some? && Truthy(o.value)
  }

  /** A partial update of one field: `Some(v)` replaces, `None` keeps the current value. */
  function Patch<T>(current: T, update: Option<T>): (r: T)
    ensures update.None? ==> r == current
    ensures update.Some? ==> r == update.value
  {
    update.GetOr(current)
  }
}
