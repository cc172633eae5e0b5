/** Small failure-carrying datatypes shared by every module of the model. */
module Wrappers {

  /** An optional value: JavaScript's `undefined`/`null` against a present value. */
  datatype Option<+T> = None | Some(value: T) {
    function GetOr(default: T): T {
      match this
      case Some(v) => v
      case None => default
    }
  }

  /** A store call either returns or throws. */
  datatype Outcome<T> = Returned(value: T) | Threw

  /** JavaScript truthiness of an optional string: present and non-empty. */
  predicate Truthy(s: Option<string>) {
    s.Some? && s.value != ""
  }
}
