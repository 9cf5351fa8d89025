/** Small value types shared by the modules of this model. */
module Util {

  /** A JavaScript value that may be missing (`undefined` or `null`). */
  datatype Option<+T> = None | Some(value: T)

  /** How a JavaScript promise settles: with a value, or by throwing an error
      whose `message` is `reason` (the empty string stands for a missing message). */
  datatype Settled<+T> = Resolved(value: T) | Rejected(reason: string)

  /** JavaScript truthiness of an optional string: missing and "" are falsy. */
  predicate Truthy(s: Option<string>) {
    s.Some? && s.value != ""
  }

  /** `s || fallback` on strings. */
  function OrElse(s: string, fallback: string): (r: string)
    ensures s != "" ==> r == s
    ensures s == "" ==> r == fallback
  {
    if s != "" then s else fallback
  }
}
