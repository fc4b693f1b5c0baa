/** JavaScript notions the storefront relies on: optional values, what a
    `catch` clause receives, the settled result of an awaited call, and the
    number values `Number(...)` produces, with JS comparison semantics. */
module Js {

  /** An optional property (`x?: T`) or a nullable value (`T | null`). */
  datatype Option<T> = None | Some(value: T)

  /** What a `catch (err)` clause can receive: an `Error` instance (with its
      `message`), a thrown string, or any other thrown value. */
  datatype Thrown = ErrorObject(message: string) | ThrownString(text: string) | OtherValue

  /** The settled result of an awaited call: the resolved value, or the value
      it rejected with. Every network call of the client is one of these,
      supplied from outside the model. */
  datatype Outcome<T> = Ok(value: T) | Err(thrown: Thrown)

  /** A JavaScript number as `Number(...)` returns it. */
  datatype JsNumber = Finite(value: real) | NaN | PositiveInfinity | NegativeInfinity

  /** `n <= k` in JavaScript: false whenever `n` is NaN. */
  predicate AtMost(n: JsNumber, k: real)
  {
    match n
    case Finite(v) => v <= k
    case NaN => false
    case PositiveInfinity => false
    case NegativeInfinity => true
  }

  /** `n > k` in JavaScript: false whenever `n` is NaN. */
  predicate Above(n: JsNumber, k: real)
  {
    match n
    case Finite(v) => v > k
    case NaN => false
    case PositiveInfinity => true
    case NegativeInfinity => false
  }

  /** A string is truthy exactly when it is not empty. */
  predicate Truthy(s: string)
  {
    s != ""
  }

  /** An optional string is truthy exactly when present and not empty. */
  predicate TruthyOpt(o: Option<string>)
  {
    o.Some? && o.value != ""
  }

  /** `s || fallback` on strings. */
  function StringOr(s: string, fallback: string): string
  {
    if Truthy(s) then s else fallback
  }

  /** `o || fallback` on an optional string. */
  function OptionOr(o: Option<string>, fallback: string): string
  {
    if TruthyOpt(o) then o.value else fallback
  }

  /** `err instanceof Error ? err.message : fallback`, the error rule shared by
      the login and profile-edit pages. */
  function MessageOr(t: Thrown, fallback: string): (m: string)
    ensures t.ErrorObject? ==> m == t.message
    ensures !t.ErrorObject? ==> m == fallback
  {
    match t
    case ErrorObject(msg) => msg
    case _ => fallback
  }
}
