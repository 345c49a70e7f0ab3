/** JavaScript values as the client code sees them: nullable fields, loosely typed
    array entries, string truthiness, and the errors the backend SDK hands back. */
module Js {

  /** A nullable or optional value (`null` / `undefined` are both `None`). */
  datatype Option<+T> = None | Some(value: T)

  /** The `{ data, error }` answer of one backend query: either the data or the
      message of the error the query reported. */
  datatype Fetched<+T> = Ok(data: T) | Failed(message: string)

  /** Identifier of a signed-in user (the auth user's id). */
  type UserId = string

  /** One entry of a loosely typed JSON array: a string or anything else
      (`null`, a number, an object). */
  datatype JsValue = JsString(s: string) | JsOther

  /** A JSON column that should hold an array but may hold anything. */
  datatype RawArray = ArrayOf(items: seq<JsValue>) | NotAnArray

  /** A string is truthy in JavaScript exactly when it is non-empty. */
  predicate Truthy(s: string) {
    s != ""
  }

  /** `a || fallback` for a nullable string `a`. */
  function OrElse(a: Option<string>, fallback: string): (r: string)
    ensures a.Some? && Truthy(a.value) ==> r == a.value
    ensures !(a.Some? && Truthy(a.value)) ==> r == fallback
  {
    if a.Some? && Truthy(a.value) then a.value else fallback
  }

  /** An error object returned by the SDK; `isErrorInstance` says whether it is
      an instance of the JavaScript `Error` class (which decides what a
      `catch` block reports). */
  datatype SdkError = SdkError(code: string, message: string, isErrorInstance: bool)

  /** What `err instanceof Error ? err.message : fallback` shows for a thrown SDK error. */
  function CaughtMessage(e: SdkError, fallback: string): (r: string)
    ensures e.isErrorInstance ==> r == e.message
    ensures !e.isErrorInstance ==> r == fallback
  {
    if e.isErrorInstance then e.message else fallback
  }

  /** `Math.min` on whole numbers. */
  function Min(a: int, b: int): int {
    if a <= b then a else b
  }

  /** `Math.max` on whole numbers. */
  function Max(a: int, b: int): int {
    if a >= b then a else b
  }
}
