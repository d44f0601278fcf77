/** JavaScript-level values shared by the dashboard's modules. */
module Js {

  /** A value that may be absent (`null`, `undefined`, or a key left out of a JSON object). */
  datatype Option<+T> = None | Some(value: T) {
    /** The value, or `default` when absent. */
    function GetOr(default: T): T {
      match this
      case Some(v) => v
      case None => default
    }
  }

  /** A settled promise: fulfilled with a value, or rejected with an error. */
  datatype Result<+T, +E> = Success(value: T) | Failure(error: E)

  /** An Error object as a catch block sees it: its `name` and its `message`. */
  datatype JsError = JsError(name: string, message: string)

  const AbortErrorName := "AbortError"
  const TypeErrorName := "TypeError"

  /** `s || fallback` for a string `s`: the empty string is falsy, every other string truthy. */
  function Or(s: string, fallback: string): (r: string)
    ensures s != "" ==> r == s
    ensures s == "" ==> r == fallback
    ensures r == s || r == fallback
  {
    if s != "" then s else fallback
  }

  /** The TypeError an engine raises when a property `prop` is read on `null` (V8's wording). */
  function NullPropertyError(prop: string): (e: JsError)
    ensures e.name == TypeErrorName && e.name != AbortErrorName
    ensures |e.message| > |prop|
  {
    JsError(TypeErrorName, "Cannot read properties of null (reading '" + prop + "')")
  }
}
