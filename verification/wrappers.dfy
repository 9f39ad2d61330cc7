/** Absent-or-present values, shared by every module. */
module Wrappers {

  /** `undefined` / `null` (None) or a value (Some). */
  datatype Option<+T> = None | Some(value: T) {
    function GetOr(default: T): T {
      match this
      case Some(v) => v
      case None => default
    }
  }

  /**
   * A string field of a parsed JSON value or an API record, where `undefined`
   * (the key is absent) and `null` behave differently: `new Date(null)` is the
   * epoch while `new Date(undefined)` is Invalid Date, and a template literal
   * prints "null" or "undefined".
   */
  datatype JsString = Undefined | Null | Given(s: string)
}
