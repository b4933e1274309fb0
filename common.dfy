/** Small shared vocabulary: optional values, results and the JavaScript
    exceptions the pages can raise. */
module Common {

  /** `null`/`undefined` versus a present value. */
  datatype Option<+T> = None | Some(value: T)

  /** The two exception kinds the modelled code can raise. */
  datatype JsError =
    | TypeError       // property read on null/undefined, bad argument to a platform call
    | ReferenceError  // eval of an identifier that is not defined

  /** A value, or the exception thrown while computing it. */
  datatype Result<+T> = Ok(value: T) | Err(error: JsError)

  /** How a call of one of the page functions ends. */
  datatype Outcome =
    | Returned        // ran to the end (returns undefined)
    | ReturnedNull    // an explicit `return null` guard fired
    | Threw(error: JsError)

  function Min(a: int, b: int): int { if a <= b then a else b }
}
