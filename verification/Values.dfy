/**
 * JSON values, JavaScript call arguments and the small wrapper types shared by
 * the schema validator, the store model, the repository and the service facade.
 */
module Values {

  datatype Option<+T> = None | Some(value: T)

  datatype Result<+T, +E> = Ok(value: T) | Err(error: E)

  /** A JSON value, as handed to the validator or to the store. */
  datatype JValue =
    | JStr(s: string)
    | JNum(n: real)
    | JBool(b: bool)
    | JNull
    | JArr(items: seq<JValue>)
    | JObj(fields: map<string, JValue>)

  /**
   * The value of a JavaScript argument: either `undefined` (the caller passed
   * nothing) or a JSON value, `null` being `Json(JNull)`.
   */
  datatype JsValue = Undef | Json(v: JValue)

  /**
   * A scalar JavaScript argument of a known type: `undefined`, `null`, or a
   * value of that type.
   */
  datatype Arg<+T> = Absent | Null | Given(value: T)

  predicate IsNullish<T>(a: Arg<T>) {
    a.Absent? || a.Null?
  }

  /** JavaScript's `x == null`, which also holds for `undefined`. */
  predicate IsNullishValue(x: JsValue) {
    x.Undef? || x.v.JNull?
  }
}
