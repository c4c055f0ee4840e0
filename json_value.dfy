/**
 * The value that Python's `json.loads` produces, as a datatype. The text
 * decoder itself is library behaviour and is not modelled: operations that
 * decode text receive `Option<Json>`, where `None` stands for a
 * `JSONDecodeError`.
 */
module JsonValue {

  /**
   * A JSON number after decoding: an integer literal gives an `int`, a
   * fraction or exponent gives a finite float, and the non-standard tokens
   * `NaN`, `Infinity` and `-Infinity` (which the decoder accepts) give a
   * non-finite float. Float rounding is not modelled.
   */
  datatype Num = Int(i: int) | Float(x: real) | NonFinite

  /** A decoded JSON document; objects keep the last value of a repeated key. */
  datatype Json =
    | JNull
    | JBool(b: bool)
    | JNum(n: Num)
    | JString(s: string)
    | JArray(items: seq<Json>)
    | JObject(fields: map<string, Json>)
}
