/** JSON-like JavaScript values, as the server reads and writes them. */
module Json {

  /**
   * A JavaScript value as it appears in a query row or a response body.
   * Numbers are integers here; an object is a finite map from its keys to
   * its values (key order is not modelled).
   */
  datatype JsValue =
    | JsNull
    | JsUndefined
    | JsBool(b: bool)
    | JsNumber(n: int)
    | JsString(s: string)
    | JsArray(items: seq<JsValue>)
    | JsObject(fields: map<string, JsValue>)
}
