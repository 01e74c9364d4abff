/** The parsed JSON document, as `json.loads` hands it to the validator. */
module JsonTree {

  /** A JSON value. Numbers are exact reals; booleans are not numbers.
      Objects are finite maps: key order carries no meaning for validation. */
  datatype Json =
    | JNull
    | JBool(b: bool)
    | JNumber(num: real)
    | JString(str: string)
    | JArray(items: seq<Json>)
    | JObject(obj: map<string, Json>)
}
