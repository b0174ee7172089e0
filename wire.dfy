/**
 * The values that cross the wire: the parameter arrays a request is built
 * from, and the structure `json_decode($json, true)` hands back.
 */
module Wire {

  /**
   * A value placed in a POST parameter array. Parameter arrays are compared
   * without regard to key order, so a string-keyed PHP array is a `map`.
   */
  datatype Value =
    | Null
    | Str(s: string)
    | Int(i: int)
    | List(items: seq<Value>)
    | Map(entries: map<string, Value>)

  /**
   * A decoded JSON document. `json_decode` with `$assoc = true` makes an
   * object into an ordered associative array, kept here as its ordered
   * (key, value) members.
   */
  datatype Json =
    | JNull
    | JBool(b: bool)
    | JInt(n: int)
    | JString(s: string)
    | JArray(items: seq<Json>)
    | JObject(members: seq<(string, Json)>)

  /**
   * The values a PHP `foreach` visits when it runs over a decoded response:
   * the items of a list, the member values of an object in their order, and
   * nothing for a scalar or `null` (PHP warns and skips the loop).
   */
  function Elements(response: Json): seq<Json> {
    match response
    case JArray(items) => items
    case JObject(members) => seq(|members|, i requires 0 <= i < |members| => members[i].1)
    case _ => []
  }
}
