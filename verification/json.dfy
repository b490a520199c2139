// JSON values as the bridges receive them from Flask's request.get_json() and
// as the GUI sends them with requests.post(json=...).

module Json {
  import opened Wrappers

  /** A decoded JSON document; JInt and JNum keep Python's int/float distinction. */
  datatype Json =
    | JNull
    | JBool(b: bool)
    | JInt(i: int)
    | JNum(r: real)
    | JStr(s: string)
    | JArr(items: seq<Json>)
    | JObj(fields: map<string, Json>)

  /** Python truthiness of the decoded value (`if not cmd_data`). */
  predicate Truthy(j: Json) {
    match j
    case JNull => false
    case JBool(b) => b
    case JInt(i) => i != 0
    case JNum(r) => r != 0.0
    case JStr(s) => s != []
    case JArr(items) => items != []
    case JObj(fields) => fields != map[]
  }

  /** `d[key]` on a decoded object: None when the key is missing (KeyError). */
  function Lookup(j: Json, key: string): (r: Option<Json>)
    requires j.JObj?
    ensures r.Some? <==> key in j.fields
  {
    if key in j.fields then Some(j.fields[key]) else None
  }
}
