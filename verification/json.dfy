/**
  An already-decoded JSON value, as `json.Unmarshal` produces it into Go's
  `interface{}`: strings, arrays (`[]interface{}`), objects
  (`map[string]interface{}`) and everything else (numbers, booleans, null),
  which the price scan never looks inside.
 */
module Json {

  datatype Json =
    | JString(str: string)
    | JArray(items: seq<Json>)
    | JObject(fields: map<string, Json>)
    | JOther
}
