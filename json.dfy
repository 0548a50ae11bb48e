/**
 * JSON documents as the handlers see them after `request.json()`: a record is a
 * JSON object, a map from field names to values.
 */
module Json {

  datatype Value =
    | Null
    | Bool(b: bool)
    | Num(x: real)
    | Str(s: string)
    | Arr(elems: seq<Value>)
    | Obj(fields: map<string, Value>)

  /** A JSON object: what `metricsStore` holds under each key. */
  type Record = map<string, Value>
}
