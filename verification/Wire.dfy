/**
 Dynamically typed values as json.loads and proxmoxer return them. The strict parsers of the integration test
 the type of every value they take out of such a tree before they trust it.
 */
module Wire {
  import opened Models

  datatype Json =
    | Null
    | Bool(b: bool)
    | Int(n: int)
    | Str(s: string)
    | List(items: seq<Json>)
    | Object(fields: map<string, Json>)

  /** dict.get with its None default; anything but an object has no fields. */
  function Get(value: Json, field: string): Json {
    if value.Object? && field in value.fields then value.fields[field] else Null
  }

  /** The value is an object that has this field with this very value. */
  predicate Says(payload: Json, field: string, value: Json) {
    payload.Object? && field in payload.fields && payload.fields[field] == value
  }

  /** Python truth of a decoded value. */
  predicate Truthy(value: Json) {
    match value
    case Null => false
    case Bool(b) => b
    case Int(n) => n != 0
    case Str(s) => s != ""
    case List(items) => items != []
    case Object(fields) => fields != map[]
  }
}
