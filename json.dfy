/** Decoded JSON values, Python truthiness and `dict.get` on them. */
module Json {
  import opened Wrappers

  /** A decoded JSON value; JSON `null` is Python `None`. */
  datatype Value =
    | Null
    | Bool(b: bool)
    | Int(i: int)
    | Str(s: string)
    | List(items: seq<Value>)
    | Object(fields: map<string, Value>)

  /** A raw schedule record: a JSON object, as a Python dict. */
  type Record = map<string, Value>

  /** Python's `bool(v)`: `None`, `False`, `0`, `""`, `[]` and `{}` are falsy. */
  predicate Truthy(v: Value) {
    match v
    case Null => false
    case Bool(b) => b
    case Int(i) => i != 0
    case Str(s) => s != ""
    case List(items) => items != []
    case Object(fields) => fields != map[]
  }

  /** Python's `record.get(key)`: `None` when the key is absent or holds `null`. */
  function Get(record: Record, key: string): (r: Option<Value>)
    ensures r.None? <==> key !in record || record[key] == Null
    ensures r.Some? ==> key in record && r.value == record[key]
  {
    if key in record && record[key] != Null then Some(record[key]) else None
  }
}
