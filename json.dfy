/** Values as Python's json.load hands them to the sync tool: the project
    descriptors and the template set are plain JSON documents, and the code
    inspects them with isinstance, `in`, dict.get and truthiness tests. */
module Json {

  datatype Option<T> = None | Some(value: T)

  /** A decoded JSON value. JSON numbers with a fraction or an exponent
      decode to Python floats, the others to Python ints. */
  datatype Json =
    | JNull
    | JBool(b: bool)
    | JInt(i: int)
    | JFloat(r: real)
    | JString(s: string)
    | JArray(items: seq<Json>)
    | JObject(fields: map<string, Json>)

  /** Python's truth value of a decoded JSON value (`if not x`). */
  predicate Truthy(v: Json)
  {
    match v
    case JNull => false
    case JBool(b) => b
    case JInt(i) => i != 0
    case JFloat(r) => r != 0.0
    case JString(s) => s != ""
    case JArray(items) => items != []
    case JObject(fields) => fields != map[]
  }

  /** The value as a Python int, if it is one. In Python `bool` is a
      subclass of `int`, so `isinstance(True, int)` holds and True
      compares as 1. */
  function AsInt(v: Json): Option<int>
  {
    match v
    case JInt(i) => Some(i)
    case JBool(b) => Some(if b then 1 else 0)
    case _ => None
  }

  /** dict.get(key, default) */
  function Get(fields: map<string, Json>, key: string, default: Json): Json
  {
    if key in fields then fields[key] else default
  }
}
