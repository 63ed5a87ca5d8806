/** Decoded JSON and YAML documents as Python holds them: `None`, booleans,
    numbers, strings, lists and dictionaries. */
module Values {
  import opened Dicts

  datatype Value =
    | Null
    | Bool(b: bool)
    | Int(i: int)
    | Float(r: real)
    | Str(s: string)
    | List(items: seq<Value>)
    | Object(fields: Dict<Value>)

  /** `type(v).__name__`, as error messages quote it. */
  function TypeName(v: Value): string {
    match v
    case Null => "NoneType"
    case Bool(_) => "bool"
    case Int(_) => "int"
    case Float(_) => "float"
    case Str(_) => "str"
    case List(_) => "list"
    case Object(_) => "dict"
  }

  /** What `json.loads` gave: a value, or a `JSONDecodeError`. */
  datatype Decoded = Decoded(data: Value) | DecodeError(message: string)
}
