/** Decoded JSON values, as the transport's JSON decoder hands them to the SDK,
    and the Python truthiness the SDK applies to them. */
module Json {
  import opened Wrappers

  /** A decoded JSON value. `Null` is also Python's `None`. Numbers with a fraction
      or an exponent decode to floats, held here as exact reals. */
  datatype Value =
    | Null
    | Bool(b: bool)
    | Int(i: int)
    | Float(f: real)
    | Str(s: string)
    | Array(items: seq<Value>)
    | Object(fields: map<string, Value>)

  /** Python's `bool(v)`: None, False, zero and empty containers are falsy. */
  predicate Truthy(v: Value) {
    match v
    case Null => false
    case Bool(b) => b
    case Int(i) => i != 0
    case Float(f) => f != 0.0
    case Str(s) => s != ""
    case Array(items) => items != []
    case Object(fields) => fields != map[]
  }

  /** Python's `bool(o)` for an optional string: neither None nor "". */
  predicate TruthyText(o: Option<string>) {
    o.Some? && o.value != ""
  }
}
