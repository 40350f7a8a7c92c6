/** Values shared by the supervisor and the observability store: Python's
    `Optional`, a raised-or-returned outcome, and the JSON-like values held in
    the `Dict[str, Any]` metadata, event data and `to_dict` results. */
module Values {

  datatype Option<T> = None | Some(value: T)

  /** A Python call either returns a value or raises; `message` is `str(e)`. */
  datatype Outcome<T> = Done(value: T) | Raised(message: string)

  /** The values the core stores in its dictionaries. */
  datatype Value =
    | Null
    | Flag(b: bool)
    | Number(x: real)
    | Text(s: string)
    | Items(elems: seq<Value>)
    | Dict(fields: map<string, Value>)

  type Metadata = map<string, Value>

  /** Python truthiness of an optional string argument: `None` and `""` are falsy. */
  predicate Truthy(s: Option<string>)
  {
    s.Some? && s.value != ""
  }
}
