/**
 * The Python values that response decoders put in their result dictionaries.
 * Byte strings (Python 2 `str` slices of the payload) and text (string literals,
 * canonical UUIDs) are kept apart.
 */
module Values {
  import opened Bytes

  datatype Value =
    | Int(i: int)
    | Str(bytes: seq<byte>)
    | Text(text: string)
    | Bool(b: bool)
    | List(items: seq<Value>)
    | Dict(entries: map<string, Value>)

  /** A Python dict from field name to value. */
  type Record = map<string, Value>
}
