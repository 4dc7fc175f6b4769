/** The part of `serde_json::Value` the snapshot code touches: indexing an object by
    key, and the `as_array`, `as_str` and `as_f64` views. */
module Json {
  import opened Wrappers

  /** A decoded JSON value. A number carries the text that `f64::to_string` renders
      for it; that rendering is floating point and stays opaque here. */
  datatype Value =
    | Null
    | Bool(b: bool)
    | Number(rendered: string)
    | Str(s: string)
    | Array(items: seq<Value>)
    | Object(fields: map<string, Value>)

  /** `v[key]`: the field's value, or `Null` when `v` is not an object or lacks the key. */
  function Index(v: Value, key: string): Value
  {
    if v.Object? && key in v.fields then v.fields[key] else Null
  }

  /** `Value::as_array`. */
  function AsArray(v: Value): Option<seq<Value>>
  {
    if v.Array? then Some(v.items) else None
  }

  /** `Value::as_str`. */
  function AsStr(v: Value): Option<string>
  {
    if v.Str? then Some(v.s) else None
  }

  /** `Value::as_f64` followed by `to_string`: every JSON number has an `f64` view. */
  function AsF64(v: Value): Option<string>
  {
    if v.Number? then Some(v.rendered) else None
  }
}
