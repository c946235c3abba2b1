/** Values that cross the boundary of the session runtime: the decoded form of a
    JSON frame (Go's `interface{}` after `json.Unmarshal`) and the messages that
    layouts broadcast to each other. */
module Values {

  datatype Option<+T> = None | Some(value: T)

  /** A decoded JSON value. Go decodes every JSON number as a float64; it is kept
      here as a `real` and never computed with. */
  datatype Value =
    | Null
    | Bool(b: bool)
    | Num(n: real)
    | Str(s: string)
    | Arr(items: seq<Value>)
    | Obj(fields: map<string, Value>)

  /** Go's `m[k]` on a `map[string]interface{}`: a missing key reads as nil. */
  function Lookup(m: map<string, Value>, k: string): (v: Value)
    ensures k !in m ==> v == Null
    ensures k in m ==> v == m[k]
  {
    if k in m then m[k] else Null
  }

  /** Go's checked type assertion `m[k].(string)`: `None` where Go panics, that is
      when the key is missing or holds anything but a string. */
  function StringField(m: map<string, Value>, k: string): (r: Option<string>)
    ensures r.Some? <==> k in m && m[k].Str?
    ensures r.Some? ==> m[k] == Str(r.value)
  {
    if k in m && m[k].Str? then Some(m[k].s) else None
  }
}
