/**
 * JSON values as `serde_json::Value` presents them to the engines, with the
 * accessors the engines use. Objects are maps: key order never matters to
 * the engines. Numbers are integers, the only kind the engines write.
 */
module Json {
  import opened Common

  datatype Json =
    | Null
    | Bool(b: bool)
    | Number(n: int)
    | Str(s: string)
    | Arr(items: seq<Json>)
    | Obj(fields: map<string, Json>)

  /** `value[key]`: the member, or `Null` when the value is not an object or
      has no such key (indexing never panics). */
  function Field(j: Json, key: string): Json
  {
    if j.Obj? && key in j.fields then j.fields[key] else Null
  }

  /** `value[i]`: the element, or `Null` when the value is not an array or
      is too short. */
  function Item(j: Json, i: nat): Json
  {
    if j.Arr? && i < |j.items| then j.items[i] else Null
  }

  /** `value.get(i)`: the element when there is one. */
  function Get(j: Json, i: nat): Option<Json>
  {
    if j.Arr? && i < |j.items| then Some(j.items[i]) else None
  }

  /** `value.as_str()`. */
  function AsStr(j: Json): Option<string>
  {
    if j.Str? then Some(j.s) else None
  }
}
