/** JSON values, as the wire carries them. */
module JsonValues {
  import opened Options

  datatype Json =
    | JNull
    | JBool(b: bool)
    | JNum(n: real)
    | JStr(s: string)
    | JArr(items: seq<Json>)
    | JObj(fields: map<string, Json>)

  type Fields = map<string, Json>

  /** `Value::get`: a field of an object, nothing for any other value. */
  function Get(v: Json, key: string): Option<Json> {
    if v.JObj? && key in v.fields then Some(v.fields[key]) else None
  }

  /** `as_str().unwrap_or("")` */
  function AsStr(v: Json): string {
    if v.JStr? then v.s else ""
  }

  /** The string under `key`, empty when it is missing or not a string. */
  function StrField(v: Json, key: string): string {
    if v.JObj? && key in v.fields then AsStr(v.fields[key]) else ""
  }

  /** The object under `key`, if there is one. */
  function ObjField(v: Json, key: string): (r: Option<Json>)
    ensures r.Some? ==> r.value.JObj? && r.value < v
  {
    if v.JObj? && key in v.fields && v.fields[key].JObj? then Some(v.fields[key]) else None
  }

  /** The first element of an array, when it is an object. */
  function FirstObject(v: Json): Option<Json> {
    if v.JArr? && |v.items| > 0 && v.items[0].JObj? then Some(v.items[0]) else None
  }
}
