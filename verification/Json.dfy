/** JSON values and objects, as they appear in tool arguments, schemas and run state. */
module Json {
  import opened Prelude

  datatype Value =
    | Null
    | Bool(b: bool)
    | Int(n: int)
    | Float(r: real)
    | Str(s: string)
    | Arr(items: seq<Value>)
    | Obj(fields: map<string, Value>)

  type Object = map<string, Value>

  /** `object.get(name, default)` */
  function GetOr(o: Object, name: string, default: Value): Value {
    if name in o then o[name] else default
  }

  /** `object.get(name)` read as an object, if it is one. */
  function GetObject(o: Object, name: string): Option<Object> {
    if name in o && o[name].Obj? then Some(o[name].fields) else None
  }
}
