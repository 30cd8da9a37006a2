/** JSON values as the claims policy reads them. */
module Json {
  import opened Prelude

  /** A JSON number after parsing: an integer that fits 64 bits, or a finite binary float. */
  datatype Number = Int(i: int) | Float(f: real)

  datatype Value =
    | Null
    | Bool(b: bool)
    | Num(n: Number)
    | Str(s: string)
    | Arr(a: seq<Value>)
    | Obj(o: map<string, Value>)

  /** `Value::get`: the member of an object, nothing for any other value. */
  function Get(v: Value, key: string): Option<Value> {
    if v.Obj? && key in v.o then Some(v.o[key]) else None
  }

  function AsStr(v: Option<Value>): Option<string> {
    if v.Some? && v.value.Str? then Some(v.value.s) else None
  }
}
