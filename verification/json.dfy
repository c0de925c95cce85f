/** Optional values and the JSON values exchanged with agents, relays and operators. */
module Options {
  datatype Option<+T> = None | Some(value: T)

  datatype Result<+T, +E> = Ok(value: T) | Err(error: E)

  /** An identifier as its parser gives it. */
  type Uuid = nat
}

module JsonValue {
  import opened Options

  /** A parsed JSON value. Integers and other numbers never compare equal. */
  datatype Json =
    | Null
    | Bool(b: bool)
    | Num(n: int)
    | Frac(r: real)
    | Str(s: string)
    | Arr(items: seq<Json>)
    | Obj(fields: map<string, Json>)

  /** A member of an object; absent for a missing key and for a value that is not an object. */
  function Get(j: Json, key: string): Option<Json> {
    if j.Obj? && key in j.fields then Some(j.fields[key]) else None
  }

  /** A member of an object, with null standing for an absent one. */
  function At(j: Json, key: string): Json {
    match Get(j, key)
    case Some(v) => v
    case None => Null
  }

  function AsStr(j: Json): Option<string> {
    if j.Str? then Some(j.s) else None
  }

  /** The string member of an object, if there is one. */
  function GetStr(j: Json, key: string): Option<string> {
    AsStr(At(j, key))
  }

  /** White space as Unicode defines it: what trimming removes. */
  predicate IsSpace(c: char) {
    var n := c as int;
    || 0x09 <= n <= 0x0D || n == 0x20 || n == 0x85 || n == 0xA0 || n == 0x1680
    || 0x2000 <= n <= 0x200A || n == 0x2028 || n == 0x2029 || n == 0x202F || n == 0x205F || n == 0x3000
  }

  /** Nothing is left after trimming. */
  predicate IsBlank(s: string) {
    forall i :: 0 <= i < |s| ==> IsSpace(s[i])
  }
}
