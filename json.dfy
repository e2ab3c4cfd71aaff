/** The part of `serde_json::Value` the core inspects: arrays, strings and numbers. */
module Json {
  import opened Wrappers
  import opened Numbers

  /** serde_json keeps a number as an unsigned, a negative or a floating value. */
  datatype Number = PosInt(u: U64) | NegInt(i: int) | Float(f: real)

  datatype Value =
    | Null
    | Bool(b: bool)
    | Num(n: Number)
    | Str(s: string)
    | Array(items: seq<Value>)
    | Object(fields: seq<(string, Value)>)

  /** `Value::as_array` */
  function AsArray(v: Value): (r: Option<seq<Value>>)
    ensures r.Some? <==> v.Array?
  {
    if v.Array? then Some(v.items) else None
  }

  /** `Value::as_str` */
  function AsStr(v: Value): (r: Option<string>)
    ensures r.Some? <==> v.Str?
  {
    if v.Str? then Some(v.s) else None
  }

  /** `Value::as_u64`: only a non-negative integer number reads as `u64`. */
  function AsU64(v: Value): (r: Option<U64>)
    ensures r.Some? <==> v.Num? && v.n.PosInt?
  {
    if v.Num? && v.n.PosInt? then Some(v.n.u) else None
  }

  /** The value of the first field called `name` of an object. */
  function Field(fields: seq<(string, Value)>, name: string): (r: Option<Value>)
    ensures r.Some? ==> exists i :: 0 <= i < |fields| && fields[i] == (name, r.value)
    ensures r.None? ==> forall i :: 0 <= i < |fields| ==> fields[i].0 != name
  {
    if fields == [] then None
    else if fields[0].0 == name then Some(fields[0].1)
    else Field(fields[1..], name)
  }
}
