/** JSON values as `serde_json::Value` holds them, and the field accessors that
    serde's derived decoders apply to an object. Numbers are integers here; the
    text form of a value (`to_string`, `from_str`) is not part of this model. */
module Json {
  import opened Common

  datatype Json =
    | Null
    | Bool(b: bool)
    | Num(n: int)
    | Str(s: string)
    | Arr(items: seq<Json>)
    | Obj(fields: map<string, Json>)

  /** The value of `key` in an object. */
  function Get(j: Json, key: string): (r: Option<Json>)
    ensures r.Some? <==> j.Obj? && key in j.fields
    ensures r.Some? ==> r.value == j.fields[key]
  {
    if j.Obj? && key in j.fields then Some(j.fields[key]) else None
  }

  /** A required `String` field. */
  function GetStr(j: Json, key: string): (r: Option<string>)
    ensures r.Some? <==> Get(j, key).Some? && Get(j, key).value.Str?
    ensures r.Some? ==> Get(j, key) == Some(Str(r.value))
  {
    match Get(j, key)
    case Some(Str(s)) => Some(s)
    case _ => None
  }

  /** A required `bool` field. */
  function GetBool(j: Json, key: string): (r: Option<bool>)
    ensures r.Some? <==> Get(j, key).Some? && Get(j, key).value.Bool?
    ensures r.Some? ==> Get(j, key) == Some(Bool(r.value))
  {
    match Get(j, key)
    case Some(Bool(b)) => Some(b)
    case _ => None
  }

  /** An `Option<Value>` field: absent and `null` both read as `None`. */
  function GetOptional(j: Json, key: string): (r: Option<Json>)
    ensures r.Some? <==> Get(j, key).Some? && Get(j, key).value != Null
    ensures r.Some? ==> Get(j, key) == Some(r.value)
  {
    match Get(j, key)
    case Some(Null) => None
    case Some(v) => Some(v)
    case None => None
  }

  /** An `Option<String>` field: `Some(None)` when it is absent or `null`,
      `Some(Some(s))` for a string, and `None` (a decoding error) otherwise. */
  function GetOptStr(j: Json, key: string): (r: Option<Option<string>>)
    ensures r == Some(None) <==> GetOptional(j, key).None?
    ensures forall s :: r == Some(Some(s)) <==> GetOptional(j, key) == Some(Str(s))
  {
    match GetOptional(j, key)
    case None => Some(None)
    case Some(Str(s)) => Some(Some(s))
    case Some(_) => None
  }

  /** How serde writes an `Option<String>`. */
  function OptStr(s: Option<string>): Json {
    match s
    case Some(v) => Str(v)
    case None => Null
  }

  /** How serde writes an `Option<Value>`. */
  function OptValue(v: Option<Json>): Json {
    match v
    case Some(x) => x
    case None => Null
  }

  lemma OptStrRoundTrip(fields: map<string, Json>, key: string, s: Option<string>)
    ensures GetOptStr(Obj(fields[key := OptStr(s)]), key) == Some(s)
  {
  }
}
