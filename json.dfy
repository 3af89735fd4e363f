/** The already-decoded JSON value the normaliser works on (a model of
    `serde_json::Value`) and the two accessors the parsers use on it:
    `Value::get(&str)` and `Value::as_str`. */
module Json {
  import opened Common

  /** Numbers are kept as their literal text: nothing in the proxy reads them. */
  datatype Json =
    | Null
    | Bool(b: bool)
    | Number(literal: string)
    | Str(s: string)
    | Array(items: seq<Json>)
    | Object(fields: seq<Field>)

  /** One member of an object, in the object's enumeration order. */
  datatype Field = Field(key: string, value: Json)

  /** Position of the member named `key`, if any. */
  function FindKey(fields: seq<Field>, key: string): (r: Option<nat>)
    ensures r.Some? ==> r.value < |fields| && fields[r.value].key == key
    ensures r.None? <==> forall i :: 0 <= i < |fields| ==> fields[i].key != key
  {
    if fields == [] then None
    else if fields[0].key == key then Some(0)
    else match FindKey(fields[1..], key)
      case None => None
      case Some(i) => Some(i + 1)
  }

  /** `value.get(key)`: the member of an object; `None` for every other kind of value. */
  function Get(v: Json, key: string): (r: Option<Json>)
    ensures r.Some? <==> v.Object? && exists i :: 0 <= i < |v.fields| && v.fields[i].key == key
    ensures v.Object? && FindKey(v.fields, key).Some? ==> r == Some(v.fields[FindKey(v.fields, key).value].value)
  {
    match v
    case Object(fields) =>
      (match FindKey(fields, key)
       case None => None
       case Some(i) => Some(fields[i].value))
    case _ => None
  }

  /** `opt.and_then(|v| v.as_str())`. */
  function AsStr(v: Option<Json>): (r: Option<string>)
    ensures r.Some? <==> v.Some? && v.value.Str?
    ensures r.Some? ==> r.value == v.value.s
  {
    if v.Some? && v.value.Str? then Some(v.value.s) else None
  }

  /** `value.get(key).and_then(|v| v.as_str()).unwrap_or(default)`. */
  function StrOr(v: Json, key: string, default: string): (r: string)
    ensures !v.Object? || (forall i :: 0 <= i < |v.fields| ==> v.fields[i].key != key) ==> r == default
    ensures v.Object? && FindKey(v.fields, key).Some? ==>
              var member := v.fields[FindKey(v.fields, key).value].value;
              r == (if member.Str? then member.s else default)
  {
    match AsStr(Get(v, key))
    case Some(s) => s
    case None => default
  }

  /** `if let Some(Value::Array(items)) = value.get(key)`: the items, or nothing. */
  function ArrayAt(v: Json, key: string): Option<seq<Json>>
  {
    match Get(v, key)
    case Some(Array(items)) => Some(items)
    case _ => None
  }
}
