/** Decoded JSON records as the Python code sees them: `dict`s with string
    keys (insertion-ordered), lists, strings, integers, booleans and `None`.
    Floating-point numbers are not part of this model. */
module JsonValues {
  import opened Basics
  import opened PyDict

  datatype Json =
    | JNull
    | JBool(b: bool)
    | JInt(n: int)
    | JStr(s: string)
    | JList(items: seq<Json>)
    | JObj(fields: Dict<string, Json>)

  type Record = Dict<string, Json>

  /** Python truthiness: `None`, `False`, `0`, `""`, `[]` and `{}` are false. */
  predicate Truthy(j: Json) {
    match j
    case JNull => false
    case JBool(b) => b
    case JInt(n) => n != 0
    case JStr(s) => s != ""
    case JList(items) => items != []
    case JObj(fields) => fields != []
  }

  /** `a or b`. */
  function Or(a: Json, b: Json): (r: Json)
    ensures Truthy(a) ==> r == a
    ensures !Truthy(a) ==> r == b
  {
    if Truthy(a) then a else b
  }

  /** `d.get(key, default)`. */
  function GetOr(d: Record, key: string, default: Json): (r: Json)
  {
    match Get(d, key)
    case Some(v) => v
    case None => default
  }

  /** `v.get(key, default)` where only a `dict` has `get`: anything else raises. */
  function GetOn(v: Json, key: string, default: Json): (r: Result<Json>)
    ensures r.Ok? <==> v.JObj?
    ensures v.JObj? ==> r.value == GetOr(v.fields, key, default)
  {
    if v.JObj? then Ok(GetOr(v.fields, key, default)) else Err("AttributeError")
  }

  /** The text of a string value, if it is one. */
  function Text(j: Json): Option<string> {
    if j.JStr? then Some(j.s) else None
  }

  /** A list of dicts, as iterating it and calling `p.get` on each item needs;
      anything else raises. */
  function AsRecords(j: Json): (r: Result<seq<Record>>)
    ensures r.Ok? ==> j.JList? && |r.value| == |j.items|
    ensures r.Ok? ==> forall i :: 0 <= i < |r.value| ==> j.items[i] == JObj(r.value[i])
  {
    if j.JList? && forall i :: 0 <= i < |j.items| ==> j.items[i].JObj?
    then Ok(seq(|j.items|, i requires 0 <= i < |j.items| => j.items[i].fields))
    else Err("AttributeError")
  }
}
