/** The values a parsed JSON document or a Python dict of JSON-like data can hold. */
module JsonData {
  import opened Wrappers

  /** Python floats are modelled as exact reals; dicts as maps (key order is not modelled). */
  datatype Json =
    | JNull
    | JBool(b: bool)
    | JInt(i: int)
    | JFloat(x: real)
    | JStr(s: string)
    | JArray(items: seq<Json>)
    | JObject(fields: map<string, Json>)

  type Record = map<string, Json>

  /** Python's `bool(v)`. */
  predicate Truthy(v: Json) {
    match v
    case JNull => false
    case JBool(b) => b
    case JInt(i) => i != 0
    case JFloat(x) => x != 0.0
    case JStr(s) => s != ""
    case JArray(items) => items != []
    case JObject(fields) => fields != map[]
  }

  /** `isinstance(v, (int, float))`: a Python bool is an int, so booleans count as 1 and 0. */
  predicate IsNumber(v: Json) {
    v.JBool? || v.JInt? || v.JFloat?
  }

  function NumberValue(v: Json): real
    requires IsNumber(v)
  {
    match v
    case JBool(b) => if b then 1.0 else 0.0
    case JInt(i) => i as real
    case JFloat(x) => x
  }

  /**
    `d.get(key, default)` used as a number (compared or added): a missing key gives the
    default, a numeric value its value, and anything else raises TypeError.
  */
  function NumField(d: Record, key: string, default: real): (r: Result<real>)
    ensures key !in d ==> r == Ok(default)
    ensures key in d ==> (r.Ok? <==> IsNumber(d[key]))
    ensures key in d && IsNumber(d[key]) ==> r == Ok(NumberValue(d[key]))
  {
    if key !in d then Ok(default)
    else if IsNumber(d[key]) then Ok(NumberValue(d[key]))
    else Err(TypeError)
  }

  /** `d.get(key, default)`. */
  function Get(d: Record, key: string, default: Json): Json {
    if key in d then d[key] else default
  }

  /** Whether `hash(v)` succeeds: lists and dicts are unhashable. */
  predicate Hashable(v: Json) {
    !v.JArray? && !v.JObject?
  }

  /**
    `set(d.get(key, default) for d in ds)`: the values found under `key`, or TypeError as soon
    as one of them cannot be hashed.
  */
  function ValueSet(ds: seq<Record>, key: string, default: Json): (r: Result<set<Json>>)
    ensures r.Ok? <==> forall i :: 0 <= i < |ds| ==> Hashable(Get(ds[i], key, default))
    ensures r.Ok? ==> forall i :: 0 <= i < |ds| ==> Get(ds[i], key, default) in r.value
    ensures r.Ok? ==> forall v :: v in r.value ==> exists i :: 0 <= i < |ds| && Get(ds[i], key, default) == v
    ensures r.Err? ==> r.error == TypeError
  {
    if forall i :: 0 <= i < |ds| ==> Hashable(Get(ds[i], key, default)) then
      Ok(set i | 0 <= i < |ds| :: Get(ds[i], key, default))
    else
      Err(TypeError)
  }
}
