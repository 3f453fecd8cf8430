/** JSON values as Python's `json` module decodes them, with the few Python
    operations the scraper applies to them: truthiness and `dict.get`. */
module Json {

  datatype Option<+T> = None | Some(value: T)

  /** A decoded JSON value. `JNull` is Python's `None`; `JObject` is a `dict`
      with string keys; `JFloat(m, e)` is the decimal literal m * 10^e. */
  datatype Json =
    | JNull
    | JBool(b: bool)
    | JInt(i: int)
    | JFloat(mantissa: int, exponent: int)
    | JString(s: string)
    | JArray(items: seq<Json>)
    | JObject(fields: map<string, Json>)

  /** Python truthiness, as tested by `if value:`. */
  predicate Truthy(j: Json)
    ensures !Truthy(j) <==>
              j == JNull || j == JBool(false) || j == JInt(0) || (j.JFloat? && j.mantissa == 0) ||
              j == JString([]) || j == JArray([]) || j == JObject(map[])
  {
    match j
    case JNull => false
    case JBool(b) => b
    case JInt(i) => i != 0
    case JFloat(m, _) => m != 0
    case JString(s) => |s| > 0
    case JArray(xs) => |xs| > 0
    case JObject(m) => |m| > 0
  }

  /** `value.get(key, default)`; None when `value` is not a dict, where Python
      raises AttributeError. */
  function DictGet(j: Json, key: string, default: Json): (r: Option<Json>)
    ensures r.None? <==> !j.JObject?
    ensures At(j, [key]).Some? ==> r == At(j, [key])
    ensures j.JObject? && At(j, [key]).None? ==> r == Some(default)
  {
    match j
    case JObject(m) =>
      assert [key][1..] == [];
      assert key in m ==> At(m[key], []) == Some(m[key]);
      Some(if key in m then m[key] else default)
    case _ => None
  }

  /** Strict lookup along a path of keys: every step must be a dict that holds
      the key. */
  function At(j: Json, path: seq<string>): Option<Json>
    decreases |path|
  {
    if path == [] then Some(j)
    else match j
      case JObject(m) => if path[0] in m then At(m[path[0]], path[1..]) else None
      case _ => None
  }

  /** `j` with the value at `path` replaced by `v`, when the path exists. */
  function SetAt(j: Json, path: seq<string>, v: Json): Json
    decreases |path|
  {
    if path == [] then v
    else match j
      case JObject(m) =>
        if path[0] in m then JObject(m[path[0] := SetAt(m[path[0]], path[1..], v)]) else j
      case _ => j
  }
}
