/**
 * The values Python's json decoder produces, and the one runtime error the
 * usage server can raise on them: calling `.get` on something that is not a
 * dict.
 */
module JsonValue {

  /** A decoded JSON document: JSON integers become Python `int`, other numbers `float`. */
  datatype Json =
    | JNull
    | JBool(b: bool)
    | JInt(i: int)
    | JFloat(f: real)
    | JString(s: string)
    | JArray(items: seq<Json>)
    | JObject(fields: map<string, Json>)

  /** The name `type(v).__name__` gives for the Python value decoded from `j`. */
  function PyTypeName(j: Json): (name: string)
    ensures name == "dict" <==> j.JObject?
    ensures name == "NoneType" <==> j.JNull?
  {
    match j
    case JNull => "NoneType"
    case JBool(_) => "bool"
    case JInt(_) => "int"
    case JFloat(_) => "float"
    case JString(_) => "str"
    case JArray(_) => "list"
    case JObject(_) => "dict"
  }

  /** The text of the AttributeError raised by `v.get(...)` when `v` is not a dict. */
  function NoGetMessage(j: Json): (msg: string)
    requires !j.JObject?
    ensures |msg| == |PyTypeName(j)| + 1 + |NoGetSuffix|
    ensures msg[0] == '\'' && msg[1..|msg| - |NoGetSuffix|] == PyTypeName(j)
    ensures msg[|msg| - |NoGetSuffix|..] == NoGetSuffix
  {
    "'" + PyTypeName(j) + NoGetSuffix
  }

  const NoGetSuffix: string := "' object has no attribute 'get'"

  /** A dict with one entry, as written with a Python dict display `{key: value}`. */
  function Single(key: string, value: Json): (j: Json)
    ensures j.JObject? && j.fields.Keys == {key} && j.fields[key] == value
  {
    JObject(map[key := value])
  }

}
