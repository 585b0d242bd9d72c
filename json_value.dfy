/**
 * A JSON document as Python's `json.loads` returns it, and the behaviour of
 * Python's membership test `key in value` on such a document.
 * Parsing and serialising text stay abstract: every handler takes them as
 * function parameters.
 */
module JsonValue {
  import opened Wrappers
  import Text

  /** A decoded JSON value; numbers keep their source text (floating point is not modelled). */
  datatype Json =
    | JNull
    | JBool(b: bool)
    | JNumber(text: string)
    | JString(s: string)
    | JArray(items: seq<Json>)
    | JObject(fields: map<string, Json>)

  /**
   * Whether `json.loads` turns a number's text into a float: a fraction or an
   * exponent, or one of the constants NaN, Infinity and -Infinity that Python
   * accepts beyond the JSON grammar.
   */
  predicate IsFloatText(t: string) {
    || t == "NaN" || t == "Infinity" || t == "-Infinity"
    || exists i :: 0 <= i < |t| && (t[i] == '.' || t[i] == 'e' || t[i] == 'E')
  }

  /** The Python type name of a decoded value, as it appears in TypeError messages. */
  function PyTypeName(v: Json): string {
    match v
    case JNull => "NoneType"
    case JBool(_) => "bool"
    case JNumber(t) => if IsFloatText(t) then "float" else "int"
    case JString(_) => "str"
    case JArray(_) => "list"
    case JObject(_) => "dict"
  }

  /**
   * Python's `key in v` for a string `key`: key membership for a dict, element
   * membership for a list, substring for a str, and a TypeError for the
   * scalar types, which are not iterable.
   */
  function PyContains(v: Json, key: string): (r: Result<bool, string>)
    ensures r.Err? <==> (v.JNull? || v.JBool? || v.JNumber?)
    ensures v.JObject? ==> r == Ok(key in v.fields)
    ensures r.Err? ==> r.error == "argument of type '" + PyTypeName(v) + "' is not iterable"
  {
    match v
    case JObject(fields) => Ok(key in fields)
    case JArray(items) => Ok(JString(key) in items)
    case JString(s) => Ok(Text.IsSubstring(key, s))
    case _ => Err("argument of type '" + PyTypeName(v) + "' is not iterable")
  }

  /** `key in` a decoded NaN or infinity fails as it does on any float. */
  lemma NonFiniteNumbersAreFloats(t: string, key: string)
    requires t == "NaN" || t == "Infinity" || t == "-Infinity"
    ensures PyContains(JNumber(t), key) == Err("argument of type 'float' is not iterable")
  {
    assert IsFloatText(t);
    assert "argument of type '" + "float" + "' is not iterable" == "argument of type 'float' is not iterable";
  }

  /** Python's `v[key]` for a string `key`: only a dict holding `key` yields a value. */
  function PyIndex(v: Json, key: string): (r: Result<Json, string>)
    ensures r.Ok? <==> v.JObject? && key in v.fields
    ensures r.Ok? ==> r.value == v.fields[key]
  {
    match v
    case JObject(fields) => if key in fields then Ok(fields[key]) else Err("'" + key + "'")
    case JArray(_) => Err("list indices must be integers or slices, not str")
    case JString(_) => Err("string indices must be integers, not 'str'")
    case _ => Err("'" + PyTypeName(v) + "' object is not subscriptable")
  }
}
