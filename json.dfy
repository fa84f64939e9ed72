/**
 * Decoded JSON values as Python's json module hands them back, and the parts of
 * Python semantics the pipeline applies to them (truthiness, dict lookups).
 */
module JsonValue {
  import opened Wrappers

  /** A decoded JSON value. Numbers are kept as integers: the modelled decisions use only their truthiness. */
  datatype Json =
    | JNull
    | JBool(b: bool)
    | JNum(n: int)
    | JStr(s: string)
    | JArr(items: seq<Json>)
    | JObj(fields: map<string, Json>)

  /** A decoded JSON object, i.e. a Python dict with string keys. */
  type Object = map<string, Json>

  /**
   * json.loads narrowed to the case the pipeline survives: a JSON object, or None
   * where json.loads raises JSONDecodeError.
   */
  type Decoder = string -> Option<Object>

  /** Python's bool(v) for a decoded JSON value. */
  predicate Truthy(v: Json) {
    match v
    case JNull => false
    case JBool(b) => b
    case JNum(n) => n != 0
    case JStr(s) => s != ""
    case JArr(items) => items != []
    case JObj(fields) => fields != map[]
  }

  /** The falsy values are exactly None, False, 0, "", [] and {}. */
  lemma FalsyValues(v: Json)
    ensures !Truthy(v) <==>
      v == JNull || v == JBool(false) || v == JNum(0) || v == JStr("") || v == JArr([]) || v == JObj(map[])
  {
  }

  /** Python's d.get(key, default). */
  function Get(d: Object, key: string, default: Json): (r: Json)
    ensures key in d ==> r == d[key]
    ensures key !in d ==> r == default
  {
    if key in d then d[key] else default
  }
}
