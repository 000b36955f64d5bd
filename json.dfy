/**
 * Decoded JSON values as the Python code sees them after `json.loads`
 * (objects are insertion-ordered dicts), with Python truthiness and the
 * `in` operator.
 */
module Json {
  import opened Wrappers
  import PyStr
  import PyDict

  datatype Json =
    | JNull
    | JBool(b: bool)
    | JInt(i: int)
    | JFloat(f: real)
    | JStr(s: string)
    | JArr(items: seq<Json>)
    | JObj(fields: PyDict.Dict<string, Json>)

  /** `bool(v)` in Python. */
  predicate Truthy(v: Json) {
    match v
    case JNull => false
    case JBool(b) => b
    case JInt(i) => i != 0
    case JFloat(f) => f != 0.0
    case JStr(s) => s != ""
    case JArr(items) => items != []
    case JObj(fields) => fields != []
  }

  /** `d.get(key)` on an object; any other value has no `get`. */
  function Member(v: Json, key: string): (r: Option<Json>)
    ensures r.Some? ==> v.JObj?
  {
    if v.JObj? then PyDict.Get(v.fields, key) else None
  }

  /** `d.get(key, default)` on an object. */
  function MemberOr(v: Json, key: string, default: Json): Json {
    Member(v, key).GetOr(default)
  }

  /** The string at `key`, when the value there is a string. */
  function StrMember(v: Json, key: string): Option<string> {
    match Member(v, key)
    case Some(JStr(s)) => Some(s)
    case _ => None
  }

  /** Python `str(v)`: a string is itself; `show` renders any other value. */
  function Str(v: Json, show: Json -> string): string {
    if v.JStr? then v.s else show(v)
  }

  /** A value `in` can look into. */
  predicate IsContainer(v: Json) {
    v.JObj? || v.JArr? || v.JStr?
  }

  /**
   * Python `key in v`: a key of a dict, an element of a list, a substring of
   * a string; a number, a boolean or `None` raises `TypeError`.
   */
  function In(key: string, v: Json): (r: Result<bool>)
    ensures r.Ok? <==> IsContainer(v)
    ensures v.JObj? ==> r == Ok(PyDict.HasKey(v.fields, key))
  {
    match v
    case JObj(fields) => Ok(PyDict.HasKey(fields, key))
    case JArr(items) => Ok(JStr(key) in items)
    case JStr(s) => Ok(PyStr.Contains(s, key))
    case _ => Err("TypeError: argument of type is not iterable")
  }

  /** `v[key]` with a string key: the value stored there, a `KeyError`, or a `TypeError` on a non-dict. */
  function Subscript(v: Json, key: string): (r: Result<Json>)
    ensures r.Ok? <==> v.JObj? && PyDict.HasKey(v.fields, key)
    ensures r.Ok? ==> Member(v, key) == Some(r.value)
  {
    if !v.JObj? then Err("TypeError: indices must be integers")
    else
      PyDict.GetSome(v.fields, key);
      match PyDict.Get(v.fields, key)
      case Some(x) => Ok(x)
      case None => Err("KeyError: '" + key + "'")
  }
}
