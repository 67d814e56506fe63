/** The dynamic values the generator and the facade pass around: JSON-like
    dictionaries (`Dict[str, Any]`), the Python exceptions that their lookups
    raise, and the usual Option/Result wrappers. */
module Values {

  datatype Option<+T> = None | Some(value: T) {
    function GetOr(default: T): T {
      match this
      case Some(v) => v
      case None => default
    }
  }

  datatype Result<+R, +E> = Ok(value: R) | Err(error: E)

  /** The Python exceptions the modelled code can raise, with the key or
      attribute named in the exception. */
  datatype Failure =
    | KeyError(key: string)
    | AttributeError(name: string)
    | TypeError(what: string)

  /** A decoded JSON value. Floating-point numbers are not modelled. */
  datatype Json =
    | JNull
    | JBool(b: bool)
    | JInt(i: int)
    | JStr(s: string)
    | JArr(items: seq<Json>)
    | JObj(fields: map<string, Json>)

  /** Python truthiness of a decoded JSON value (`if not text:`): the falsy
      values are exactly `None`, `False`, `0`, `""`, `[]` and `{}`. */
  function Truthy(j: Json): (b: bool)
    ensures !b <==> j in {JNull, JBool(false), JInt(0), JStr(""), JArr([]), JObj(map[])}
  {
    match j
    case JNull => false
    case JBool(b) => b
    case JInt(i) => i != 0
    case JStr(s) => s != ""
    case JArr(xs) => xs != []
    case JObj(m) => m != map[]
  }

  /** `d.get(key, default)` on a dictionary. */
  function Get(m: map<string, Json>, key: string, default: Json): (r: Json)
    ensures key in m ==> r == m[key]
    ensures key !in m ==> r == default
  {
    if key in m then m[key] else default
  }

  /** `value[key]`: a KeyError for a dictionary without the key, a TypeError
      for a value that cannot be indexed by a string. */
  function Lookup(j: Json, key: string): (r: Result<Json, Failure>)
    ensures r.Ok? <==> j.JObj? && key in j.fields
    ensures r.Ok? ==> r.value == j.fields[key]
    ensures j.JObj? && key !in j.fields ==> r == Err(KeyError(key))
  {
    match j
    case JObj(m) => if key in m then Ok(m[key]) else Err(KeyError(key))
    case _ => Err(TypeError("subscript"))
  }

  /** The elements `for x in value:` visits: the items of a list, the
      one-character strings of a string; other values are not iterable here. */
  function Iterate(j: Json): (r: Option<seq<Json>>)
    ensures j.JArr? ==> r == Some(j.items)
    ensures j.JStr? ==> r.Some? && |r.value| == |j.s|
                        && forall i :: 0 <= i < |j.s| ==> r.value[i] == JStr([j.s[i]])
    ensures !j.JArr? && !j.JStr? ==> r == None
  {
    match j
    case JArr(xs) => Some(xs)
    case JStr(s) => Some(seq(|s|, i requires 0 <= i < |s| => JStr([s[i]])))
    case _ => None
  }

  /** A JSON value used where the object model expects an integer. */
  function AsInt(j: Json): (r: Option<int>)
    ensures r.Some? <==> j.JInt?
    ensures r.Some? ==> r.value == j.i
  {
    if j.JInt? then Some(j.i) else None
  }
}
