/**
 * Python values as `json.loads` produces them, with the pieces of Python
 * semantics the backend relies on: truthiness, `dict.get`, and what a
 * `for` loop over such a value visits.
 */
module Json {
  import opened Wrappers
  import opened Text

  /** A decoded JSON value; numbers are integers (floats are not modelled). */
  datatype Json =
    | JNull
    | JBool(b: bool)
    | JNum(n: int)
    | JStr(s: string)
    | JArr(items: seq<Json>)
    | JObj(fields: map<string, Json>)

  /** Python truthiness of a decoded value. */
  predicate Truthy(j: Json)
  {
    match j
    case JNull => false
    case JBool(b) => b
    case JNum(n) => n != 0
    case JStr(s) => s != ""
    case JArr(xs) => xs != []
    case JObj(m) => m != map[]
  }

  /** `d.get(k, default)`. */
  function Get(m: map<string, Json>, k: string, default: Json): (r: Json)
    ensures k in m ==> r == m[k]
    ensures k !in m ==> r == default
  {
    if k in m then m[k] else default
  }

  /** `d.get(k)`: a missing key reads as None. */
  function Lookup(m: map<string, Json>, k: string): (r: Json)
    ensures k !in m ==> r == JNull
  {
    Get(m, k, JNull)
  }

  /**
   * What `for x in v` sees: the elements of a list; for a string or an
   * object only how many items there are, since every item is then a
   * string (a character or a key); lists are the only values whose items
   * can be objects. Null, booleans and numbers are not iterable.
   */
  datatype Iteration = Elements(items: seq<Json>) | Strings(count: nat) | NotIterable

  function Iterate(j: Json): (r: Iteration)
    ensures r.Elements? <==> j.JArr?
    ensures r.NotIterable? <==> (j.JNull? || j.JBool? || j.JNum?)
    ensures r == Strings(0) ==> !Truthy(j)
  {
    match j
    case JArr(xs) => Elements(xs)
    case JStr(s) => Strings(|s|)
    case JObj(m) => Strings(|m|)
    case _ => NotIterable
  }

  /** `str(v)` for scalars; the text of a list or an object comes from `repr`. */
  function PyStr(j: Json, repr: Json -> string): string
  {
    match j
    case JNull => "None"
    case JBool(b) => if b then "True" else "False"
    case JNum(n) => IntToString(n)
    case JStr(s) => s
    case _ => repr(j)
  }

  /** The string inside a value, if it is one: `isinstance(v, str)`. */
  function AsString(j: Json): (r: Option<string>)
    ensures r.Some? <==> j.JStr?
    ensures r.Some? ==> r.value == j.s
  {
    if j.JStr? then Some(j.s) else None
  }
}
