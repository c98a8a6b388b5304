/**
 * JSON values as the backend sees them after `json.loads` or from a JSON
 * column: the payload dictionaries, station configs and token claims, with
 * the bits of Python semantics the code leans on (truthiness, `dict.get`,
 * `float(...)`).
 */
module JsonValues {
  import opened Wrappers
  import Text

  datatype Json =
    | JNull
    | JBool(b: bool)
    | JNum(n: real)
    | JStr(s: string)
    | JArr(items: seq<Json>)
    | JObj(fields: map<string, Json>)

  type Dict = map<string, Json>

  /** Python truthiness: `None`, `False`, `0`, `""`, `[]` and `{}` are false. */
  predicate Truthy(j: Json) {
    match j
    case JNull => false
    case JBool(b) => b
    case JNum(n) => n != 0.0
    case JStr(s) => s != ""
    case JArr(a) => a != []
    case JObj(m) => m != map[]
  }

  /** `d.get(k)`: a missing key reads as `None`, like a stored `null`. */
  function Get(d: Dict, k: string): (r: Json)
    ensures k !in d ==> r == JNull
  {
    if k in d then d[k] else JNull
  }

  /** A value Python arithmetic and comparisons accept as a number: a number, or a boolean as 1/0. */
  function Number(j: Json): (r: Option<real>)
    ensures r.Some? <==> j.JNum? || j.JBool?
  {
    match j
    case JNum(n) => Some(n)
    case JBool(b) => Some(if b then 1.0 else 0.0)
    case _ => None
  }

  /** `needle in s` for strings: a substring test. */
  predicate ContainsText(s: string, needle: string) {
    exists i :: 0 <= i <= |s| && needle <= s[i..]
  }

  /** Python's `key in j` on a JSON value; numbers, booleans and None raise TypeError, answered as status 500. */
  function Contains(j: Json, key: string): (r: Result<bool>)
    ensures r.Err? ==> r.status == 500
  {
    match j
    case JObj(f) => Ok(key in f)
    case JStr(s) => Ok(ContainsText(s, key))
    case JArr(items) => Ok(JStr(key) in items)
    case _ => Err(500)
  }

  /** `float(j)`: numbers, booleans and decimal text convert; `None`, lists and dicts raise TypeError. */
  function ToFloat(j: Json): (r: Option<real>)
    ensures j.JNum? ==> r == Some(j.n)
    ensures j.JNull? || j.JArr? || j.JObj? ==> r == None
  {
    match j
    case JNum(n) => Some(n)
    case JBool(b) => Some(if b then 1.0 else 0.0)
    case JStr(s) => Text.ParseReal(s)
    case _ => None
  }
}
