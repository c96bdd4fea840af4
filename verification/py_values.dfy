/** The decoded JSON values the service code handles (what `response.json()`
    yields and what the tools return), with Python's truthiness, `dict.get`
    and `len` on them. */
module PyValues {
  import opened Wrappers

  datatype Json =
    | JNull
    | JBool(b: bool)
    | JInt(i: int)
    | JStr(s: string)
    | JList(items: seq<Json>)
    | JObj(fields: map<string, Json>)

  /** A Python `dict` with string keys. */
  type Dict = map<string, Json>

  /** `bool(v)` in Python. */
  predicate Truthy(v: Json) {
    match v
    case JNull => false
    case JBool(b) => b
    case JInt(i) => i != 0
    case JStr(s) => s != ""
    case JList(xs) => xs != []
    case JObj(m) => m != map[]
  }

  /** `d.get(key, default)`. */
  function GetOr(d: Dict, key: string, default: Json): (r: Json)
    ensures key !in d ==> r == default
  {
    if key in d then d[key] else default
  }

  /** `d.get(key)`: a key holding JSON null reads the same as a missing key. */
  function Get(d: Dict, key: string): Json {
    GetOr(d, key, JNull)
  }

  /** `len(v)`; None where Python raises TypeError. */
  function Len(v: Json): Option<nat> {
    match v
    case JStr(s) => Some(|s|)
    case JList(xs) => Some(|xs|)
    case JObj(m) => Some(|m|)
    case _ => None
  }

  /** Values Python accepts as dict keys. */
  predicate Hashable(v: Json) {
    !v.JList? && !v.JObj?
  }

  /** The elements a `for x in v:` loop hands to a body that calls `x.get`.
      A list yields its items; an empty string or dict yields nothing; a
      non-empty string or dict yields strings, on which the first `.get`
      raises, and a value without `len` raises before the loop: None. */
  function DictElements(v: Json): (r: Option<seq<Json>>)
    ensures r.Some? <==> v.JList? || v == JStr("") || v == JObj(map[])
    ensures v.JList? ==> r == Some(v.items)
  {
    match v
    case JList(xs) => Some(xs)
    case JStr(s) => if s == "" then Some([]) else None
    case JObj(m) => if m == map[] then Some([]) else None
    case _ => None
  }
}
