/** A parsed JSON (or Python literal) value, as the core receives it from `json.loads` or a config dict. */
module Json {
  import opened Wrappers

  datatype Json =
    | JNull
    | JBool(b: bool)
    | JInt(i: int)
    | JReal(r: real)
    | JStr(s: string)
    | JList(items: seq<Json>)
    | JObj(fields: map<string, Json>)

  /** Python truthiness: `None`, `False`, zero, and empty strings, lists and dicts are false. */
  predicate Truthy(j: Json) {
    match j
    case JNull => false
    case JBool(b) => b
    case JInt(i) => i != 0
    case JReal(r) => r != 0.0
    case JStr(s) => s != ""
    case JList(items) => |items| > 0
    case JObj(fields) => |fields| > 0
  }

  /** `d.get(k)`: `None` when the key is absent. */
  function Get(d: map<string, Json>, k: string): Json {
    if k in d then d[k] else JNull
  }

  /** `d.get(k, default)` */
  function GetOr(d: map<string, Json>, k: string, default: Json): Json {
    if k in d then d[k] else default
  }

  /** `if k not in d: d[k] = v` */
  function SetDefault(d: map<string, Json>, k: string, v: Json): (r: map<string, Json>)
    ensures r.Keys == d.Keys + {k}
    ensures k in d ==> r == d
    ensures forall x :: x in d ==> r[x] == d[x]
    ensures k !in d ==> r[k] == v
  {
    if k in d then d else d[k := v]
  }

  /** `d[k]` on a value that must be a dict holding `k`; anything else raises. */
  function Index(j: Json, k: string): Option<Json> {
    if j.JObj? && k in j.fields then Some(j.fields[k]) else None
  }

  /**
   * What a `for` loop over a value visits: a list's items, a string's characters (as
   * one-character strings) and nothing for an empty dict. A non-empty dict visits its
   * keys in insertion order, which a `map` does not hold, so it is `None` here, like a
   * value that cannot be iterated.
   */
  function Iterated(v: Json): (r: Option<seq<Json>>)
    ensures v.JList? ==> r == Some(v.items)
    ensures v.JStr? ==> r.Some? && |r.value| == |v.s| && forall i :: 0 <= i < |v.s| ==> r.value[i] == JStr([v.s[i]])
    ensures v.JObj? ==> (r.Some? <==> v.fields == map[]) && (r.Some? ==> r.value == [])
    ensures !v.JList? && !v.JStr? && !v.JObj? ==> r.None?
  {
    match v
    case JList(items) => Some(items)
    case JStr(s) => Some(seq(|s|, i requires 0 <= i < |s| => JStr([s[i]])))
    case JObj(f) => if f == map[] then Some([]) else None
    case _ => None
  }
}
