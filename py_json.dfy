/** Parsed JSON as the connector sees it after `json.load`, and the Python
    operations the connector applies to such values: truthiness, `key in v`,
    `v[key]`, `d.get(key, default)`, and iterating a value to call `.get` on
    each element. Every operation that Python would reject with an exception
    yields `Raised`. */
module PyJson {
  import opened Wrappers
  import Text

  /** `JNull` is Python's `None`, which is also what `dict.get` returns for a missing key. */
  datatype Json =
    | JNull
    | JBool(b: bool)
    | JNum(n: real)
    | JStr(s: string)
    | JArr(items: seq<Json>)
    | JObj(fields: map<string, Json>)

  /** Python `bool(v)`. */
  predicate Truthy(v: Json) {
    match v
    case JNull => false
    case JBool(b) => b
    case JNum(n) => n != 0.0
    case JStr(s) => s != []
    case JArr(a) => a != []
    case JObj(m) => m != map[]
  }

  /** Python `key in v` for a string `key`: a key test on a dict, an element
      test on a list, a substring test on a string, a TypeError otherwise. */
  function Contains(v: Json, key: string): (r: Outcome<bool>)
    ensures v.JObj? ==> r == Done(key in v.fields)
    ensures (v.JNull? || v.JBool? || v.JNum?) ==> r.Raised?
  {
    match v
    case JObj(m) => Done(key in m)
    case JArr(a) => Done(JStr(key) in a)
    case JStr(s) => Done(Text.IsSubstring(key, s))
    case _ => Raised
  }

  /** Python `v[key]` for a string `key`: only a dict holding the key answers. */
  function Index(v: Json, key: string): (r: Outcome<Json>)
    ensures r.Done? <==> v.JObj? && key in v.fields
    ensures r.Done? ==> r.value == v.fields[key]
  {
    match v
    case JObj(m) => if key in m then Done(m[key]) else Raised
    case _ => Raised
  }

  /** Python `d.get(key, default)` on a dict. */
  function GetOr(d: map<string, Json>, key: string, default: Json): (r: Json)
    ensures key in d ==> r == d[key]
    ensures key !in d ==> r == default
  {
    if key in d then d[key] else default
  }

  /** Python `d.get(key)` on a dict. */
  function Get(d: map<string, Json>, key: string): Json {
    GetOr(d, key, JNull)
  }

  /** Python `for x in v: ... x.get(...)`: the dicts that such a loop visits.
      A list must hold only dicts; iterating a dict or a string visits keys or
      characters, which are strings and have no `.get`, so only an empty one
      gets through; any other value is not iterable. */
  function IterObjects(v: Json): (r: Outcome<seq<map<string, Json>>>)
    ensures r.Done? && v.JArr? ==>
              && |r.value| == |v.items|
              && forall i :: 0 <= i < |v.items| ==> v.items[i] == JObj(r.value[i])
    ensures r.Done? && !v.JArr? ==> r.value == []
    ensures v.JArr? && (forall i :: 0 <= i < |v.items| ==> v.items[i].JObj?) ==> r.Done?
  {
    match v
    case JArr(a) =>
      if forall i :: 0 <= i < |a| ==> a[i].JObj? then
        Done(seq(|a|, i requires 0 <= i < |a| => a[i].fields))
      else Raised
    case JObj(m) => if m == map[] then Done([]) else Raised
    case JStr(s) => if s == [] then Done([]) else Raised
    case _ => Raised
  }

  /** The element Python stores when `v` is added to a set: lists and dicts are
      unhashable, and `True`/`False` are the same set element as 1 and 0. */
  function HashKey(v: Json): (r: Outcome<Json>)
    ensures r.Raised? <==> v.JArr? || v.JObj?
  {
    match v
    case JArr(_) => Raised
    case JObj(_) => Raised
    case JBool(b) => Done(JNum(if b then 1.0 else 0.0))
    case _ => Done(v)
  }
}
