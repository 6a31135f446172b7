/**
 * JSON values as Python's `json` module hands them to the gateway, and the
 * handful of Python operations the gateway applies to them: truthiness,
 * `d.get(k, default)`, `k in x` and `for e in x`. Each operation that can raise
 * in Python returns None in that case.
 */
module JsonValue {
  import opened Wrappers
  import opened Strings

  /** A decoded JSON document; objects are dictionaries keyed by member name. */
  datatype Json =
    | Null
    | Bool(b: bool)
    | Num(n: int)
    | Str(s: string)
    | Arr(items: seq<Json>)
    | Obj(fields: map<string, Json>)

  /** Python truthiness: null, false, 0 and empty containers are false. */
  predicate Truthy(j: Json) {
    match j
    case Null => false
    case Bool(b) => b
    case Num(n) => n != 0
    case Str(s) => s != ""
    case Arr(a) => a != []
    case Obj(m) => m != map[]
  }

  /** `d.get(key, default)` on a dictionary. */
  function Lookup(fields: map<string, Json>, key: string, default: Json): Json {
    if key in fields then fields[key] else default
  }

  /** `j.get(key, default)`; None when `j` is not a dictionary (AttributeError). */
  function Get(j: Json, key: string, default: Json): Option<Json> {
    if j.Obj? then Some(Lookup(j.fields, key, default)) else None
  }

  /** `key in j`; None when Python raises TypeError. */
  function HasKey(key: string, j: Json): Option<bool> {
    match j
    case Obj(m) => Some(key in m)
    case Str(s) => Some(Contains(s, key))
    case Arr(a) => Some(Str(key) in a)
    case _ => None
  }

  /**
   * The elements `for e in j` visits; None when Python raises TypeError.
   * A string yields its characters. A non-empty dictionary yields its keys in
   * insertion order, which a map does not keep: it is treated as raising.
   */
  function Elements(j: Json): Option<seq<Json>> {
    match j
    case Arr(a) => Some(a)
    case Str(s) => Some(seq(|s|, i requires 0 <= i < |s| => Str([s[i]])))
    case Obj(m) => if m == map[] then Some([]) else None
    case _ => None
  }

  /** Python's `str(j)` inside an f-string, exact for strings, numbers, booleans and null. */
  function Render(j: Json): string {
    match j
    case Null => "None"
    case Bool(b) => if b then "True" else "False"
    case Num(n) => IntToString(n)
    case Str(s) => s
    case Arr(_) => "[...]"
    case Obj(_) => "{...}"
  }
}
