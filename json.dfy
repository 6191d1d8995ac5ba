/**
 * JSON values as the Python code sees them after `json.loads`, and the few
 * Python operations the core applies to them: truthiness, `k in v`,
 * `v.get(k, d)`, `v[k]`, `v[0]` and `str(v)`. A Python exception raised by
 * one of these operations (TypeError, KeyError, AttributeError, IndexError)
 * is the `None` result.
 */
module Json {
  import opened Wrappers
  import opened Text

  /** Numbers are integers: no JSON number handled by the core is fractional. */
  datatype Value =
    | JNull
    | JBool(b: bool)
    | JNum(n: int)
    | JStr(s: string)
    | JArr(items: seq<Value>)
    | JObj(fields: map<string, Value>)

  const EmptyObject: Value := JObj(map[])

  /** Python truthiness: `None`, `False`, `0`, `""`, `[]` and `{}` are false. */
  predicate Truthy(v: Value) {
    match v
    case JNull => false
    case JBool(b) => b
    case JNum(n) => n != 0
    case JStr(s) => |s| > 0
    case JArr(a) => |a| > 0
    case JObj(m) => |m| > 0
  }

  /** `key in v` for a string key: dict keys, list elements, or substring of a str. */
  function Contains(v: Value, key: string): (r: Option<bool>)
    ensures r.None? <==> !(v.JObj? || v.JArr? || v.JStr?)
    ensures v.JObj? ==> r == Some(key in v.fields)
    ensures v.JArr? ==> r == Some(JStr(key) in v.items)
  {
    match v
    case JObj(m) => Some(key in m)
    case JArr(a) => Some(JStr(key) in a)
    case JStr(s) => Some(IsSubstring(key, s))
    case _ => None
  }

  /** `len(v)` is defined: strings, lists and dictionaries. */
  predicate Sized(v: Value) {
    v.JStr? || v.JArr? || v.JObj?
  }

  /** `v[:n]` is defined: strings and lists can be sliced. */
  predicate Sliceable(v: Value) {
    v.JStr? || v.JArr?
  }

  /** `v.get(key, default)`: only a dict has `.get`. */
  function Get(v: Value, key: string, default: Value): (r: Option<Value>)
    ensures r.Some? <==> v.JObj?
    ensures v.JObj? && key in v.fields ==> r == Some(v.fields[key])
    ensures v.JObj? && key !in v.fields ==> r == Some(default)
  {
    match v
    case JObj(m) => Some(if key in m then m[key] else default)
    case _ => None
  }

  /** `v[key]` for a string key: a dict with that key; anything else raises. */
  function Index(v: Value, key: string): (r: Option<Value>)
    ensures r.Some? <==> v.JObj? && key in v.fields
    ensures r.Some? ==> r.value == v.fields[key]
  {
    if v.JObj? && key in v.fields then Some(v.fields[key]) else None
  }

  /**
   * `v[0]`: the first element of a non-empty list, the first character of a
   * non-empty str; a dict has no integer key after `json.loads`.
   */
  function First(v: Value): (r: Option<Value>)
    ensures v.JArr? && |v.items| > 0 ==> r == Some(v.items[0])
    ensures r.Some? ==> (v.JArr? && |v.items| > 0) || (v.JStr? && |v.s| > 0)
  {
    match v
    case JArr(a) => if |a| > 0 then Some(a[0]) else None
    case JStr(s) => if |s| > 0 then Some(JStr([s[0]])) else None
    case _ => None
  }

  /** Decimal digits of a natural number. */
  function NatToString(n: nat): (r: string)
    ensures |r| > 0
    ensures forall i :: 0 <= i < |r| ==> '0' <= r[i] <= '9'
    decreases n
  {
    var d := [(('0' as int) + n % 10) as char];
    if n < 10 then d else NatToString(n / 10) + d
  }

  function IntToString(n: int): (r: string)
    ensures n < 0 <==> (|r| > 0 && r[0] == '-')
  {
    if n < 0 then "-" + NatToString(-n) else NatToString(n)
  }

  /**
   * `str(v)` for the scalar values the error decoding formats. Lists and
   * dicts get a fixed placeholder instead of Python's repr.
   */
  function Display(v: Value): string {
    match v
    case JNull => "None"
    case JBool(b) => if b then "True" else "False"
    case JNum(n) => IntToString(n)
    case JStr(s) => s
    case JArr(_) => "[...]"
    case JObj(_) => "{...}"
  }
}
