/**
 * Decoded JSON values as the Python code sees them after `json.loads`:
 * dicts, lists, strings, numbers, booleans and None.  Python's None and
 * JSON null are the same value here (JNull), so `d.get(k)` of an absent key
 * and of a key holding null agree, exactly as in Python.
 */
module Json {
  import opened Wrappers

  datatype Json =
    | JNull
    | JBool(b: bool)
    | JInt(i: int)
    | JFloat(r: real)
    | JStr(s: string)
    | JArr(items: seq<Json>)
    | JObj(fields: map<string, Json>)

  /** Python truthiness (`if x:`): empty containers, zero, "" and None are false. */
  predicate Truthy(j: Json) {
    match j
    case JNull => false
    case JBool(b) => b
    case JInt(i) => i != 0
    case JFloat(r) => r != 0.0
    case JStr(s) => s != []
    case JArr(a) => a != []
    case JObj(m) => m != map[]
  }

  /** `k in d` for a dict `d`. */
  predicate Has(j: Json, k: string) {
    j.JObj? && k in j.fields
  }

  /** `d.get(k, default)`: the stored value when the key is present, else the default. */
  function GetOr(j: Json, k: string, default: Json): (r: Json)
    ensures Has(j, k) ==> r == j.fields[k]
    ensures !Has(j, k) ==> r == default
  {
    if j.JObj? && k in j.fields then j.fields[k] else default
  }

  /** `d.get(k)`: None when the key is absent. */
  function Get(j: Json, k: string): Json {
    GetOr(j, k, JNull)
  }

  /** The elements a `for x in v` loop visits when `v` is a list. */
  function Elements(j: Json): seq<Json> {
    if j.JArr? then j.items else []
  }

  /** `p in s` for strings: `p` occurs as a contiguous substring of `s`. */
  predicate Substring(p: string, s: string)
    decreases |s|
  {
    |p| <= |s| && (s[..|p|] == p || (s != [] && Substring(p, s[1..])))
  }

  /** Python's `x in container` for a list (membership), a string (substring) or a dict (key). */
  predicate Contains(container: Json, x: string) {
    match container
    case JArr(items) => JStr(x) in items
    case JStr(s) => Substring(x, s)
    case JObj(m) => x in m
    case _ => false
  }

  /** A string field read with `d.get(k, default)`, when it holds a string. */
  function StrOr(j: Json, k: string, default: string): string {
    match GetOr(j, k, JStr(default))
    case JStr(s) => s
    case _ => default
  }

  /** `s[:n]` (Python slicing clamps to the length). */
  function Prefix(s: string, n: nat): (r: string)
    ensures |r| <= n && |r| <= |s|
    ensures |s| >= n ==> |r| == n
    ensures forall i :: 0 <= i < |r| ==> r[i] == s[i]
  {
    if |s| <= n then s else s[..n]
  }

  /** `s[a:b]` with Python's clamping of both bounds to the length. */
  function Slice(s: string, a: nat, b: nat): (r: string)
    ensures |r| <= |s|
    ensures a < b ==> |r| <= b - a
    ensures b <= a ==> r == []
    ensures a <= b <= |s| ==> r == s[a..b]
    ensures |s| <= a ==> r == []
  {
    var hi := if b <= |s| then b else |s|;
    if a < hi then s[a..hi] else []
  }
}
