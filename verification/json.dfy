/**
 * JSON-like JavaScript values, as `JSON.parse` produces them, with the two
 * pieces of JavaScript semantics the settings code relies on: truthiness and
 * the keys a `for...in` loop or an object spread visits.
 */
module Json {
  import opened Js

  datatype Json =
    | JNull
    | JBool(b: bool)
    | JNum(n: real)
    | JStr(s: string)
    | JArr(xs: seq<Json>)
    | JObj(fields: map<string, Json>)

  /** JavaScript truthiness (`NaN` is not a JSON value). */
  predicate Truthy(j: Json) {
    match j
    case JNull => false
    case JBool(b) => b
    case JNum(n) => n != 0.0
    case JStr(s) => s != ""
    case _ => true
  }

  /**
   * `Number(v)`, the conversion that arithmetic and relational comparison
   * apply; `None` is `NaN`. An array converts through its string: the empty
   * array is 0, a one-element array converts like its element, and a longer
   * one is `NaN`.
   */
  function ToNumber(j: Json): (r: Option<real>)
    ensures j.JNum? ==> r == Some(j.n)
    ensures j.JNull? || j == JArr([]) ==> r == Some(0.0)
    ensures j.JStr? || j.JObj? ==> r == None
    ensures j.JArr? && |j.xs| > 1 ==> r == None
    decreases j, 0
  {
    match j
    case JNum(n) => Some(n)
    case JBool(b) => Some(if b then 1.0 else 0.0)
    case JNull => Some(0.0)
    case JArr(xs) =>
      if |xs| == 0 then Some(0.0)
      else if |xs| == 1 then ElementToNumber(xs[0])
      else None
    case _ => None
  }

  /** `Number(String(v))` for the one element of an array: `String(null)` inside an array is "", and `String(true)` is "true". */
  function ElementToNumber(j: Json): (r: Option<real>)
    ensures j.JNum? ==> r == Some(j.n)
    ensures j.JNull? ==> r == Some(0.0)
    ensures j.JBool? ==> r == None
    decreases j, 1
  {
    match j
    case JNum(n) => Some(n)
    case JNull => Some(0.0)
    case JArr(xs) => ToNumber(j)
    case _ => None
  }

  /** A non-null object that is not an array: `v && typeof v === "object" && !Array.isArray(v)`. */
  predicate IsPlainObject(j: Json) {
    j.JObj?
  }

  function ArrayEntries(xs: seq<Json>, i: nat): (m: map<string, Json>)
    requires i <= |xs|
    ensures forall k :: i <= k < |xs| ==> NatToString(k) in m
    ensures forall key :: key in m ==> m[key] in xs[i..]
    decreases |xs| - i
  {
    if i == |xs| then map[] else ArrayEntries(xs, i + 1)[NatToString(i) := xs[i]]
  }

  function StringEntries(s: string, i: nat): (m: map<string, Json>)
    requires i <= |s|
    ensures forall k :: i <= k < |s| ==> NatToString(k) in m
    ensures forall key :: key in m ==> m[key].JStr? && |m[key].s| == 1
    decreases |s| - i
  {
    if i == |s| then map[] else StringEntries(s, i + 1)[NatToString(i) := JStr([s[i]])]
  }

  /**
   * The own enumerable properties of a value: what `{ ...v }` copies and what
   * `for (const key in v)` visits. Arrays and strings contribute their
   * indices; `null`, booleans and numbers contribute nothing.
   */
  function Entries(j: Json): (m: map<string, Json>)
    ensures j.JObj? ==> m == j.fields
    ensures j.JNull? || j.JBool? || j.JNum? ==> m == map[]
    ensures forall key :: key in m && m[key].JObj? ==> m[key] < j
  {
    match j
    case JObj(f) => f
    case JArr(xs) => ArrayEntries(xs, 0)
    case JStr(s) => StringEntries(s, 0)
    case _ => map[]
  }
}
