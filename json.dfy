/**
 * The JavaScript values the React client receives from the backend and keeps in its state.
 * Numbers are integers here; `undefined` is a value of its own, as in JavaScript.
 */
module Json {
  import opened Wrappers

  datatype Json =
    | JUndefined
    | JNull
    | JBool(b: bool)
    | JNum(n: int)
    | JStr(s: string)
    | JArray(items: seq<Json>)
    | JObject(fields: map<string, Json>)

  /** JavaScript truthiness: `false`, `0`, `""`, `null` and `undefined` are falsy, everything else is truthy. */
  predicate Truthy(j: Json) {
    match j
    case JUndefined => false
    case JNull => false
    case JBool(b) => b
    case JNum(n) => n != 0
    case JStr(s) => s != ""
    case JArray(_) => true
    case JObject(_) => true
  }

  /** JavaScript `a || b`: the left operand when it is truthy, otherwise the right one. */
  function Or(a: Json, b: Json): (r: Json)
    ensures Truthy(a) ==> r == a
    ensures !Truthy(a) ==> r == b
  {
    if Truthy(a) then a else b
  }

  /**
   * Property access `j.key`. Reading a property of `null` or `undefined` throws a TypeError,
   * which is `None` here; a missing property of any other value reads as `undefined`.
   * Properties built into primitives (such as a string's `length`) are not modelled.
   */
  function Get(j: Json, key: string): (r: Option<Json>)
    ensures r.None? <==> j.JNull? || j.JUndefined?
    ensures r.Some? && !j.JObject? ==> r.value == JUndefined
    ensures j.JObject? ==> r == Some(if key in j.fields then j.fields[key] else JUndefined)
  {
    match j
    case JUndefined => None
    case JNull => None
    case JObject(m) => Some(if key in m then m[key] else JUndefined)
    case _ => Some(JUndefined)
  }

  /** Property access on a value already known to be readable; a null row reads as `undefined`. */
  function Prop(j: Json, key: string): Json {
    Get(j, key).GetOr(JUndefined)
  }

  /** JavaScript `x || 0`, the client's rule for showing a missing score. */
  function OrZero(j: Json): (r: Json)
    ensures Truthy(j) ==> r == j
    ensures !Truthy(j) ==> r == JNum(0)
  {
    Or(j, JNum(0))
  }

  /** JavaScript `x > 0` for the values the client compares; only numbers are modelled as comparable. */
  predicate Positive(j: Json) {
    j.JNum? && j.n > 0
  }
}
