/** The JavaScript values that can appear in a request body, and JavaScript truthiness. */
module Values {
  import opened Wrappers

  /** A primitive value of a parsed request body. Numbers are integers (NaN is not modelled). */
  datatype Value = Str(s: string) | Int(i: int) | Bool(b: bool) | Null

  /** A request body: field name to value. A key that is not in the map reads as `undefined`. */
  type Body = map<string, Value>

  /** `body[key]`: `None` stands for `undefined`. */
  function Lookup(body: Body, key: string): Option<Value> {
    if key in body then Some(body[key]) else None
  }

  /** The falsy values of JavaScript among those modelled: undefined, "", 0, false and null. */
  const Falsy: set<Option<Value>> := {None, Some(Str("")), Some(Int(0)), Some(Bool(false)), Some(Null)}

  /** `!!v` in JavaScript. */
  predicate Truthy(v: Option<Value>)
    ensures Truthy(v) <==> v !in Falsy
  {
    match v
    case None => false
    case Some(Str(s)) => s != ""
    case Some(Int(i)) => i != 0
    case Some(Bool(b)) => b
    case Some(Null) => false
  }

  /** Truthiness of a string-or-null result, such as an access token (`null` is `None`). */
  predicate TruthyString(t: Option<string>)
    ensures TruthyString(t) <==> Truthy(if t.Some? then Some(Str(t.value)) else Some(Null))
  {
    t.Some? && t.value != ""
  }
}
