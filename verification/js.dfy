/** JSON values as request bodies carry them, and JavaScript's truthiness
    test, which the source uses for every "is this field given" check. */
module Js {
  import opened Wrappers

  datatype Json =
    | JNull
    | JBool(b: bool)
    | JNum(n: real)
    | JStr(s: string)
    | JArr(items: seq<Json>)
    | JObj(fields: seq<(string, Json)>)

  /** `if (v)`: null, false, 0 and "" are falsy; every array and object,
      even an empty one, is truthy. */
  predicate Truthy(v: Json) {
    match v
    case JNull => false
    case JBool(b) => b
    case JNum(n) => n != 0.0
    case JStr(s) => s != ""
    case JArr(_) => true
    case JObj(_) => true
  }

  /** A body field, where `None` is `undefined`. */
  predicate Given(v: Option<Json>) {
    v.Some? && Truthy(v.value)
  }

  /** A string-typed field or setting, where `None` is `undefined`/`null`. */
  predicate GivenText(s: Option<string>) {
    s.Some? && s.value != ""
  }

  /** `s || fallback` for an optional string. */
  function TextOr(s: Option<string>, fallback: string): (r: string)
    ensures GivenText(s) ==> r == s.value
    ensures !GivenText(s) ==> r == fallback
  {
    if GivenText(s) then s.value else fallback
  }
}
