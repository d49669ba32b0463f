/** The part of JavaScript that the cache relies on: JSON values and their
    truthiness, the JSON codec of the runtime, completions of calls, and the
    dynamically typed values handed to `caching`. */
module Js {
  import opened Wrappers

  /** A JSON value: what `JSON.parse` produces and `JSON.stringify` consumes.
      Object members keep their order, as `JSON.stringify` does. */
  datatype Json =
    | Null
    | Bool(b: bool)
    | Num(n: int)
    | Str(s: string)
    | Arr(items: seq<Json>)
    | Obj(members: seq<(string, Json)>)

  /** JavaScript truthiness: `null`, `false`, `0` and `""` are falsy, every
      other JSON value (including `[]` and `{}`) is truthy. */
  predicate Truthy(j: Json) {
    match j
    case Null => false
    case Bool(b) => b
    case Num(n) => n != 0
    case Str(s) => s != ""
    case Arr(_) => true
    case Obj(_) => true
  }

  /** A value `get` can resolve to: `undefined`, or a JSON value. */
  datatype Value = Undefined | Defined(json: Json)

  /** `if (v)` on a value `get` resolved to. */
  predicate TruthyValue(v: Value) {
    v.Defined? && Truthy(v.json)
  }

  /** The runtime's `JSON.stringify` and `JSON.parse`; `parse` yields None
      where `JSON.parse` throws a SyntaxError. */
  datatype Codec = Codec(stringify: Json -> string, parse: string -> Option<Json>)

  /** What the real JSON functions guarantee of `v`: its text is not empty and
      parses back to `v`. Lemmas that need it take it as a hypothesis. */
  predicate RoundTrips(c: Codec, v: Json) {
    c.stringify(v) != "" && c.parse(c.stringify(v)) == Some(v)
  }

  /** How a JavaScript call ends: it returns (or its promise resolves) with a
      value, or it throws (or its promise rejects) with an error. */
  datatype Completion = Return(value: Json) | Throw(error: Json)

  /** A JavaScript function, applied to its positional arguments. */
  type JsFunction = seq<Json> -> Completion

  /** An argument of unknown type: `undefined`, a function, or a data value. */
  datatype Dyn = Undef | Fn(call: JsFunction) | Data(json: Json)

  /** lodash `isFunction`. */
  predicate IsFunction(d: Dyn) {
    d.Fn?
  }

  /** lodash `isNumber` (on integers; see README). */
  predicate IsNumber(d: Dyn) {
    d.Data? && d.json.Num?
  }
}
