/**
 * The JavaScript values that reach the handlers from request bodies and
 * query strings, and JavaScript's notion of truthiness on them, which the
 * handlers use for every "if provided" test.
 */
module JsValues {
  import opened Wrappers

  /** A JSON body field as Express hands it over (`Absent` is `undefined`). */
  datatype JsonValue =
    | Absent
    | Null
    | Bool(b: bool)
    | Number(n: int)
    | Text(s: string)
    | Compound  // an object or an array; always truthy

  /** `if (v)` in JavaScript. */
  predicate Truthy(v: JsonValue) {
    match v
    case Absent => false
    case Null => false
    case Bool(b) => b
    case Number(n) => n != 0
    case Text(s) => s != ""
    case Compound => true
  }

  /** `if (v)` on an optional string field: present and not the empty string. */
  predicate Given(v: Option<string>) {
    v.Some? && v.value != ""
  }
}
