/** Optional values and the JavaScript truthiness rules the two components branch on. */
module JsValues {

  /** A prop or field that may be `undefined`. */
  datatype Option<+T> = None | Some(value: T)

  /** `s && …` for an optional string: `undefined` and `""` are falsy, every other string is truthy. */
  predicate TruthyString(s: Option<string>) {
    s.Some? && s.value != ""
  }

  /** `b && …` for an optional boolean: only `true` is truthy. */
  predicate TruthyBool(b: Option<bool>) {
    b == Some(true)
  }
}
