/**
 * Values shared by the whole model: optional values, the JavaScript notion of
 * "truthy" for the request fields the handlers test with `!x`, and the
 * opaque timestamps that `new Date().toISOString()` produces.
 */
module Base {

  datatype Option<T> = None | Some(value: T)

  /** An ISO date string; the model never looks inside one. */
  type Timestamp = string

  /** `!!x` for a string field of a JSON body: absent, null and "" are falsy. */
  predicate TruthyStr(o: Option<string>) {
    o.Some? && o.value != ""
  }

  /** `!!x` for a numeric field of a JSON body: absent, null and 0 are falsy. */
  predicate TruthyInt(o: Option<int>) {
    o.Some? && o.value != 0
  }

  /** `x || null` for an optional string: the empty string becomes null. */
  function OrNull(o: Option<string>): (r: Option<string>)
    ensures r.Some? <==> TruthyStr(o)
    ensures r.Some? ==> r == o
  {
    if TruthyStr(o) then o else None
  }

  /** `x || fallback` for an optional string. */
  function OrElse(o: Option<string>, fallback: string): (r: string)
    ensures TruthyStr(o) ==> r == o.value
    ensures !TruthyStr(o) ==> r == fallback
  {
    if TruthyStr(o) then o.value else fallback
  }
}
