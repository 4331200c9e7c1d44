/** Optional values: a JavaScript `null` / `undefined` field or result. */
module Wrappers {

  datatype Option<+T> = None | Some(value: T) {

    /** `x || fallback` on an optional value that is never falsy when present. */
    function GetOr(fallback: T): T {
      match this
      case Some(v) => v
      case None => fallback
    }
  }

  /** `s || ""` on an optional string: a missing text field reads as the empty string. */
  function OrEmpty(o: Option<string>): (r: string)
    ensures o.None? ==> r == ""
    ensures o.Some? ==> r == o.value
  {
    o.GetOr("")
  }

  /** `s || fallback` on a string: the empty string is falsy in JavaScript. */
  function OrElse(s: string, fallback: string): (r: string)
    ensures s != "" ==> r == s
    ensures s == "" ==> r == fallback
  {
    if s == "" then fallback else s
  }
}
