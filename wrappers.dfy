/** Optional values, used wherever the source has an attribute that may be absent. */
module Wrappers {
  datatype Option<+T> = None | Some(value: T) {
    /** The value, or `default` when there is none (the `x ?? default` of the source). */
    function GetOr(default: T): T {
      if Some? then value else default
    }
  }

  /**
   * A string attribute that JavaScript treats as present: defined and not the
   * empty string (the empty string is falsy, so `!s` rejects it too).
   */
  predicate Present(s: Option<string>) {
    s.Some? && s.value != ""
  }

  /** `s || fallback` on an optional string. */
  function OrElse(s: Option<string>, fallback: string): (r: string)
    ensures Present(s) ==> r == s.value
    ensures !Present(s) ==> r == fallback
  {
    if Present(s) then s.value else fallback
  }
}
