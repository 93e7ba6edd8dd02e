/** Optional values, as JavaScript's `undefined`/`null` appear in the client. */
module Options {

  datatype Option<+T> = None | Some(value: T)

  /**
   * `s || fallback` for a value that is a string or missing: a missing or
   * empty string is falsy and gives the fallback. Used for the messages
   * `e.response?.data?.message || "..."`.
   */
  function OrFallback(s: Option<string>, fallback: string): (r: string)
    ensures s.Some? && s.value != "" ==> r == s.value
    ensures s.None? || s.value == "" ==> r == fallback
    ensures fallback != "" ==> r != ""
  {
    if s.Some? && s.value != "" then s.value else fallback
  }
}
