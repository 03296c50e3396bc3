/** Values shared by the page models: optional values and JavaScript's `||` on strings. */
module Common {

  /** A value that may be absent (`null` / `undefined` in the views). */
  datatype Option<T> = None | Some(value: T)

  /** A JavaScript string value is truthy exactly when it is present and not empty. */
  predicate Truthy(m: Option<string>) {
    m.Some? && m.value != ""
  }

  /**
   * `m || fallback` for a value that is a string or undefined: the value when it is
   * truthy, otherwise the fallback. The empty string counts as absent.
   */
  function OrElse(m: Option<string>, fallback: string): (r: string)
    ensures Truthy(m) ==> r == m.value
    ensures !Truthy(m) ==> r == fallback
    ensures r == "" ==> fallback == ""
  {
    if Truthy(m) then m.value else fallback
  }
}
