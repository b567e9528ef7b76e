/** JavaScript's truthiness on values that are either a string or
    `undefined`, and the `||` default it drives. */
module Js {
  import opened Wrappers

  /** A string value is truthy when it is defined and not empty. */
  predicate Truthy(o: Option<string>)
  {
    o.Some? && o.value != ""
  }

  /** `o || fallback` for a string fallback: the value when it is truthy,
      the fallback otherwise (an empty string falls through like `undefined`). */
  function Or(o: Option<string>, fallback: string): (r: string)
    ensures Truthy(o) ==> r == o.value
    ensures !Truthy(o) ==> r == fallback
    ensures r == "" ==> !Truthy(o) && fallback == ""
  {
    if Truthy(o) then o.value else fallback
  }
}
