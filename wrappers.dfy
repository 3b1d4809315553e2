/** Small failure-compatible wrappers shared by the model. */
module Wrappers {

  datatype Option<+T> = None | Some(value: T) {
    predicate IsFailure() { None? }

    function PropagateFailure<U>(): Option<U>
      requires None?
    {
      None
    }

    function Extract(): T
      requires Some?
    {
      value
    }
  }

  datatype Result<+T, +E> = Ok(value: T) | Err(error: E)
}

/** The handful of JavaScript value rules the source relies on. */
module JsValues {
  import opened Wrappers

  /** A `string | null` is truthy iff it is present and non-empty. */
  predicate Truthy(s: Option<string>)
  {
    s.Some? && s.value != ""
  }

  /** `s || fallback` for a `string | null | undefined` operand. */
  function Or(s: Option<string>, fallback: string): (r: string)
    ensures Truthy(s) ==> r == s.value
    ensures !Truthy(s) ==> r == fallback
  {
    if Truthy(s) then s.value else fallback
  }

  /** `Boolean.prototype.toString`. */
  function BoolToString(b: bool): (r: string)
    ensures r == "true" <==> b
  {
    if b then "true" else "false"
  }
}
