/**
 * The two JavaScript coercions the bridge relies on: truthiness of an
 * optional request or configuration value, and the `a || b` defaulting idiom.
 * A text value is falsy when absent or empty; a number is falsy when absent
 * or zero.
 */
module Js {
  import opened Wrappers

  predicate TruthyText(v: Option<string>)
  {
    v.Some? && v.value != ""
  }

  predicate TruthyNumber(v: Option<int>)
  {
    v.Some? && v.value != 0
  }

  /** `a || b` on optional text: the first operand when truthy, else the second. */
  function TextOr(a: Option<string>, b: Option<string>): (r: Option<string>)
    ensures TruthyText(r) <==> TruthyText(a) || TruthyText(b)
    ensures TruthyText(a) ==> r == a
    ensures !TruthyText(a) ==> r == b
  {
    if TruthyText(a) then a else b
  }

  /** `a || fallback` on an optional number. */
  function NumberOr(a: Option<int>, fallback: int): (r: int)
    ensures TruthyNumber(a) ==> r == a.value
    ensures !TruthyNumber(a) ==> r == fallback
  {
    if TruthyNumber(a) then a.value else fallback
  }

  /** `a || fallback` on optional text with a text fallback. */
  function TextOrDefault(a: Option<string>, fallback: string): (r: string)
    ensures TruthyText(a) ==> r == a.value
    ensures !TruthyText(a) ==> r == fallback
  {
    if TruthyText(a) then a.value else fallback
  }
}
