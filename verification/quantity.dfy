/**
 The quantity buttons shared by the cart page and the product page: "-"
 asks for `Math.max(1, q - 1)` and "+" for `q + 1`.
 */
module Quantity {

  /** `Math.max(1, q - 1)`: one less, but never below 1. */
  function StepDown(q: int): (r: int)
    ensures r >= 1
    ensures q > 1 ==> r == q - 1
    ensures q <= 1 ==> r == 1
  {
    if q - 1 > 1 then q - 1 else 1
  }

  /** `q + 1`. */
  function StepUp(q: int): (r: int)
    ensures r - q == 1
  {
    q + 1
  }

  /** "+" then "-" returns to where it started from any quantity of at least
      1, and "-" then "+" does so from any quantity above 1. */
  lemma StepsUndo(q: int)
    ensures q >= 1 ==> StepDown(StepUp(q)) == q
    ensures q > 1 ==> StepUp(StepDown(q)) == q
  {
  }
}
