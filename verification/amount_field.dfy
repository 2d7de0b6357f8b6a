/**
 * The value of an amount field as the payment screens read it with
 * `!amount` and `Number(amount)`. A number input yields the empty string or
 * the text of a number; `Malformed` is any other non-empty text, for which
 * `Number` gives NaN and every comparison is false.
 */
module AmountField {
  datatype Amount = Blank | Malformed | Entered(value: real)

  /** `Number(amount) < x` ("" reads as 0). */
  predicate NumberBelow(a: Amount, x: real)
  {
    match a
    case Blank => 0.0 < x
    case Malformed => false
    case Entered(v) => v < x
  }

  /** `Number(amount) <= x` ("" reads as 0). */
  predicate NumberAtMost(a: Amount, x: real)
  {
    match a
    case Blank => 0.0 <= x
    case Malformed => false
    case Entered(v) => v <= x
  }

  /** `isNaN(amount)`: the empty string reads as 0, so only malformed
      text is NaN. */
  predicate IsNaN(a: Amount)
  {
    a.Malformed?
  }
}
