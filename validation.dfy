/**
  The numeric checks applied to a transaction's quantity, price per unit and
  fees before it is stored (src/crud.py, `_validate_and_convert_transaction_data`).
 */
module Validation {
  import opened Wrappers

  /** Quantities at or below this are treated as zero. */
  const ZERO_TOLERANCE: real := 0.000000001

  /** A raw input after conversion to a decimal: a number, or text no decimal can be read from. */
  datatype DecimalInput = Number(value: real) | NotANumber

  /** The three validated amounts, in the order the validator returns them. */
  datatype Amounts = Amounts(quantity: real, pricePerUnit: real, fees: real)

  /** Why a set of amounts was refused. */
  datatype ValidationError =
    | InvalidNumber        // one of the three is not a decimal at all
    | NonPositiveQuantity  // quantity <= ZERO_TOLERANCE
    | NegativePrice        // price per unit < 0
    | NegativeFees         // fees < 0

  /** The amounts are acceptable: a positive quantity, a price and fees that are not negative. */
  predicate Acceptable(quantity: real, pricePerUnit: real, fees: real) {
    quantity > ZERO_TOLERANCE && pricePerUnit >= 0.0 && fees >= 0.0
  }

  /**
    Converts all three inputs first (any unreadable one is an `InvalidNumber`),
    then checks quantity, price and fees in that order; on success the three
    values come back unchanged.
   */
  function ValidateTransactionData(quantity: DecimalInput, pricePerUnit: DecimalInput, fees: DecimalInput)
    : (r: Result<Amounts, ValidationError>)
    ensures r.Ok? <==>
      quantity.Number? && pricePerUnit.Number? && fees.Number?
      && Acceptable(quantity.value, pricePerUnit.value, fees.value)
    ensures r.Ok? ==> r.value == Amounts(quantity.value, pricePerUnit.value, fees.value)
    ensures r == Err(InvalidNumber) <==> !(quantity.Number? && pricePerUnit.Number? && fees.Number?)
    ensures r == Err(NonPositiveQuantity) <==>
      quantity.Number? && pricePerUnit.Number? && fees.Number? && quantity.value <= ZERO_TOLERANCE
    ensures r == Err(NegativePrice) <==>
      quantity.Number? && pricePerUnit.Number? && fees.Number?
      && quantity.value > ZERO_TOLERANCE && pricePerUnit.value < 0.0
    ensures r == Err(NegativeFees) <==>
      quantity.Number? && pricePerUnit.Number? && fees.Number?
      && quantity.value > ZERO_TOLERANCE && pricePerUnit.value >= 0.0 && fees.value < 0.0
  {
    if !(quantity.Number? && pricePerUnit.Number? && fees.Number?) then Err(InvalidNumber)
    else if quantity.value <= ZERO_TOLERANCE then Err(NonPositiveQuantity)
    else if pricePerUnit.value < 0.0 then Err(NegativePrice)
    else if fees.value < 0.0 then Err(NegativeFees)
    else Ok(Amounts(quantity.value, pricePerUnit.value, fees.value))
  }

  /** Validation is idempotent: validated amounts pass validation again, unchanged. */
  lemma ValidatedAmountsRevalidate(quantity: DecimalInput, pricePerUnit: DecimalInput, fees: DecimalInput)
    requires ValidateTransactionData(quantity, pricePerUnit, fees).Ok?
    ensures var a := ValidateTransactionData(quantity, pricePerUnit, fees).value;
      ValidateTransactionData(Number(a.quantity), Number(a.pricePerUnit), Number(a.fees)) == Ok(a)
  {
  }
}
