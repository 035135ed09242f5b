/** The two shipping fee strategies (VND): standard shipping is free from
    a subtotal of 200 000 on and costs 20 000 below it; express shipping
    costs a flat 40 000. */
module Shipping {

  datatype ShippingStrategy = Standard | Express

  const FreeShippingThreshold: int := 200_000
  const StandardFee: int := 20_000
  const ExpressFee: int := 40_000

  /** `calculateFee(subtotal)`. */
  function CalculateFee(s: ShippingStrategy, subtotal: int): (fee: int)
    ensures s.Standard? ==> (fee == 0 <==> subtotal >= 200_000)
    ensures s.Standard? ==> (fee == 20_000 <==> subtotal < 200_000)
    ensures s.Express? ==> fee == 40_000
    ensures 0 <= fee <= 40_000
  {
    match s
    case Standard => if subtotal >= FreeShippingThreshold then 0 else StandardFee
    case Express => ExpressFee
  }

  /** `getName()`. */
  function Name(s: ShippingStrategy): (r: string)
    ensures r == "Standard Shipping" <==> s == Standard
    ensures r == "Express Shipping" <==> s == Express
  {
    match s
    case Standard => "Standard Shipping"
    case Express => "Express Shipping"
  }

  /** `toString()`: the name followed by a short explanation of the fee. */
  function ToString(s: ShippingStrategy): (r: string)
    ensures Name(s) <= r
    ensures s.Express? ==> r == "Express Shipping (Flat 40k)"
    ensures s.Standard? ==> r == "Standard Shipping (Free if \U{2265}200k, otherwise 20k)"
  {
    match s
    case Standard => Name(s) + " (Free if \U{2265}200k, otherwise 20k)"
    case Express => Name(s) + " (Flat 40k)"
  }

  /** The standard fee only takes the values 0 and 20 000. */
  lemma StandardFeeValues(subtotal: int)
    ensures CalculateFee(Standard, subtotal) == 0 || CalculateFee(Standard, subtotal) == 20_000
  {
  }

  /** A larger subtotal never costs more shipping. */
  lemma FeeNonIncreasing(s: ShippingStrategy, a: int, b: int)
    requires a <= b
    ensures CalculateFee(s, b) <= CalculateFee(s, a)
  {
  }

  /** The standard fee around the threshold: 200 000 ships free, 199 999 and 100 000 do not. */
  lemma StandardBoundaries()
    ensures CalculateFee(Standard, 200_000) == 0
    ensures CalculateFee(Standard, 199_999) == 20_000
    ensures CalculateFee(Standard, 100_000) == 20_000
  {
  }

  /** The express fee does not depend on the subtotal. */
  lemma ExpressIndependentOfSubtotal(a: int, b: int)
    ensures CalculateFee(Express, a) == CalculateFee(Express, b) == 40_000
  {
  }

  lemma Names()
    ensures Name(Standard) == "Standard Shipping"
    ensures Name(Express) == "Express Shipping"
    ensures Name(Standard) != Name(Express)
  {
  }
}
