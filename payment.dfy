/** The three payment methods of the point of sale, by name. Cash is the
    cart's default. */
module Payments {

  datatype PaymentMethod = Cash | Card | EWallet

  /** `getName()`. */
  function Name(m: PaymentMethod): (r: string)
    ensures r == "Cash" <==> m == Cash
    ensures r == "Card" <==> m == Card
    ensures r == "E-Wallet" <==> m == EWallet
  {
    match m
    case Cash => "Cash"
    case Card => "Card"
    case EWallet => "E-Wallet"
  }

  /** The three names as declared, and no two methods share one. */
  lemma NamesDistinct(a: PaymentMethod, b: PaymentMethod)
    ensures Name(Cash) == "Cash" && Name(Card) == "Card" && Name(EWallet) == "E-Wallet"
    ensures Name(a) == Name(b) <==> a == b
  {
  }
}
