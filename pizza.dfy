/** A pizza is a base product of some size, or a topping wrapped around
    another pizza. Every pizza answers price, description, name, size and
    base price; a wrap copies name, size and base price from what it wraps. */
module Pizzas {
  import opened Sizes

  datatype Pizza =
    | Base(name: string, size: Size, basePrice: int)
    | Wrap(inner: Pizza, toppingName: string, toppingPrice: int)

  /** The innermost base product of a chain. */
  function UnwrapToBase(p: Pizza): (b: Pizza)
    ensures b.Base?
  {
    match p
    case Base(_, _, _) => p
    case Wrap(inner, _, _) => UnwrapToBase(inner)
  }

  /** `getPrice()`: base price plus size modifier, plus each topping on the way
      out; never negative when no price in the chain is. */
  function Price(p: Pizza): (r: int)
    ensures NonNegativePrices(p) ==> r >= 0
  {
    match p
    case Base(_, size, basePrice) => basePrice + PriceModifier(size)
    case Wrap(inner, _, toppingPrice) => Price(inner) + toppingPrice
  }

  /** `getDescription()`: "name (Size)", then " + topping" per wrap; so every
      description starts with the name and size of the pizza. */
  function Description(p: Pizza): (r: string)
    ensures Name(p) + " (" + DisplayName(SizeOf(p)) + ")" <= r
  {
    match p
    case Base(name, size, _) => name + " (" + DisplayName(size) + ")"
    case Wrap(inner, toppingName, _) =>
      var d := Description(inner);
      assert d <= d + " + " + toppingName;
      d + " + " + toppingName
  }

  /** `getName()`: a wrap was constructed with its inner pizza's name, so every
      pizza answers the name of its base product. */
  function Name(p: Pizza): (r: string)
    ensures r == UnwrapToBase(p).name
  {
    match p
    case Base(name, _, _) => name
    case Wrap(inner, _, _) => Name(inner)
  }

  /** `getSize()`: the size of the base product. */
  function SizeOf(p: Pizza): (r: Size)
    ensures r == UnwrapToBase(p).size
  {
    match p
    case Base(_, size, _) => size
    case Wrap(inner, _, _) => SizeOf(inner)
  }

  /** `getBasePrice()`: the base price of the base product. */
  function BasePrice(p: Pizza): (r: int)
    ensures r == UnwrapToBase(p).basePrice
  {
    match p
    case Base(_, _, basePrice) => basePrice
    case Wrap(inner, _, _) => BasePrice(inner)
  }

  /** Every base and topping price in the chain is non-negative, as in the catalog. */
  predicate NonNegativePrices(p: Pizza)
  {
    match p
    case Base(_, _, basePrice) => basePrice >= 0
    case Wrap(inner, _, toppingPrice) => toppingPrice >= 0 && NonNegativePrices(inner)
  }

  /** The base product's accessors give back the constructor arguments, its
      price is at least its base price, and its description starts with its name. */
  lemma BaseProduct(name: string, size: Size, basePrice: int)
    ensures var p := Base(name, size, basePrice);
      && Name(p) == name && SizeOf(p) == size && BasePrice(p) == basePrice
      && Price(p) == basePrice + PriceModifier(size)
      && Price(p) >= basePrice
      && (basePrice >= 0 ==> Price(p) >= 0)
      && Description(p) == name + " (" + DisplayName(size) + ")"
      && name <= Description(p)
  {
  }

  /** Price never drops below base price plus size modifier when toppings are non-negative. */
  lemma {:induction false} PriceLowerBound(p: Pizza)
    requires NonNegativePrices(p)
    ensures Price(p) >= BasePrice(p) + PriceModifier(SizeOf(p)) >= 0
  {
    if p.Wrap? {
      PriceLowerBound(p.inner);
    }
  }

  /** Every description begins with the pizza's name. */
  lemma {:induction false} DescriptionStartsWithName(p: Pizza)
    ensures Name(p) <= Description(p)
  {
    match p
    case Base(_, _, _) =>
    case Wrap(inner, t, _) =>
      DescriptionStartsWithName(inner);
      assert Description(p) == Description(inner) + (" + " + t);
  }
}
