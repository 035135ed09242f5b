/** Order pricing: the subtotal is the sum of the item prices, each item
    priced with all its toppings. */
module Pricing {
  import opened Pizzas
  import Sums
  import Shipping

  /** `calculateSubtotal(items)`: `items.stream().mapToInt(Pizza::getPrice).sum()`. */
  function Subtotal(items: seq<Pizza>): (r: int)
    ensures items == [] ==> r == 0
  {
    Sums.Sum(items, Price)
  }

  /** Adding an item at the end adds its price. */
  lemma SubtotalSnoc(items: seq<Pizza>, p: Pizza)
    ensures Subtotal(items + [p]) == Subtotal(items) + Price(p)
  {
    Sums.SumAppend(items, [p], Price);
  }

  /** The subtotal of two lists put together is the sum of their subtotals. */
  lemma SubtotalConcat(xs: seq<Pizza>, ys: seq<Pizza>)
    ensures Subtotal(xs + ys) == Subtotal(xs) + Subtotal(ys)
  {
    Sums.SumAppend(xs, ys, Price);
  }

  /** The order of the items does not matter. */
  lemma SubtotalPermutation(xs: seq<Pizza>, ys: seq<Pizza>)
    requires multiset(xs) == multiset(ys)
    ensures Subtotal(xs) == Subtotal(ys)
  {
    Sums.SumPermutation(xs, ys, Price);
  }

  /** Removing the item at index i takes exactly its price off the subtotal. */
  lemma SubtotalRemoveAt(items: seq<Pizza>, i: nat)
    requires i < |items|
    ensures Subtotal(items[..i] + items[i + 1..]) == Subtotal(items) - Price(items[i])
  {
    Sums.SumRemoveAt(items, i, Price);
  }

  /** Replacing the item at index i swaps its price for the new item's. */
  lemma SubtotalReplaceAt(items: seq<Pizza>, i: nat, p: Pizza)
    requires i < |items|
    ensures Subtotal(items[i := p]) == Subtotal(items) - Price(items[i]) + Price(p)
  {
    var updated := items[i := p];
    assert updated[..i] + updated[i + 1..] == items[..i] + items[i + 1..];
    Sums.SumRemoveAt(items, i, Price);
    Sums.SumRemoveAt(updated, i, Price);
  }

  /** With non-negative catalog and topping prices, no item makes the subtotal smaller. */
  lemma {:induction false} SubtotalBounds(items: seq<Pizza>)
    requires forall i :: 0 <= i < |items| ==> NonNegativePrices(items[i])
    ensures Subtotal(items) >= 0
    ensures forall i :: 0 <= i < |items| ==> Price(items[i]) <= Subtotal(items)
  {
    if items != [] {
      PriceLowerBound(items[0]);
      SubtotalBounds(items[1..]);
      forall i | 1 <= i < |items|
        ensures Price(items[i]) <= Subtotal(items)
      {
        assert items[i] == items[1..][i - 1];
      }
    }
  }

  /** Shipping fee for a subtotal. This and Total exist only in the unit
      tests, which call methods the calculator does not declare. */
  function CalculateShipping(subtotal: int, s: Shipping.ShippingStrategy): (fee: int)
    ensures fee == Shipping.CalculateFee(s, subtotal)
  {
    Shipping.CalculateFee(s, subtotal)
  }

  /** Subtotal plus the shipping fee for that subtotal, as the unit tests expect it. */
  function Total(items: seq<Pizza>, s: Shipping.ShippingStrategy): (r: int)
    ensures r - Subtotal(items) == Shipping.CalculateFee(s, Subtotal(items))
    ensures s.Standard? && Subtotal(items) >= 200_000 ==> r == Subtotal(items)
    ensures s.Standard? && Subtotal(items) < 200_000 ==> r == Subtotal(items) + 20_000
    ensures s.Express? ==> r == Subtotal(items) + 40_000
  {
    Subtotal(items) + CalculateShipping(Subtotal(items), s)
  }

  /** With standard shipping an order with the smaller subtotal can have a
      larger total only by the 20 000 fee, and not at all once it ships free. */
  lemma StandardTotalAlmostMonotone(xs: seq<Pizza>, ys: seq<Pizza>)
    requires Subtotal(xs) <= Subtotal(ys)
    ensures Total(xs, Shipping.Standard) <= Total(ys, Shipping.Standard) + 20_000
    ensures Subtotal(xs) >= 200_000 ==> Total(xs, Shipping.Standard) <= Total(ys, Shipping.Standard)
  {
  }
}
