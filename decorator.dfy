/** Toppings as wrappers around a pizza. Wrapping never changes the inner
    pizza; a wrapped pizza adds the topping's price to the inner price and
    " + name" to the inner description. */
module Decorators {
  import opened Sizes
  import opened Pizzas
  import opened JavaText
  import Sums

  /** One wrap layer, as recorded in the chain: its name and its price. */
  datatype Topping = Topping(name: string, price: int)

  const CheeseName: string := "Ph\U{221A}\U{A5} Mai"
  const CheesePrice: int := 10_000
  const BaconName: string := "Bacon"
  const BaconPrice: int := 15_000
  const MushroomName: string := "Mushroom"
  const MushroomPrice: int := 8_000

  function PriceOfTopping(t: Topping): int
  {
    t.price
  }

  /** The names of a topping sequence, in the same order. */
  function Names(ts: seq<Topping>): (r: seq<string>)
    ensures |r| == |ts|
    ensures forall i :: 0 <= i < |ts| ==> r[i] == ts[i].name
  {
    seq(|ts|, i requires 0 <= i < |ts| => ts[i].name)
  }

  /** The toppings of a chain, innermost (applied first) to outermost. */
  function ToppingsOf(p: Pizza): (r: seq<Topping>)
    ensures |r| == 0 <==> p.Base?
  {
    match p
    case Base(_, _, _) => []
    case Wrap(inner, n, pr) => ToppingsOf(inner) + [Topping(n, pr)]
  }

  function ToppingNames(p: Pizza): seq<string>
  {
    Names(ToppingsOf(p))
  }

  /** `new ToppingDecorator(pizza, toppingName, toppingPrice)`. */
  function Decorate(p: Pizza, toppingName: string, toppingPrice: int): (r: Pizza)
    ensures r.Wrap?
    ensures Price(r) == Price(p) + toppingPrice
    ensures Description(r) == Description(p) + " + " + toppingName
    ensures Name(r) == Name(p) && SizeOf(r) == SizeOf(p) && BasePrice(r) == BasePrice(p)
    ensures UnwrapToBase(r) == UnwrapToBase(p)
    ensures ToppingsOf(r) == ToppingsOf(p) + [Topping(toppingName, toppingPrice)]
  {
    Wrap(p, toppingName, toppingPrice)
  }

  /** `getWrappedPizza()`: one unwrapping step removes exactly the outermost topping. */
  function WrappedPizza(p: Pizza): (r: Pizza)
    requires p.Wrap?
    ensures UnwrapToBase(r) == UnwrapToBase(p)
    ensures ToppingsOf(r) + [Topping(p.toppingName, p.toppingPrice)] == ToppingsOf(p)
    ensures Price(p) == Price(r) + p.toppingPrice
  {
    p.inner
  }

  function Cheese(p: Pizza): (r: Pizza)
    ensures r.Wrap?
    ensures Price(r) == Price(p) + 10_000
    ensures Description(r) == Description(p) + " + Ph\U{221A}\U{A5} Mai"
    ensures WrappedPizza(r) == p
  {
    Decorate(p, CheeseName, CheesePrice)
  }

  function Bacon(p: Pizza): (r: Pizza)
    ensures r.Wrap?
    ensures Price(r) == Price(p) + 15_000
    ensures Description(r) == Description(p) + " + Bacon"
    ensures WrappedPizza(r) == p
  {
    Decorate(p, BaconName, BaconPrice)
  }

  function Mushroom(p: Pizza): (r: Pizza)
    ensures r.Wrap?
    ensures Price(r) == Price(p) + 8_000
    ensures Description(r) == Description(p) + " + Mushroom"
    ensures WrappedPizza(r) == p
  {
    Decorate(p, MushroomName, MushroomPrice)
  }

  /** `getToppings()`: the inner chain's list, ", ", then this topping's name,
      so the names innermost first, exactly as `String.join(", ", ...)` gives them. */
  function GetToppings(p: Pizza): (r: string)
    requires p.Wrap?
    ensures r == Join(ToppingNames(p), ", ")
  {
    var baseToppings := if p.inner.Wrap? then GetToppings(p.inner) + ", " else "";
    var r := baseToppings + p.toppingName;
    assert ToppingNames(p) == ToppingNames(p.inner) + [p.toppingName];
    if p.inner.Wrap? then
      JoinSnoc(ToppingNames(p.inner), p.toppingName, ", ");
      r
    else
      r
  }

  /** Unwrapping loop used wherever the plain base pizza is needed:
      follow `getWrappedPizza()` while the pizza is a decorator. */
  method BasePizza(p: Pizza) returns (b: Pizza)
    ensures b.Base?
    ensures b == UnwrapToBase(p)
  {
    b := p;
    while b.Wrap?
      invariant UnwrapToBase(b) == UnwrapToBase(p)
      decreases b
    {
      b := WrappedPizza(b);
    }
  }

  /** Whatever it wraps, the unwrapped base has the chain's name, size and base price. */
  lemma {:induction false} UnwrapKeepsIdentity(p: Pizza)
    ensures UnwrapToBase(p) == Base(Name(p), SizeOf(p), BasePrice(p))
  {
    if p.Wrap? {
      UnwrapKeepsIdentity(p.inner);
    }
  }

  /** Base price, size modifier and every topping price add up to the top price. */
  lemma {:induction false} PriceDecomposition(p: Pizza)
    ensures Price(p) == BasePrice(p) + PriceModifier(SizeOf(p)) + Sums.Sum(ToppingsOf(p), PriceOfTopping)
    ensures Price(p) == Price(UnwrapToBase(p)) + Sums.Sum(ToppingsOf(p), PriceOfTopping)
  {
    UnwrapKeepsIdentity(p);
    if p.Wrap? {
      PriceDecomposition(p.inner);
      Sums.SumAppend(ToppingsOf(p.inner), [Topping(p.toppingName, p.toppingPrice)], PriceOfTopping);
    }
  }

  /** The description of a chain starts with the description of its base. */
  lemma {:induction false} DescriptionStartsWithBase(p: Pizza)
    ensures Description(UnwrapToBase(p)) <= Description(p)
  {
    if p.Wrap? {
      DescriptionStartsWithBase(p.inner);
      assert Description(p) == Description(p.inner) + (" + " + p.toppingName);
    }
  }

  /** Wrap toppings around p in the given order, first one innermost. */
  function ApplyToppings(p: Pizza, ts: seq<Topping>): Pizza
    decreases |ts|
  {
    if ts == [] then p else ApplyToppings(Decorate(p, ts[0].name, ts[0].price), ts[1..])
  }

  /** Applying toppings keeps the base and appends them to the chain. */
  lemma {:induction false} ApplyToppingsChain(p: Pizza, ts: seq<Topping>)
    ensures UnwrapToBase(ApplyToppings(p, ts)) == UnwrapToBase(p)
    ensures ToppingsOf(ApplyToppings(p, ts)) == ToppingsOf(p) + ts
    decreases |ts|
  {
    if ts != [] {
      var q := Decorate(p, ts[0].name, ts[0].price);
      ApplyToppingsChain(q, ts[1..]);
      assert ToppingsOf(q) + ts[1..] == ToppingsOf(p) + ts;
    }
  }

  /** Applying toppings raises the price by exactly their sum. */
  lemma {:induction false} ApplyToppingsPrice(p: Pizza, ts: seq<Topping>)
    ensures Price(ApplyToppings(p, ts)) == Price(p) + Sums.Sum(ts, PriceOfTopping)
    decreases |ts|
  {
    if ts != [] {
      ApplyToppingsPrice(Decorate(p, ts[0].name, ts[0].price), ts[1..]);
    }
  }

  /** Unwrapping to the base and re-applying the chain's toppings rebuilds the pizza. */
  lemma {:induction false} Recompose(p: Pizza)
    ensures ApplyToppings(UnwrapToBase(p), ToppingsOf(p)) == p
  {
    if p.Wrap? {
      var ts := ToppingsOf(p.inner);
      var t := Topping(p.toppingName, p.toppingPrice);
      Recompose(p.inner);
      ApplyToppingsSnoc(UnwrapToBase(p), ts, t);
    }
  }

  lemma {:induction false} ApplyToppingsSnoc(p: Pizza, ts: seq<Topping>, t: Topping)
    ensures ApplyToppings(p, ts + [t]) == Wrap(ApplyToppings(p, ts), t.name, t.price)
    decreases |ts|
  {
    if ts == [] {
      assert ts + [t] == [t];
    } else {
      assert (ts + [t])[1..] == ts[1..] + [t];
      ApplyToppingsSnoc(Decorate(p, ts[0].name, ts[0].price), ts[1..], t);
    }
  }

  /** Price does not depend on the order the toppings were applied in
      (their description does, see DescriptionIsOrderSensitive). */
  lemma ToppingOrderIrrelevantForPrice(p: Pizza, ts: seq<Topping>, us: seq<Topping>)
    requires multiset(ts) == multiset(us)
    ensures Price(ApplyToppings(p, ts)) == Price(ApplyToppings(p, us))
  {
    ApplyToppingsPrice(p, ts);
    ApplyToppingsPrice(p, us);
    Sums.SumPermutation(ts, us, PriceOfTopping);
  }

  /** Swapping the order of two toppings changes the description text. */
  lemma DescriptionIsOrderSensitive(p: Pizza)
    ensures Description(Mushroom(Bacon(p))) != Description(Bacon(Mushroom(p)))
  {
    var d := Description(p);
    var one := Description(Mushroom(Bacon(p)));
    var two := Description(Bacon(Mushroom(p)));
    assert one == d + " + Bacon" + " + Mushroom";
    assert two == d + " + Mushroom" + " + Bacon";
    assert one[|d| + 3] == 'B';
    assert two[|d| + 3] == 'M';
  }

  /** Wrapping adds to the decorated pizza and leaves the wrapped one as it was;
      a positive topping price makes the wrap strictly dearer. */
  lemma WrappingPreservesInner(p: Pizza, toppingName: string, toppingPrice: int)
    ensures WrappedPizza(Decorate(p, toppingName, toppingPrice)) == p
    ensures toppingPrice > 0 ==> Price(Decorate(p, toppingName, toppingPrice)) > Price(p)
    ensures toppingPrice >= 0 ==> Price(Decorate(p, toppingName, toppingPrice)) >= Price(p)
  {
  }

  /** The three toppings have non-negative prices, so wrapping one around a
      pizza whose prices are non-negative keeps them so. */
  lemma ToppingsKeepNonNegative(p: Pizza)
    requires NonNegativePrices(p)
    ensures NonNegativePrices(Cheese(p)) && NonNegativePrices(Bacon(p)) && NonNegativePrices(Mushroom(p))
  {
  }

  /** Toppings with non-negative prices keep every price in the chain non-negative. */
  lemma {:induction false} ApplyToppingsNonNegative(p: Pizza, ts: seq<Topping>)
    requires NonNegativePrices(p)
    requires forall i :: 0 <= i < |ts| ==> ts[i].price >= 0
    ensures NonNegativePrices(ApplyToppings(p, ts))
    ensures Price(ApplyToppings(p, ts)) >= 0
    decreases |ts|
  {
    if ts != [] {
      ApplyToppingsNonNegative(Decorate(p, ts[0].name, ts[0].price), ts[1..]);
    }
  }

  /** The base of a chain whose prices are non-negative has a non-negative base price. */
  lemma {:induction false} BaseKeepsNonNegative(p: Pizza)
    ensures NonNegativePrices(p) ==> NonNegativePrices(UnwrapToBase(p))
  {
    if p.Wrap? {
      BaseKeepsNonNegative(p.inner);
    }
  }

  /** The chain of toppings selected by three check boxes, in the fixed order
      cheese, bacon, mushroom. */
  function SelectedToppings(addCheese: bool, addBacon: bool, addMushroom: bool): seq<Topping>
  {
    (if addCheese then [Topping(CheeseName, CheesePrice)] else [])
    + (if addBacon then [Topping(BaconName, BaconPrice)] else [])
    + (if addMushroom then [Topping(MushroomName, MushroomPrice)] else [])
  }

  /** Editing an item: unwrap to the base and re-apply the selected toppings. */
  function RebuildFromOriginal(original: Pizza, addCheese: bool, addBacon: bool, addMushroom: bool): (r: Pizza)
    ensures UnwrapToBase(r) == UnwrapToBase(original)
    ensures ToppingsOf(r) == SelectedToppings(addCheese, addBacon, addMushroom)
    ensures Price(r) == Price(UnwrapToBase(original))
      + (if addCheese then 10_000 else 0) + (if addBacon then 15_000 else 0) + (if addMushroom then 8_000 else 0)
    ensures NonNegativePrices(original) ==> NonNegativePrices(r)
  {
    BaseKeepsNonNegative(original);
    var base := UnwrapToBase(original);
    var p1 := if addCheese then Cheese(base) else base;
    var p2 := if addBacon then Bacon(p1) else p1;
    if addMushroom then Mushroom(p2) else p2
  }
}
