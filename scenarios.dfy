/** The worked examples of the unit tests, and one order priced by hand, as facts about
    the model. The descriptions use the cheese topping's actual name. */
module Scenarios {
  import opened Sizes
  import opened Pizzas
  import opened Catalog
  import opened Decorators
  import opened Factory
  import opened Wrappers
  import opened Pricing
  import JavaText
  import Shipping

  /** Margherita M from the factory costs 75 000. */
  lemma MargheritaMediumFromFactory()
    ensures Create(Some("Margherita"), Some(M)) == Ok(Margherita(M))
    ensures Price(Margherita(M)) == 75_000
  {
    AvailableTypesCreate(M);
    MargheritaPrices();
  }

  /** Margherita M with cheese costs 85 000. */
  lemma MargheritaWithCheese()
    ensures Price(Cheese(Margherita(M))) == 85_000
    ensures Description(Cheese(Margherita(M))) == "Margherita (Medium)" + " + Ph\U{221A}\U{A5} Mai"
  {
    MargheritaPrices();
    MargheritaDescription();
  }

  /** Hawaiian S with bacon and mushroom costs 103 000. */
  lemma HawaiianSmallBaconMushroom()
    ensures Price(Mushroom(Bacon(Hawaiian(S)))) == 103_000
  {
    HawaiianPrices();
  }

  /** Pepperoni L with every topping costs 153 000. */
  lemma PepperoniLargeAllToppings()
    ensures Price(Mushroom(Bacon(Cheese(Pepperoni(L))))) == 153_000
  {
    PepperoniPrices();
  }

  /** Its description names the pizza and each topping in the order applied. */
  lemma PepperoniLargeAllToppingsDescription()
    ensures Description(Mushroom(Bacon(Cheese(Pepperoni(L)))))
      == "Pizza Pepperoni (Large)" + " + Ph\U{221A}\U{A5} Mai" + " + Bacon" + " + Mushroom"
  {
    PepperoniDescription();
  }

  /** Cheese then bacon on a plain base are listed in that order. */
  lemma TwoToppingsList(b: Pizza)
    requires b.Base?
    ensures GetToppings(Bacon(Cheese(b))) == CheeseName + ", " + BaconName
  {
    assert ToppingNames(Bacon(Cheese(b))) == [CheeseName] + [BaconName];
    JavaText.JoinSnoc([CheeseName], BaconName, ", ");
  }

  /** Cheese, bacon and mushroom on a plain base are listed in that order. */
  lemma ThreeToppingsList(b: Pizza)
    requires b.Base?
    ensures GetToppings(Mushroom(Bacon(Cheese(b)))) == CheeseName + ", " + BaconName + ", " + MushroomName
  {
    TwoToppingsList(b);
    assert ToppingNames(Mushroom(Bacon(Cheese(b)))) == ([CheeseName] + [BaconName]) + [MushroomName];
    JavaText.JoinSnoc([CheeseName] + [BaconName], MushroomName, ", ");
  }

  /** The topping list of Pepperoni L with every topping. */
  lemma PepperoniLargeAllToppingsList()
    ensures GetToppings(Mushroom(Bacon(Cheese(Pepperoni(L))))) == "Ph\U{221A}\U{A5} Mai" + ", " + "Bacon" + ", " + "Mushroom"
  {
    ThreeToppingsList(Pepperoni(L));
  }

  /** The topping list of Margherita M with cheese then bacon. */
  lemma MargheritaToppingsList()
    ensures GetToppings(Bacon(Cheese(Margherita(M)))) == "Ph\U{221A}\U{A5} Mai" + ", " + "Bacon"
  {
    TwoToppingsList(Margherita(M));
  }

  /** The same three toppings in opposite orders cost the same. */
  lemma ChainingOrder()
    ensures Price(Cheese(Bacon(Mushroom(Margherita(S))))) == Price(Mushroom(Bacon(Cheese(Margherita(S)))))
  {
  }

  /** Decorating Hawaiian M leaves it as it was and costs more. */
  lemma DecoratingPreservesOriginal()
    ensures WrappedPizza(Cheese(Hawaiian(M))) == Hawaiian(M)
    ensures Price(Cheese(Hawaiian(M))) > Price(Hawaiian(M)) == 95_000
  {
    HawaiianPrices();
  }

  /** Calculator subtotals of the unit tests. */
  lemma SubtotalExamples()
    ensures Subtotal([Margherita(M)]) == 75_000
    ensures Subtotal([Bacon(Cheese(Pepperoni(L)))]) == 145_000
    ensures Subtotal([Margherita(S), Mushroom(Hawaiian(M))]) == 163_000
  {
    MargheritaPrices();
    PepperoniPrices();
    HawaiianPrices();
    SubtotalSnoc([], Margherita(M));
    SubtotalSnoc([], Bacon(Cheese(Pepperoni(L))));
    SubtotalSnoc([], Margherita(S));
    SubtotalSnoc([Margherita(S)], Mushroom(Hawaiian(M)));
  }

  /** Totals with shipping that the unit tests expect. */
  lemma TotalExamples()
    ensures Total([Margherita(M)], Shipping.Standard) == 95_000
    ensures Total([Pepperoni(L), Hawaiian(L)], Shipping.Standard) == 230_000
    ensures Total([Margherita(M)], Shipping.Express) == 115_000
    ensures CalculateShipping(100_000, Shipping.Standard) == 20_000
    ensures CalculateShipping(200_000, Shipping.Standard) == 0
    ensures CalculateShipping(100_000, Shipping.Express) == 40_000
  {
    MargheritaPrices();
    PepperoniPrices();
    HawaiianPrices();
    SubtotalSnoc([], Margherita(M));
    SubtotalSnoc([], Pepperoni(L));
    SubtotalSnoc([Pepperoni(L)], Hawaiian(L));
  }

  /** An order of Margherita M with cheese and Pepperoni L with bacon and
      mushroom: 228 000, shipped free; without its first item 143 000,
      which pays the 20 000 standard fee. */
  lemma OrderExample()
    ensures Subtotal([Cheese(Margherita(M)), Mushroom(Bacon(Pepperoni(L)))]) == 228_000
    ensures Total([Cheese(Margherita(M)), Mushroom(Bacon(Pepperoni(L)))], Shipping.Standard) == 228_000
    ensures Total([Mushroom(Bacon(Pepperoni(L)))], Shipping.Standard) == 163_000
  {
    MargheritaPrices();
    PepperoniPrices();
    SubtotalSnoc([], Cheese(Margherita(M)));
    SubtotalSnoc([Cheese(Margherita(M))], Mushroom(Bacon(Pepperoni(L))));
    SubtotalSnoc([], Mushroom(Bacon(Pepperoni(L))));
  }
}
