# Pizza point of sale: pricing, composition and cart, in Dafny

This project models the domain core of a Java pizza point-of-sale app. It also proves
properties of that model. It covers the following:

- the three sizes and their price modifiers;
- the five catalog pizzas;
- the factory, which turns a type name into a base pizza;
- the topping wrappers (cheese, bacon, mushroom), which add to the price and the description;
- the subtotal of an order and the two shipping fee strategies;
- the cart service, which keeps the ordered items and the payment method;
- the event bus that the cart publishes its updates on.

All amounts are integers in VND.

Modules, one file each:

- `JavaText` (`text.dfy`): the `String` operations that the factory and the topping list use: `toLowerCase`, `replace(" ", "")` and joining with a separator.
- `Sums` (`sums.dfy`): the integer sum that `stream().mapToInt(..).sum()` computes, with append, removal and permutation lemmas.
- `Wrappers` (`wrappers.dfy`): `Option`, for a value that may be null.
- `Sizes`, `Pizzas`, `Catalog`: the size table, the base product with its accessors, and the catalog rows.
- `Decorators`: a pizza is `Base(name, size, basePrice)` or `Wrap(inner, toppingName, toppingPrice)`.
  - Price, description, name, size and base price are recursive functions over this datatype.
  - The module also holds the three toppings, `getToppings`, and the unwrap loop used by the controllers.
- `Factory`: `PizzaFactory.create`. It returns a `Result`, whose two failures carry the two exception messages. It also holds `getAvailableTypes`.
- `ItemEdit`: the edit dialog's save action. It re-creates an item through the factory from its base's name.
- `Shipping`, `Payments`, `Pricing`: the fee strategies, the payment method names, `calculateSubtotal`, and the total with shipping that the unit tests expect.
- `Events`: the class `EventBus`.
  - A map from event names to ordered listener lists, with subscribe, unsubscribe and clear.
  - Publishing is a loop that returns the calls it made, in order.
- `Cart`: the class `CartService`.
  - A `seq` of items and the payment method.
  - A ghost log of the events it has published, and a ghost log of the listener calls that the bus made for them.
  - Each mutator states its new state and how the total changes.
- `Scenarios`: the worked examples of the unit tests, as lemmas about the model.

Where the code and its unit tests disagree, the model follows the code:

- The cheese topping's name in `Cheese.java` is the mis-encoded `"Ph√¥ Mai"`, not "Cheese" or "Extra Cheese". The model uses that string. So the unit tests' expectation that a description or topping list contains "Extra Cheese" does not hold of the code.
- `PriceCalculator` has no `calculateTotal` or `calculateShipping`, although its unit tests call them. `Pricing.Total` and `Pricing.CalculateShipping` are taken from those tests and say so.
- Key lower-casing is modelled on ASCII letters only.
  - The factory's accept/reject decision is the same as Java's. The only non-ASCII character whose Java lower case is ASCII is KELVIN SIGN (to `k`), and no factory key contains `k`.
  - Locale-dependent case mapping is not modelled.

## Model

| member | source | states |
|---|---|---|
| Sizes.DisplayName | src/main/java/com/pizza/domain/pizza/Size.java:20-22 | the display name is one of Small, Medium, Large, and it is Small exactly for the size without surcharge |
| Sizes.PriceModifier | src/main/java/com/pizza/domain/pizza/Size.java:8-10 | every modifier is non-negative, and only S has modifier 0 |
| Sizes.ToString | src/main/java/com/pizza/domain/pizza/Size.java:28-31 | `toString` is the display name for every size |
| Sizes.SizeTable | src/main/java/com/pizza/domain/pizza/Size.java:8-10 | S is Small/0, M is Medium/15 000, L is Large/30 000 |
| Sizes.ModifierStrictlyIncreasing | src/main/java/com/pizza/domain/pizza/Size.java:8-10 | a size earlier in S, M, L has a strictly smaller modifier, and conversely |
| Sizes.DisplayNameInjective | src/main/java/com/pizza/domain/pizza/Size.java:8-10 | two sizes have the same display name only if they are the same size |
| Pizzas.UnwrapToBase | src/main/java/com/pizza/ui/controllers/PosController.java:834-840 | following the wrapped pizza all the way ends at a base product |
| Pizzas.Price | src/main/java/com/pizza/domain/pizza/Pizza.java:23-25 | when no base or topping price in the chain is negative, the price is not negative |
| Pizzas.Description | src/main/java/com/pizza/domain/pizza/Pizza.java:31-33 | every description, with or without toppings, starts with "name (Size)" of the pizza |
| Pizzas.Name | src/main/java/com/pizza/domain/pizza/Pizza.java:35-37 | the name of any pizza is the name of its base product |
| Pizzas.SizeOf | src/main/java/com/pizza/domain/pizza/Pizza.java:39-41 | the size of any pizza is the size of its base product |
| Pizzas.BasePrice | src/main/java/com/pizza/domain/pizza/Pizza.java:43-45 | the base price of any pizza is the base price of its base product |
| Pizzas.BaseProduct | src/main/java/com/pizza/domain/pizza/Pizza.java:13-45 | the getters return the constructor arguments; price is base price plus modifier, so at least the base price and non-negative for a non-negative base price; the description is name, " (", display name, ")" and starts with the name |
| Pizzas.PriceLowerBound | src/main/java/com/pizza/domain/pizza/Pizza.java:23-25 | with non-negative prices along the chain, a price is never below base price plus modifier, which is non-negative |
| Pizzas.DescriptionStartsWithName | src/main/java/com/pizza/domain/pizza/Pizza.java:31-33 | every description, with or without toppings, begins with the pizza's name |
| Catalog.Margherita | src/main/java/com/pizza/domain/pizza/Margherita.java:8-12 | an unwrapped "Margherita" of the given size, base price 60 000, price 60 000 plus modifier, description "Margherita (Size)" |
| Catalog.Pepperoni | src/main/java/com/pizza/domain/pizza/Pepperoni.java:8-12 | an unwrapped "Pizza Pepperoni" of the given size, base price 90 000, price and description from them |
| Catalog.Hawaiian | src/main/java/com/pizza/domain/pizza/Hawaiian.java:8-12 | an unwrapped "Hawaiian" of the given size, base price 80 000, price and description from them |
| Catalog.Seafood | src/main/java/com/pizza/domain/pizza/Seafood.java:8-12 | an unwrapped "Pizza Hải Sản" of the given size, base price 120 000, price and description from them |
| Catalog.VeggieSupreme | src/main/java/com/pizza/domain/pizza/VeggieSupreme.java:8-12 | an unwrapped "Pizza Chay Rau Củ" of the given size, base price 70 000, price and description from them |
| Catalog.MargheritaDescription | src/main/java/com/pizza/domain/pizza/Margherita.java:10-12 | Margherita M is described as "Margherita (Medium)" |
| Catalog.MargheritaPrices | src/main/java/com/pizza/domain/pizza/Margherita.java:8-12 | Margherita costs 60 000 / 75 000 / 90 000 at S / M / L |
| Catalog.PepperoniDescription | src/main/java/com/pizza/domain/pizza/Pepperoni.java:10-12 | Pepperoni L is described as "Pizza Pepperoni (Large)" |
| Catalog.PepperoniPrices | src/main/java/com/pizza/domain/pizza/Pepperoni.java:8-12 | Pepperoni costs 90 000 / 105 000 / 120 000 at S / M / L |
| Catalog.HawaiianDescription | src/main/java/com/pizza/domain/pizza/Hawaiian.java:10-12 | Hawaiian M is described as "Hawaiian (Medium)" |
| Catalog.HawaiianPrices | src/main/java/com/pizza/domain/pizza/Hawaiian.java:8-12 | Hawaiian costs 80 000 / 95 000 / 110 000 at S / M / L |
| Catalog.SeafoodPrices | src/main/java/com/pizza/domain/pizza/Seafood.java:8-12 | Seafood costs 120 000 / 135 000 / 150 000 at S / M / L |
| Catalog.VeggieSupremePrices | src/main/java/com/pizza/domain/pizza/VeggieSupreme.java:8-12 | Veggie Supreme costs 70 000 / 85 000 / 100 000 at S / M / L |
| JavaText.ToLower | src/main/java/com/pizza/domain/factory/PizzaFactory.java:35 | lower-casing keeps the length, maps each character on its own, and leaves no upper-case ASCII letter |
| JavaText.RemoveSpaces | src/main/java/com/pizza/domain/factory/PizzaFactory.java:35 | the result has no space, is no longer than the input, and a character occurs in it exactly when it is a non-space character of the input |
| JavaText.RemoveSpacesMultiset | src/main/java/com/pizza/domain/factory/PizzaFactory.java:35 | every non-space character is kept exactly as often as it occurs, and every space goes |
| JavaText.RemoveSpacesAppend | src/main/java/com/pizza/domain/factory/PizzaFactory.java:35 | removing spaces from a concatenation is removing them from each part, so the kept characters stay in order |
| JavaText.LowerRemoveCommute | src/main/java/com/pizza/domain/factory/PizzaFactory.java:35 | lower-casing and removing spaces can be done in either order |
| Decorators.Decorate | src/main/java/com/pizza/domain/decorator/ToppingDecorator.java:19-34 | a wrap costs the inner price plus the topping price; its description is the inner description, " + " and the topping name; name, size and base price are the inner pizza's; the base is the same and the topping list gains this topping at the end |
| Decorators.WrappedPizza | src/main/java/com/pizza/domain/decorator/ToppingDecorator.java:52-54 | one unwrapping step keeps the base, removes exactly the outermost topping and takes off its price |
| Decorators.Cheese | src/main/java/com/pizza/domain/decorator/Cheese.java:10-14 | adds exactly 10 000, appends " + Ph√¥ Mai" to the description, and unwraps to the pizza it wrapped |
| Decorators.Bacon | src/main/java/com/pizza/domain/decorator/Bacon.java:10-14 | adds exactly 15 000, appends " + Bacon", and unwraps to the pizza it wrapped |
| Decorators.Mushroom | src/main/java/com/pizza/domain/decorator/Mushroom.java:10-14 | adds exactly 8 000, appends " + Mushroom", and unwraps to the pizza it wrapped |
| Decorators.GetToppings | src/main/java/com/pizza/domain/decorator/ToppingDecorator.java:40-46 | the topping names from innermost to outermost, separated by ", "; a single wrap gives just its own name |
| Decorators.BasePizza | src/main/java/com/pizza/ui/controllers/PosController.java:834-840 | the unwrap loop terminates, at a base product, the base of the chain it started from |
| Decorators.UnwrapKeepsIdentity | src/main/java/com/pizza/domain/decorator/ToppingDecorator.java:20 | the base of any chain is the base product with the chain's name, size and base price |
| Decorators.PriceDecomposition | src/main/java/com/pizza/domain/decorator/ToppingDecorator.java:27-29 | the price of a chain is base price plus size modifier plus the sum of its topping prices, i.e. the base's price plus the topping sum |
| Decorators.DescriptionStartsWithBase | src/main/java/com/pizza/domain/decorator/ToppingDecorator.java:32-34 | the description of a chain starts with its base's description |
| Decorators.ApplyToppingsChain | src/main/java/com/pizza/domain/decorator/ToppingDecorator.java:19-24 | wrapping a sequence of toppings keeps the base and appends exactly those toppings to the chain |
| Decorators.ApplyToppingsPrice | src/main/java/com/pizza/domain/decorator/ToppingDecorator.java:27-29 | wrapping a sequence of toppings raises the price by exactly their sum |
| Decorators.Recompose | src/main/java/com/pizza/domain/decorator/ToppingDecorator.java:52-54 | unwrapping to the base and re-applying the chain's toppings rebuilds the same pizza |
| Decorators.ToppingOrderIrrelevantForPrice | src/main/java/com/pizza/domain/decorator/ToppingDecorator.java:27-29 | any two orders of the same toppings give the same price |
| Decorators.DescriptionIsOrderSensitive | src/main/java/com/pizza/domain/decorator/ToppingDecorator.java:32-34 | bacon-then-mushroom and mushroom-then-bacon give different descriptions |
| Decorators.WrappingPreservesInner | src/main/java/com/pizza/domain/decorator/ToppingDecorator.java:19-29 | wrapping leaves the inner pizza as it was; a positive topping price makes the wrap strictly dearer, a non-negative one never cheaper |
| Decorators.ToppingsKeepNonNegative | src/main/java/com/pizza/domain/decorator/Cheese.java:10-14 | cheese, bacon and mushroom keep every price of the chain non-negative |
| Decorators.ApplyToppingsNonNegative | src/main/java/com/pizza/domain/decorator/ToppingDecorator.java:19-29 | wrapping toppings with non-negative prices keeps every price of the chain non-negative, so the price is at least 0 |
| Decorators.BaseKeepsNonNegative | src/main/java/com/pizza/domain/decorator/ToppingDecorator.java:52-54 | the base of a chain with non-negative prices has a non-negative base price |
| Decorators.RebuildFromOriginal | src/main/java/com/pizza/ui/controllers/CartController.java:231-248 | the rebuilt pizza has the original's base, exactly the selected toppings in the order cheese, bacon, mushroom, and the base price plus the selected topping prices; non-negative prices stay non-negative |
| Factory.NormalizeKey | src/main/java/com/pizza/domain/factory/PizzaFactory.java:35 | a normalised key has no space and no upper-case ASCII letter |
| Factory.NormalizeSpace | src/main/java/com/pizza/domain/factory/PizzaFactory.java:35 | a space between two words vanishes from the key |
| Factory.Failure.Message | src/main/java/com/pizza/domain/factory/PizzaFactory.java:32 | the null-argument message is "Pizza type and size cannot be null"; an unknown type's message ends with the type exactly as given |
| Factory.MessagesDistinguish | src/main/java/com/pizza/domain/factory/PizzaFactory.java:41 | two failures have the same message exactly when they are the same failure, so the message tells which type was rejected |
| Factory.Create | src/main/java/com/pizza/domain/factory/PizzaFactory.java:30-43 | a null type or size gives the null-argument error, and only then; otherwise success exactly when the key is one of the five; any other key gives the unknown-type error carrying the original type; a success is an unwrapped pizza of the requested size priced base plus modifier |
| Factory.NormalizeIgnoresCaseAndSpaces | src/main/java/com/pizza/domain/factory/PizzaFactory.java:35 | lower-casing or removing spaces first, or normalising twice, gives the same key |
| Factory.CreateDependsOnlyOnKey | src/main/java/com/pizza/domain/factory/PizzaFactory.java:35-42 | two spellings with the same key both succeed with the same pizza or both fail |
| Factory.CreateDispatch | src/main/java/com/pizza/domain/factory/PizzaFactory.java:36-40 | each of the five keys creates its own catalog pizza at the requested size |
| Factory.VeggieSupremeSpellings | src/main/java/com/pizza/domain/factory/PizzaFactory.java:35-40 | "Veggie Supreme", "veggiesupreme" and "VEGGIE SUPREME" all create the veggie pizza |
| Factory.CreatedPizzaNonNegative | src/main/java/com/pizza/domain/factory/PizzaFactory.java:36-40 | every pizza the factory creates has non-negative prices and costs at least 0 |
| Factory.AvailableTypes | src/main/java/com/pizza/domain/factory/PizzaFactory.java:51-53 | five type names, no two the same |
| Factory.AvailableTypesCreate | src/main/java/com/pizza/domain/factory/PizzaFactory.java:51-53 | each listed type name creates its own catalog pizza |
| Factory.AvailableTypesAccepted | src/main/java/com/pizza/domain/factory/PizzaFactory.java:51-53 | every entry of `getAvailableTypes` is accepted by `create` |
| ItemEdit.EditKey | src/main/java/com/pizza/ui/controllers/PosController.java:413-414 | the key derived from an item has no space and normalises like the item's name |
| ItemEdit.EditAsWritten | src/main/java/com/pizza/ui/controllers/PosController.java:413-433 | the edit gives a pizza exactly when the item's name normalises to a factory key; that pizza has the re-created base, the new size and exactly the chosen toppings |
| ItemEdit.NoKeyWithZ | src/main/java/com/pizza/domain/factory/PizzaFactory.java:35-41 | a name containing 'z' keeps it in its key, so `create` rejects it |
| ItemEdit.PrefixedNamesHaveZ | src/main/java/com/pizza/domain/pizza/Pepperoni.java:11 | "Pizza Pepperoni", "Pizza Hải Sản" and "Pizza Chay Rau Củ" have a 'z' at index 2 |
| ItemEdit.BuiltPizzasNonNegative | src/main/java/com/pizza/ui/controllers/CartController.java:231-248 | a factory pizza with any choice of the three toppings has non-negative prices and costs at least 0 |
| ItemEdit.EditRoundTrips | src/main/java/com/pizza/ui/controllers/PosController.java:413-430 | a Margherita or Hawaiian item, with any toppings, is re-created as the same kind at the new size with the chosen toppings |
| ItemEdit.EditFailsForPrefixedNames | src/main/java/com/pizza/ui/controllers/PosController.java:413-433 | a Pepperoni, Seafood or Veggie Supreme item cannot be edited: `create` fails on its name and the edit gives nothing |
| ItemEdit.CatalogKey | src/main/java/com/pizza/ui/controllers/PosController.java:414 | the three prefixed catalog names map to their factory keys; any other name keeps the dialog's space removal |
| ItemEdit.EditCorrected | src/main/java/com/pizza/ui/controllers/PosController.java:413-430 | an edit that succeeds gives the new size and exactly the chosen toppings |
| ItemEdit.EditCorrectedRoundTrips | src/main/java/com/pizza/ui/controllers/PosController.java:413-430 | with the catalog lookup, every catalog item is re-created as the same kind at the new size with the chosen toppings |
| Shipping.CalculateFee | src/main/java/com/pizza/domain/strategy/StandardShipping.java:12-14 | standard shipping is free exactly from 200 000 on and 20 000 exactly below it; express is always 40 000; every fee lies in 0..40 000 |
| Shipping.Name | src/main/java/com/pizza/domain/strategy/StandardShipping.java:17-19 | the name is "Standard Shipping" exactly for standard and "Express Shipping" exactly for express shipping |
| Shipping.ToString | src/main/java/com/pizza/domain/strategy/StandardShipping.java:22-24 | the text starts with the strategy's name and is exactly "Standard Shipping (Free if ≥200k, otherwise 20k)" or "Express Shipping (Flat 40k)" |
| Shipping.StandardFeeValues | src/main/java/com/pizza/domain/strategy/StandardShipping.java:12-14 | the standard fee is always 0 or 20 000 |
| Shipping.FeeNonIncreasing | src/main/java/com/pizza/domain/strategy/StandardShipping.java:12-14 | a larger subtotal never pays a larger fee, for either strategy |
| Shipping.StandardBoundaries | src/main/java/com/pizza/domain/strategy/StandardShipping.java:8-14 | 200 000 ships free; 199 999 and 100 000 pay 20 000 |
| Shipping.ExpressIndependentOfSubtotal | src/main/java/com/pizza/domain/strategy/ExpressShipping.java:8-13 | the express fee is 40 000 whatever the subtotal |
| Shipping.Names | src/main/java/com/pizza/domain/strategy/ExpressShipping.java:16-18 | the names are "Standard Shipping" and "Express Shipping", and they differ |
| Payments.Name | src/main/java/com/pizza/domain/strategy/CardPayment.java:26-28 | the name is "Cash", "Card" or "E-Wallet" exactly for the matching method |
| Payments.NamesDistinct | src/main/java/com/pizza/domain/strategy/CashPayment.java:25-27 | the names are "Cash", "Card" and "E-Wallet", one per method |
| Pricing.Subtotal | src/main/java/com/pizza/app/PriceCalculator.java:23-27 | the subtotal of an empty order is 0 |
| Pricing.SubtotalSnoc | src/main/java/com/pizza/app/PriceCalculator.java:24-26 | adding an item at the end adds exactly its price |
| Pricing.SubtotalConcat | src/main/java/com/pizza/app/PriceCalculator.java:24-26 | the subtotal distributes over concatenation |
| Pricing.SubtotalPermutation | src/main/java/com/pizza/app/PriceCalculator.java:24-26 | reordering the items does not change the subtotal |
| Pricing.SubtotalRemoveAt | src/main/java/com/pizza/app/PriceCalculator.java:24-26 | removing the item at an index takes exactly its price off |
| Pricing.SubtotalReplaceAt | src/main/java/com/pizza/app/PriceCalculator.java:24-26 | replacing an item swaps its price for the new one's |
| Pricing.SubtotalBounds | src/main/java/com/pizza/app/PriceCalculator.java:23-27 | with non-negative prices the subtotal is non-negative and at least each item's price |
| Pricing.CalculateShipping | src/test/java/com/pizza/PriceCalculatorTest.java:118-127 | (taken from the tests) the shipping for a subtotal is the strategy's fee |
| Pricing.Total | src/test/java/com/pizza/PriceCalculatorTest.java:76-115 | (taken from the tests) total minus subtotal is the fee for that subtotal: nothing from 200 000 on and 20 000 below with standard shipping, 40 000 with express |
| Pricing.StandardTotalAlmostMonotone | src/test/java/com/pizza/PriceCalculatorTest.java:76-103 | (taken from the tests) a smaller subtotal can have a larger standard total only by the 20 000 fee, and not at all once it ships free |
| Events.Invocations | src/main/java/com/pizza/app/EventBus.java:59-66 | one call per listener entry, in list order, each with the published data |
| Events.InvocationsSnoc | src/main/java/com/pizza/app/EventBus.java:59-66 | the listener subscribed last is called last |
| Events.Called | src/main/java/com/pizza/app/EventBus.java:59-66 | the called listeners, one per call, in call order |
| Events.CalledAreListeners | src/main/java/com/pizza/app/EventBus.java:59-66 | a publish calls exactly the event's listener list, one call per subscription |
| Events.RemoveFirst | src/main/java/com/pizza/app/EventBus.java:71-76 | an absent listener leaves the list as it was; a present one makes it one shorter |
| Events.RemoveFirstAt | src/main/java/com/pizza/app/EventBus.java:71-76 | removal takes out exactly the first occurrence and keeps the rest in order |
| Events.RemoveFirstMultiset | src/main/java/com/pizza/app/EventBus.java:71-76 | removal takes away exactly one subscription of that listener |
| Events.SubscribeThenUnsubscribe | src/main/java/com/pizza/app/EventBus.java:40-42 | subscribing a new listener and unsubscribing it restores the list; for a listener already present it is the earlier subscription that goes |
| Events.EventBus.constructor | src/main/java/com/pizza/app/EventBus.java:20-22 | a new bus has no subscriptions |
| Events.EventBus.Listeners | src/main/java/com/pizza/app/EventBus.java:60-61 | an event with a list has that list; an event without one, the null of the source, has no listeners |
| Events.EventBus.Subscribe | src/main/java/com/pizza/app/EventBus.java:40-42 | the listener is appended to the event's list, which is created when absent; every other event is untouched |
| Events.EventBus.PublishData | src/main/java/com/pizza/app/EventBus.java:59-66 | the calls made are every listener of the event in subscription order with the given data, none for an event without a list; the subscriptions are not changed |
| Events.EventBus.Publish | src/main/java/com/pizza/app/EventBus.java:49-51 | publishing without data is publishing with null data |
| Events.EventBus.Unsubscribe | src/main/java/com/pizza/app/EventBus.java:71-76 | the first occurrence is removed from the event's list; an event without a list is left without one; every other event is untouched |
| Events.EventBus.ClearAll | src/main/java/com/pizza/app/EventBus.java:81-83 | no event has any listener afterwards, so every publish calls nothing |
| Cart.CartService.constructor | src/main/java/com/pizza/app/CartService.java:27-32 | a new cart is empty, pays in cash, and has published nothing and caused no listener call |
| Cart.CartService.NotifyUpdated | src/main/java/com/pizza/app/CartService.java:50 | one "CART_UPDATED" is logged, and the call log grows by exactly the calls the bus makes for it: every current listener of that event, in order, with no data; items and payment method are unchanged |
| Cart.CartService.GetTotal | src/main/java/com/pizza/app/CartService.java:115-117 | the total is the order subtotal of the current items with no shipping fee; so an empty cart totals 0, and a cart whose items have non-negative prices never totals below 0 |
| Cart.CartService.GetItemCount | src/main/java/com/pizza/app/CartService.java:91-93 | the count is the number of items, and 0 exactly for an empty cart |
| Cart.CartService.GetItems | src/main/java/com/pizza/app/CartService.java:84-93 | the copy equals the items and its length is the item count |
| Cart.CartService.AddItem | src/main/java/com/pizza/app/CartService.java:48-51 | the pizza is appended at the end, the count grows by one, the total by its price, and exactly one update is published, with its listener calls logged |
| Cart.CartService.RemoveItem | src/main/java/com/pizza/app/CartService.java:56-61 | an index in range removes that item, lowers the total by its price and publishes once, with its listener calls logged; any other index changes nothing, publishes nothing and calls no listener |
| Cart.CartService.ReplaceItem | src/main/java/com/pizza/app/CartService.java:66-71 | an index in range overwrites that item, keeps the length, swaps its price in the total and publishes once, with its listener calls logged; any other index changes nothing, publishes nothing and calls no listener |
| Cart.CartService.Clear | src/main/java/com/pizza/app/CartService.java:76-79 | the cart is empty with total 0, and an update is published, with its listener calls logged, even if it was empty already |
| Cart.CartService.SetPaymentStrategy | src/main/java/com/pizza/app/CartService.java:99-102 | the method is replaced, the items are unchanged, and one update is published, with its listener calls logged |
| Cart.CartService.GetPaymentStrategy | src/main/java/com/pizza/app/CartService.java:107-109 | returns the current payment method |
| Scenarios.MargheritaMediumFromFactory | src/test/java/com/pizza/DecoratorTest.java:21-24 | "Margherita" at M creates Margherita M, which costs 75 000 |
| Scenarios.MargheritaWithCheese | src/test/java/com/pizza/DecoratorTest.java:26-37 | Margherita M with cheese costs 85 000 and is described "Margherita (Medium) + Ph√¥ Mai" |
| Scenarios.HawaiianSmallBaconMushroom | src/test/java/com/pizza/DecoratorTest.java:39-51 | Hawaiian S with bacon and mushroom costs 103 000 |
| Scenarios.PepperoniLargeAllToppings | src/test/java/com/pizza/DecoratorTest.java:94-108 | Pepperoni L with cheese, bacon and mushroom costs 153 000 |
| Scenarios.PepperoniLargeAllToppingsDescription | src/test/java/com/pizza/DecoratorTest.java:53-65 | its description is "Pizza Pepperoni (Large) + Ph√¥ Mai + Bacon + Mushroom" |
| Scenarios.TwoToppingsList | src/main/java/com/pizza/domain/decorator/ToppingDecorator.java:40-46 | cheese then bacon on any base product are listed as "Ph√¥ Mai, Bacon" |
| Scenarios.ThreeToppingsList | src/main/java/com/pizza/domain/decorator/ToppingDecorator.java:40-46 | cheese, bacon, mushroom on any base product are listed in that order, separated by ", " |
| Scenarios.PepperoniLargeAllToppingsList | src/main/java/com/pizza/domain/decorator/ToppingDecorator.java:40-46 | the toppings of Pepperoni L with all three are "Ph√¥ Mai, Bacon, Mushroom" |
| Scenarios.MargheritaToppingsList | src/test/java/com/pizza/DecoratorTest.java:67-78 | the toppings of Margherita M with cheese then bacon are "Ph√¥ Mai, Bacon" |
| Scenarios.ChainingOrder | src/test/java/com/pizza/DecoratorTest.java:81-92 | the same three toppings in opposite orders on Margherita S cost the same |
| Scenarios.DecoratingPreservesOriginal | src/test/java/com/pizza/DecoratorTest.java:111-124 | wrapping Hawaiian M with cheese leaves it at 95 000 and the wrap costs more |
| Scenarios.SubtotalExamples | src/test/java/com/pizza/PriceCalculatorTest.java:35-74 | the unit-test subtotals 75 000, 145 000 and 163 000 |
| Scenarios.TotalExamples | src/test/java/com/pizza/PriceCalculatorTest.java:76-127 | (taken from the tests) the totals 95 000, 230 000 and 115 000 and the fees 20 000, 0 and 40 000 |
| Scenarios.OrderExample | src/main/java/com/pizza/app/PriceCalculator.java:23-27 | an order of Margherita M with cheese and Pepperoni L with bacon and mushroom is 228 000 and ships free; without its first item it is 143 000 plus the 20 000 fee |

## Findings

| source | as written | input that shows it | evidently intended | confidence | as-written member | corrected member |
|---|---|---|---|---|---|---|
| src/main/java/com/pizza/ui/controllers/PosController.java:413-417 | the edit dialog re-creates the item with `create(base.getName().replace(" ", ""), size)` | a Pepperoni item: its name "Pizza Pepperoni" becomes the key "pizzapepperoni", which `create` rejects; the same holds for Seafood and Veggie Supreme | editing keeps the item's kind for every catalog pizza | not executed | ItemEdit.EditFailsForPrefixedNames | ItemEdit.EditCorrectedRoundTrips |

With the code as written, only Margherita and Hawaiian items can be edited
(`ItemEdit.EditRoundTrips`).
- For the other three kinds the exception is caught and the dialog's result is null (PosController.java:431-432). `showAndWait()` then gives an empty `Optional`, so the handler at lines 439-446 never runs. The item stays unchanged and no error is shown: the error branch at lines 444-445 cannot be reached.
- `ItemEdit.EditCorrected` maps each catalog display name to its factory key instead. `ItemEdit.EditCorrectedRoundTrips` proves that every catalog item then round-trips.

## Left out

- Java `int` overflow: every amount is an unbounded integer. The sums in the source are ordinary `int` additions that would wrap past 2^31 - 1, far beyond any order in the tests.
- `JavaText.ToLower` lower-cases only the ASCII letters A-Z. It is exact for the factory's decision, as explained above, but not for arbitrary text. Locale-dependent case mapping is not modelled either.
- `Sizes.Ordinal` and the declaration order of sizes stand in for the Java enum's ordinal.
- Payment processing:
  - `processPayment`, `getDescription` and `toString` of the payment methods print to the console and always succeed.
  - Only the three names are modelled, and `CartService.processPayment` is left out.
- `PriceCalculator.calculateTax` and `calculateDiscount`: floating-point arithmetic with truncating casts.
- `CartService` holds its `PriceCalculator` only to call `calculateSubtotal`. The model calls `Pricing.Subtotal` directly and reads the total and item count as the functions `GetTotal` and `GetItemCount`.
- The lazy singletons `CartService.getInstance` and `EventBus.getInstance`: the model uses explicit instances, and the cart receives its bus in the constructor.
- Listener bodies are not modelled: listeners are opaque ids, and a publish returns the calls it makes. Re-entrant publishing, where a listener subscribes during a publish, is left out too. It makes the Java iteration throw, which is runtime behaviour outside this model.
- JavaFX controllers, dialogs and receipt formatting are out of scope. Only the edit dialog's re-creation logic (`ItemEdit`) and the two unwrap-and-rebuild helpers (`Decorators.BasePizza`, `Decorators.RebuildFromOriginal`) are modelled.
  - The edit dialog pre-selects its topping check boxes by searching the description for Vietnamese topping names. Those names never occur in the descriptions. This UI behaviour is not modelled.
- The JDBC persistence layer: database I/O.
