/** The point-of-sale cart: an ordered list of pizzas and the chosen payment
    method. Every change that happens publishes "CART_UPDATED" on the event
    bus; the ghost log `published` records those events in order, and the
    ghost log `calls` the listener calls that the bus made for them. */
module Cart {
  import opened Pizzas
  import opened Pricing
  import opened Payments
  import opened Events
  import opened Wrappers

  const CartUpdated: string := "CART_UPDATED"

  class CartService {
    var items: seq<Pizza>
    var paymentStrategy: PaymentMethod
    const eventBus: EventBus
    ghost var published: seq<string>
    ghost var calls: seq<Invocation>

    /** A new cart is empty and pays in cash. */
    constructor(bus: EventBus)
      ensures items == [] && paymentStrategy == Cash && eventBus == bus
      ensures published == [] && calls == []
    {
      items := [];
      paymentStrategy := Cash;
      eventBus := bus;
      published := [];
      calls := [];
    }

    /** The calls one cart update makes: every current "CART_UPDATED"
        listener, in subscription order, with no data. */
    ghost function UpdateCalls(): seq<Invocation>
      reads eventBus
    {
      Invocations(eventBus.Listeners(CartUpdated), None)
    }

    /** Publishes one cart update on the bus and records it with the calls it made. */
    method NotifyUpdated()
      modifies this
      ensures items == old(items) && paymentStrategy == old(paymentStrategy)
      ensures published == old(published) + [CartUpdated]
      ensures calls == old(calls) + UpdateCalls()
    {
      var made := eventBus.Publish(CartUpdated);
      published := published + [CartUpdated];
      calls := calls + made;
    }

    /** `getTotal()`: the subtotal of the items, with no shipping fee; 0 for an
        empty cart and never negative when no item has a negative price. */
    function GetTotal(): (r: int)
      reads this
      ensures r == Subtotal(items)
      ensures items == [] ==> r == 0
      ensures (forall i :: 0 <= i < |items| ==> NonNegativePrices(items[i])) ==> r >= 0
    {
      if forall i :: 0 <= i < |items| ==> NonNegativePrices(items[i]) then
        SubtotalBounds(items);
        Subtotal(items)
      else
        Subtotal(items)
    }

    /** `getItemCount()`: the number of items, 0 exactly for an empty cart. */
    function GetItemCount(): (r: nat)
      reads this
      ensures r == |items|
      ensures r == 0 <==> items == []
    {
      |items|
    }

    /** `getItems()`: a copy of the list, equal to the items. */
    method GetItems() returns (r: seq<Pizza>)
      ensures r == items && |r| == GetItemCount()
    {
      r := items;
    }

    /** `addItem(pizza)`: append at the end and publish once. */
    method AddItem(pizza: Pizza)
      modifies this
      ensures items == old(items) + [pizza]
      ensures GetItemCount() == old(GetItemCount()) + 1
      ensures GetTotal() == old(GetTotal()) + Price(pizza)
      ensures paymentStrategy == old(paymentStrategy)
      ensures published == old(published) + [CartUpdated]
      ensures calls == old(calls) + UpdateCalls()
    {
      SubtotalSnoc(items, pizza);
      items := items + [pizza];
      NotifyUpdated();
    }

    /** `removeItem(index)`: drop the item at an index in range and publish once;
        any other index changes nothing and publishes nothing. */
    method RemoveItem(index: int)
      modifies this
      ensures 0 <= index < |old(items)| ==> items == old(items)[..index] + old(items)[index + 1..]
      ensures 0 <= index < |old(items)| ==> GetTotal() == old(GetTotal()) - Price(old(items)[index])
      ensures 0 <= index < |old(items)| ==> published == old(published) + [CartUpdated]
      ensures 0 <= index < |old(items)| ==> calls == old(calls) + UpdateCalls()
      ensures !(0 <= index < |old(items)|) ==> items == old(items) && published == old(published) && calls == old(calls)
      ensures paymentStrategy == old(paymentStrategy)
    {
      if 0 <= index < |items| {
        SubtotalRemoveAt(items, index);
        items := items[..index] + items[index + 1..];
        NotifyUpdated();
      }
    }

    /** `replaceItem(index, newPizza)`: overwrite the item at an index in range
        and publish once; any other index changes nothing and publishes nothing. */
    method ReplaceItem(index: int, newPizza: Pizza)
      modifies this
      ensures 0 <= index < |old(items)| ==> items == old(items)[index := newPizza]
      ensures 0 <= index < |old(items)| ==> GetTotal() == old(GetTotal()) - Price(old(items)[index]) + Price(newPizza)
      ensures 0 <= index < |old(items)| ==> published == old(published) + [CartUpdated]
      ensures 0 <= index < |old(items)| ==> calls == old(calls) + UpdateCalls()
      ensures !(0 <= index < |old(items)|) ==> items == old(items) && published == old(published) && calls == old(calls)
      ensures |items| == |old(items)| && paymentStrategy == old(paymentStrategy)
    {
      if 0 <= index < |items| {
        SubtotalReplaceAt(items, index, newPizza);
        items := items[index := newPizza];
        NotifyUpdated();
      }
    }

    /** `clear()`: empty the cart and publish, even when it was already empty. */
    method Clear()
      modifies this
      ensures items == [] && GetTotal() == 0
      ensures paymentStrategy == old(paymentStrategy)
      ensures published == old(published) + [CartUpdated]
      ensures calls == old(calls) + UpdateCalls()
    {
      items := [];
      NotifyUpdated();
    }

    /** `setPaymentStrategy(strategy)`: replace the method and publish once. */
    method SetPaymentStrategy(strategy: PaymentMethod)
      modifies this
      ensures paymentStrategy == strategy && items == old(items)
      ensures published == old(published) + [CartUpdated]
      ensures calls == old(calls) + UpdateCalls()
    {
      paymentStrategy := strategy;
      NotifyUpdated();
    }

    /** `getPaymentStrategy()`. */
    method GetPaymentStrategy() returns (m: PaymentMethod)
      ensures m == paymentStrategy
    {
      m := paymentStrategy;
    }
  }
}
