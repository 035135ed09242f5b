/** A publish/subscribe bus: each event name has an ordered list of
    listeners, and publishing an event calls its listeners in the order
    they subscribed. Listeners are identified by opaque ids; what a
    listener does when it is called is outside this model. */
module Events {
  import opened Wrappers

  datatype ListenerId = ListenerId(id: nat)

  /** One call `listener.accept(data)` made by a publish. */
  datatype Invocation = Invocation(listener: ListenerId, data: Option<string>)

  /** The calls a publish makes on a list of listeners: one per entry, in order. */
  function Invocations(listeners: seq<ListenerId>, data: Option<string>): (r: seq<Invocation>)
    ensures |r| == |listeners|
    ensures forall i :: 0 <= i < |r| ==> r[i] == Invocation(listeners[i], data)
  {
    seq(|listeners|, i requires 0 <= i < |listeners| => Invocation(listeners[i], data))
  }

  /** A listener subscribed last is called last. */
  lemma InvocationsSnoc(listeners: seq<ListenerId>, l: ListenerId, data: Option<string>)
    ensures Invocations(listeners + [l], data) == Invocations(listeners, data) + [Invocation(l, data)]
  {
  }

  /** The listeners a publish calls, in the order it calls them. */
  function Called(calls: seq<Invocation>): (r: seq<ListenerId>)
    ensures |r| == |calls|
    ensures forall i :: 0 <= i < |calls| ==> r[i] == calls[i].listener
  {
    seq(|calls|, i requires 0 <= i < |calls| => calls[i].listener)
  }

  /** Publishing calls exactly the subscribed listeners, each once per subscription. */
  lemma CalledAreListeners(listeners: seq<ListenerId>, data: Option<string>)
    ensures Called(Invocations(listeners, data)) == listeners
  {
  }

  /** `List.remove(Object)`: the first occurrence removed, if there is one. */
  function RemoveFirst(xs: seq<ListenerId>, x: ListenerId): (r: seq<ListenerId>)
    ensures x !in xs ==> r == xs
    ensures x in xs ==> |r| == |xs| - 1
  {
    if xs == [] then []
    else if xs[0] == x then xs[1..]
    else [xs[0]] + RemoveFirst(xs[1..], x)
  }

  /** Removing takes out exactly the first occurrence, at index i, and keeps the rest in order. */
  lemma {:induction false} RemoveFirstAt(xs: seq<ListenerId>, x: ListenerId, i: nat)
    requires i < |xs| && xs[i] == x
    requires forall k :: 0 <= k < i ==> xs[k] != x
    ensures RemoveFirst(xs, x) == xs[..i] + xs[i + 1..]
  {
    if i == 0 {
      assert xs[..0] + xs[1..] == xs[1..];
    } else {
      var tail := xs[1..];
      RemoveFirstAt(tail, x, i - 1);
      assert xs[..i] == [xs[0]] + tail[..i - 1];
      assert xs[i + 1..] == tail[i..];
    }
  }

  /** Removing a present listener takes exactly one of its subscriptions away. */
  lemma RemoveFirstMultiset(xs: seq<ListenerId>, x: ListenerId, i: nat)
    requires i < |xs| && xs[i] == x
    requires forall k :: 0 <= k < i ==> xs[k] != x
    ensures multiset(RemoveFirst(xs, x)) == multiset(xs) - multiset{x}
  {
    RemoveFirstAt(xs, x, i);
    assert xs == xs[..i] + [x] + xs[i + 1..];
  }

  /** Subscribing and then unsubscribing a new listener restores the list;
      for a listener already present it is the earlier subscription that goes. */
  lemma {:induction false} SubscribeThenUnsubscribe(xs: seq<ListenerId>, l: ListenerId)
    ensures l !in xs ==> RemoveFirst(xs + [l], l) == xs
    ensures l in xs ==> RemoveFirst(xs + [l], l) == RemoveFirst(xs, l) + [l]
  {
    if xs != [] {
      assert (xs + [l])[1..] == xs[1..] + [l];
      SubscribeThenUnsubscribe(xs[1..], l);
    }
  }

  class EventBus {
    var subscribers: map<string, seq<ListenerId>>

    constructor()
      ensures subscribers == map[]
    {
      subscribers := map[];
    }

    /** `subscribers.get(event)`, with an absent list read as empty. */
    function Listeners(event: string): (r: seq<ListenerId>)
      reads this
      ensures event in subscribers ==> r == subscribers[event]
      ensures event !in subscribers ==> r == []
    {
      if event in subscribers then subscribers[event] else []
    }

    /** `subscribe(event, listener)`: append, creating the list when absent. */
    method Subscribe(event: string, listener: ListenerId)
      modifies this
      ensures subscribers == old(subscribers)[event := old(Listeners(event)) + [listener]]
      ensures Listeners(event) == old(Listeners(event)) + [listener]
      ensures forall e :: e != event ==> Listeners(e) == old(Listeners(e))
    {
      subscribers := subscribers[event := Listeners(event) + [listener]];
    }

    /** `publish(event, data)`: call every listener of the event, in order, with the data. */
    method PublishData(event: string, data: Option<string>) returns (calls: seq<Invocation>)
      ensures calls == Invocations(Listeners(event), data)
    {
      calls := [];
      if event in subscribers {
        var listeners := subscribers[event];
        var i := 0;
        while i < |listeners|
          invariant 0 <= i <= |listeners|
          invariant calls == Invocations(listeners[..i], data)
        {
          InvocationsSnoc(listeners[..i], listeners[i], data);
          assert listeners[..i + 1] == listeners[..i] + [listeners[i]];
          calls := calls + [Invocation(listeners[i], data)];
          i := i + 1;
        }
        assert listeners[..i] == listeners;
      }
    }

    /** `publish(event)`: `publish(event, null)`. */
    method Publish(event: string) returns (calls: seq<Invocation>)
      ensures calls == Invocations(Listeners(event), None)
    {
      calls := PublishData(event, None);
    }

    /** `unsubscribe(event, listener)`: remove its first occurrence from the
        event's list; an absent list stays absent. */
    method Unsubscribe(event: string, listener: ListenerId)
      modifies this
      ensures event in old(subscribers) ==> subscribers == old(subscribers)[event := RemoveFirst(old(subscribers)[event], listener)]
      ensures event !in old(subscribers) ==> subscribers == old(subscribers)
      ensures Listeners(event) == RemoveFirst(old(Listeners(event)), listener)
      ensures forall e :: e != event ==> Listeners(e) == old(Listeners(e))
    {
      if event in subscribers {
        subscribers := subscribers[event := RemoveFirst(subscribers[event], listener)];
      }
    }

    /** `clearAll()`: after it no event has a listener. */
    method ClearAll()
      modifies this
      ensures subscribers == map[]
      ensures forall e :: Listeners(e) == []
    {
      subscribers := map[];
    }
  }
}
