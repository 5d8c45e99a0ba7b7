/**
 * The event bus: for each event type, the handlers subscribed to it, in
 * subscription order. Publishing an event of a type runs that type's
 * handlers, each once, in order.
 *
 * Event types are identified by a `TypeId` (a number here); handlers are
 * values of a type parameter `H`, and publishing returns the handlers it
 * invokes, in invocation order, in place of running their closures.
 */
module Bus {
  type TypeId = nat

  /** The handlers of type `t`; none when the type has no entry. */
  function HandlersOf<H>(handlers: map<TypeId, seq<H>>, t: TypeId): seq<H>
  {
    if t in handlers then handlers[t] else []
  }

  /**
   * `subscribe::<E>`: the handler joins the end of E's list (created empty if
   * absent); every other type keeps its list.
   */
  function Subscribed<H>(handlers: map<TypeId, seq<H>>, t: TypeId, handler: H): (m: map<TypeId, seq<H>>)
    ensures m.Keys == handlers.Keys + {t}
    ensures HandlersOf(m, t) == HandlersOf(handlers, t) + [handler]
    ensures forall u :: u in handlers && u != t ==> m[u] == handlers[u]
  {
    handlers[t := HandlersOf(handlers, t) + [handler]]
  }

  /** The registry after the given subscriptions, in order, starting from `handlers`. */
  function SubscribeAll<H>(handlers: map<TypeId, seq<H>>, subscriptions: seq<(TypeId, H)>): map<TypeId, seq<H>>
  {
    if subscriptions == [] then handlers
    else
      var n := |subscriptions| - 1;
      Subscribed(SubscribeAll(handlers, subscriptions[..n]), subscriptions[n].0, subscriptions[n].1)
  }

  /** The handlers subscribed to type `t`, in subscription order. */
  function SubscribedTo<H>(subscriptions: seq<(TypeId, H)>, t: TypeId): (r: seq<H>)
    ensures |r| <= |subscriptions|
  {
    if subscriptions == [] then []
    else
      var n := |subscriptions| - 1;
      SubscribedTo(subscriptions[..n], t) + (if subscriptions[n].0 == t then [subscriptions[n].1] else [])
  }

  /**
   * Starting from an empty bus, each type's handlers are exactly the handlers
   * subscribed to it, each once, in subscription order, whatever was
   * subscribed to other types in between.
   */
  lemma {:induction false} SubscriptionOrder<H>(subscriptions: seq<(TypeId, H)>, t: TypeId)
    ensures HandlersOf(SubscribeAll(map[], subscriptions), t) == SubscribedTo(subscriptions, t)
  {
    if subscriptions != [] {
      var n := |subscriptions| - 1;
      SubscriptionOrder(subscriptions[..n], t);
    }
  }

  class EventBus<H> {
    var handlers: map<TypeId, seq<H>>

    constructor ()
      ensures handlers == map[]
    {
      handlers := map[];
    }

    /** Appends the handler to the list of type `t`, creating the list if absent. */
    method Subscribe(t: TypeId, handler: H)
      modifies this
      ensures handlers == Subscribed(old(handlers), t, handler)
    {
      var list := if t in handlers then handlers[t] else [];
      handlers := handlers[t := list + [handler]];
    }

    /**
     * The handlers an event of type `t` is handed to: exactly `t`'s handlers,
     * each once, in subscription order, and none when `t` has no entry. The
     * registry is only read.
     */
    method Publish(t: TypeId) returns (invoked: seq<H>)
      ensures invoked == HandlersOf(handlers, t)
    {
      invoked := [];
      if t in handlers {
        var list := handlers[t];
        for i := 0 to |list|
          invariant invoked == list[..i]
        {
          invoked := invoked + [list[i]];
        }
        assert list[..|list|] == list;
      }
    }
  }

  /** Two handlers on one type and one on another: publishing the first type runs its two, in order. */
  method TwoTypesScenario<H>(a: H, b: H, c: H) returns (first: seq<H>, second: seq<H>, none: seq<H>)
    ensures first == [a, c] && second == [b] && none == []
  {
    var bus := new EventBus<H>();
    bus.Subscribe(1, a);
    bus.Subscribe(2, b);
    bus.Subscribe(1, c);
    first := bus.Publish(1);
    second := bus.Publish(2);
    none := bus.Publish(3);
    assert first == [a, c] && second == [b] && none == [];
  }
}
