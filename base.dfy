/** The in-process publish/subscribe bus and the registration every component
    performs when it is constructed. Callbacks are opaque identities; `Emit`
    returns the calls it makes, in order, instead of running them. */
module Base {
  import opened Types

  /** The callbacks registered for `event`, `listeners.get(event, [])`. */
  function Listeners<C>(table: map<string, seq<C>>, event: string): seq<C>
  {
    if event in table then table[event] else []
  }

  /** The listener table after `subscribe(event, callback)`. */
  function Subscribed<C>(table: map<string, seq<C>>, event: string, callback: C): (r: map<string, seq<C>>)
    ensures Listeners(r, event) == Listeners(table, event) + [callback]
    ensures r.Keys == table.Keys + {event}
    ensures forall e | e != event :: Listeners(r, e) == Listeners(table, e)
  {
    table[event := Listeners(table, event) + [callback]]
  }

  /** The listener table after subscribing every pair of `items` in order. */
  function SubscribedAll<C>(table: map<string, seq<C>>, items: seq<(string, C)>): map<string, seq<C>>
  {
    if items == [] then table
    else Subscribed(SubscribedAll(table, items[..|items| - 1]), items[|items| - 1].0, items[|items| - 1].1)
  }

  class EventBus<C> {
    var listeners: map<string, seq<C>>

    /** A fresh bus has no listeners. */
    constructor ()
      ensures listeners == map[]
    {
      listeners := map[];
    }

    /** `listeners.setdefault(event, []).append(callback)`. */
    method Subscribe(event: string, callback: C)
      modifies this
      ensures listeners == Subscribed(old(listeners), event, callback)
    {
      listeners := listeners[event := Listeners(listeners, event) + [callback]];
    }

    /** Runs every callback registered for `event`, in subscription order,
        each with the same arguments: the result lists those calls. */
    method Emit<A>(event: string, args: A) returns (calls: seq<(C, A)>)
      ensures |calls| == |Listeners(listeners, event)|
      ensures forall i | 0 <= i < |calls| :: calls[i] == (Listeners(listeners, event)[i], args)
    {
      var callbacks := Listeners(listeners, event);
      calls := [];
      for i := 0 to |callbacks|
        invariant |calls| == i
        invariant forall j | 0 <= j < i :: calls[j] == (callbacks[j], args)
      {
        calls := calls + [(callbacks[i], args)];
      }
    }
  }

  /** `BaseComponent.__init__`: subscribes every (event, callback) pair that
      `register_events` returns, in order; nothing when it returns None or an
      empty dict. */
  method Register<C>(bus: EventBus<C>, items: Option<seq<(string, C)>>)
    modifies bus
    ensures bus.listeners == SubscribedAll(old(bus.listeners), if items.Some? then items.value else [])
  {
    if items.Some? && items.value != [] {
      var pairs := items.value;
      for i := 0 to |pairs|
        invariant bus.listeners == SubscribedAll(old(bus.listeners), pairs[..i])
      {
        assert pairs[..i + 1][..i] == pairs[..i];
        bus.Subscribe(pairs[i].0, pairs[i].1);
      }
      assert pairs[..|pairs|] == pairs;
    }
  }

  /** The callbacks a call list runs, in order. */
  function Callees<C, A>(calls: seq<(C, A)>): (cs: seq<C>)
    ensures |cs| == |calls|
    ensures forall i | 0 <= i < |calls| :: cs[i] == calls[i].0
  {
    if calls == [] then [] else Callees(calls[..|calls| - 1]) + [calls[|calls| - 1].0]
  }

  /** A freshly constructed bus has no listeners, so emitting any event on it
      invokes nothing. */
  method EmitOnFreshBus<A>(event: string, args: A) returns (calls: seq<(Callback, A)>)
    ensures calls == []
  {
    var bus := new EventBus<Callback>();
    calls := bus.Emit(event, args);
  }

  /** There is no de-duplication: subscribing a callback twice makes it run
      twice more per emit. */
  lemma {:induction false} SubscribeTwiceRunsTwice<C>(table: map<string, seq<C>>, event: string, callback: C)
    ensures multiset(Listeners(Subscribed(Subscribed(table, event, callback), event, callback), event))[callback]
         == multiset(Listeners(table, event))[callback] + 2
  {
    var before := Listeners(table, event);
    assert Listeners(Subscribed(Subscribed(table, event, callback), event, callback), event)
        == before + [callback] + [callback];
  }

  /** Registering three pairs is subscribing them one after another. */
  lemma SubscribedAllThree<C>(table: map<string, seq<C>>, a: (string, C), b: (string, C), c: (string, C))
    ensures SubscribedAll(table, [a, b, c]) == Subscribed(Subscribed(Subscribed(table, a.0, a.1), b.0, b.1), c.0, c.1)
  {
    assert [a, b, c][..2] == [a, b] && [a, b][..1] == [a] && [a][..0] == [];
    assert SubscribedAll(table, [a]) == Subscribed(table, a.0, a.1);
    assert SubscribedAll(table, [a, b]) == Subscribed(Subscribed(table, a.0, a.1), b.0, b.1);
  }

  /** Registering a component whose events are pairwise distinct appends its
      callback to exactly those events' lists and leaves every other list as it was. */
  lemma {:induction false} SubscribedAllEffect<C>(table: map<string, seq<C>>, items: seq<(string, C)>, event: string)
    requires forall i, j | 0 <= i < j < |items| :: items[i].0 != items[j].0
    ensures forall i | 0 <= i < |items| && items[i].0 == event ::
              Listeners(SubscribedAll(table, items), event) == Listeners(table, event) + [items[i].1]
    ensures (forall i | 0 <= i < |items| :: items[i].0 != event) ==>
              Listeners(SubscribedAll(table, items), event) == Listeners(table, event)
  {
    if items != [] {
      var init, last := items[..|items| - 1], items[|items| - 1];
      SubscribedAllEffect(table, init, event);
      var before := SubscribedAll(table, init);
      assert SubscribedAll(table, items) == Subscribed(before, last.0, last.1);
      forall i | 0 <= i < |items| && items[i].0 == event
        ensures Listeners(SubscribedAll(table, items), event) == Listeners(table, event) + [items[i].1]
      {
        if i == |items| - 1 {
          assert forall j | 0 <= j < |init| :: init[j].0 != event by {
            forall j | 0 <= j < |init| ensures init[j].0 != event {
              assert init[j] == items[j];
            }
          }
        } else {
          assert init[i] == items[i] && last.0 != event;
        }
      }
    }
  }
}
