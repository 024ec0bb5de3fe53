/** The synchronous publish/subscribe channel `EventBus`
    (packages/core/src/utils/eventBus.ts). Listeners are modelled by their
    identity `L`: what a listener does when called is its owner's business, so
    `Emit` hands back the listeners it calls, in the order it calls them. */
module EventBus {

  /** The unsubscribe closure returned by `on(event, fn)`: it captures the
      topic and the listener. */
  datatype Subscription<L> = Subscription(event: string, fn: L)

  /** `list.filter(l => l !== fn)`. */
  function Without<L(==)>(list: seq<L>, fn: L): (r: seq<L>)
    ensures |r| <= |list|
    ensures forall x :: x in r ==> x in list && x != fn
    decreases |list|
  {
    if list == [] then []
    else if list[0] == fn then Without(list[1..], fn)
    else [list[0]] + Without(list[1..], fn)
  }

  /** The listeners registered under `event` in `m`; none for an absent key. */
  function Lookup<L>(m: map<string, seq<L>>, event: string): seq<L> {
    if event in m then m[event] else []
  }

  /** How many times `x` occurs in `list`. */
  function Count<L(==)>(list: seq<L>, x: L): nat
    decreases |list|
  {
    if list == [] then 0 else (if list[0] == x then 1 else 0) + Count(list[1..], x)
  }

  /** `sub` is `list` with some elements dropped and the rest in their original order. */
  predicate IsSubsequence<L(==)>(sub: seq<L>, list: seq<L>)
    decreases |list|
  {
    if sub == [] then true
    else if list == [] then false
    else if sub[0] == list[0] then IsSubsequence(sub[1..], list[1..])
    else IsSubsequence(sub, list[1..])
  }

  lemma {:induction false} CountAppend<L>(a: seq<L>, b: seq<L>, x: L)
    ensures Count(a + b, x) == Count(a, x) + Count(b, x)
    decreases |a|
  {
    if a == [] {
      assert a + b == b;
    } else {
      assert (a + b)[1..] == a[1..] + b;
      CountAppend(a[1..], b, x);
    }
  }

  /** Removing `fn` removes every occurrence of it and keeps every other
      listener as often as it was there, in the same relative order. */
  lemma {:induction false} WithoutSpec<L>(list: seq<L>, fn: L)
    ensures Count(Without(list, fn), fn) == 0
    ensures forall x :: x != fn ==> Count(Without(list, fn), x) == Count(list, x)
    ensures IsSubsequence(Without(list, fn), list)
    ensures |Without(list, fn)| == |list| - Count(list, fn)
    decreases |list|
  {
    if list != [] {
      WithoutSpec(list[1..], fn);
      if list[0] != fn {
        var r := Without(list, fn);
        assert r[0] == list[0] && r[1..] == Without(list[1..], fn);
      } else {
        SubsequenceOfTail(Without(list[1..], fn), list);
      }
    }
  }

  lemma {:induction false} SubsequenceOfTail<L>(sub: seq<L>, list: seq<L>)
    requires list != [] && IsSubsequence(sub, list[1..])
    ensures IsSubsequence(sub, list)
    decreases |list|, 0
  {
    if sub != [] && sub[0] == list[0] {
      if |list| > 1 {
        SubsequenceDropHead(sub, list[1..]);
      }
    }
  }

  lemma {:induction false} SubsequenceDropHead<L>(sub: seq<L>, list: seq<L>)
    requires sub != [] && IsSubsequence(sub, list)
    ensures IsSubsequence(sub[1..], list)
    decreases |list|, 1
  {
    assert list != [];
    if sub[0] == list[0] {
      SubsequenceOfTail(sub[1..], list);
    } else {
      SubsequenceDropHead(sub, list[1..]);
      SubsequenceOfTail(sub[1..], list);
    }
  }

  /** Unsubscribing twice is the same as unsubscribing once. */
  lemma {:induction false} WithoutIdempotent<L>(list: seq<L>, fn: L)
    ensures Without(Without(list, fn), fn) == Without(list, fn)
    decreases |list|
  {
    if list != [] {
      WithoutIdempotent(list[1..], fn);
      if list[0] != fn {
        var r := Without(list, fn);
        assert r[0] == list[0] && r[1..] == Without(list[1..], fn);
      }
    }
  }

  /** A list without `fn` is left as it is. */
  lemma {:induction false} WithoutAbsent<L>(list: seq<L>, fn: L)
    requires Count(list, fn) == 0
    ensures Without(list, fn) == list
    decreases |list|
  {
    if list != [] {
      WithoutAbsent(list[1..], fn);
    }
  }

  /** Two registrations add two occurrences to the list. */
  lemma RegisteredTwiceCalledTwice<L>(list: seq<L>, fn: L)
    ensures Count(list + [fn] + [fn], fn) == Count(list, fn) + 2
  {
    CountAppend(list + [fn], [fn], fn);
    CountAppend(list, [fn], fn);
  }

  class EventBus<L(==)> {
    /** `listeners: Record<string, Listener[]>`. */
    var listeners: map<string, seq<L>>

    /** The list `emit(event, …)` would walk: empty for an unknown topic. */
    function ListenersOf(event: string): seq<L>
      reads this
    {
      Lookup(listeners, event)
    }

    constructor ()
      ensures listeners == map[]
    {
      listeners := map[];
    }

    /** `emit(event, data)`: every listener of `event` is called once with
        `data`, in registration order; `called` is that sequence of calls.
        The walk is over the list as it stood when `emit` started, as
        `forEach` does. */
    method Emit(event: string) returns (called: seq<L>)
      ensures called == ListenersOf(event)
      ensures event !in listeners ==> called == []
      ensures forall fn :: Count(called, fn) == Count(ListenersOf(event), fn)
    {
      called := [];
      if event in listeners {
        var list := listeners[event];
        var i := 0;
        while i < |list|
          invariant 0 <= i <= |list|
          invariant called == list[..i]
        {
          called := called + [list[i]];
          i := i + 1;
        }
        assert list[..|list|] == list;
      }
    }

    /** `on(event, fn)`: creates the topic's list if it is missing, appends
        `fn` to it, and returns the unsubscribe capability. */
    method On(event: string, fn: L) returns (unsubscribe: Subscription<L>)
      modifies this
      ensures listeners == old(listeners)[event := old(ListenersOf(event)) + [fn]]
      ensures unsubscribe == Subscription(event, fn)
    {
      if event !in listeners {
        listeners := listeners[event := []];
      }
      listeners := listeners[event := listeners[event] + [fn]];
      unsubscribe := Subscription(event, fn);
    }

    /** Calling the closure returned by `on`: the topic's list is replaced by
        its filtered copy. The topic is present because `on` created it and no
        operation deletes a topic. */
    method Unsubscribe(s: Subscription<L>)
      requires s.event in listeners
      modifies this
      ensures listeners == old(listeners)[s.event := Without(old(listeners)[s.event], s.fn)]
      ensures listeners.Keys == old(listeners.Keys)
    {
      listeners := listeners[s.event := Without(listeners[s.event], s.fn)];
    }
  }

  /** `on(event, fn)` twice, then `emit(event, …)`: the listener is called
      once per registration, after the listeners that were there before. */
  method RegisterTwiceThenEmit<L(==)>(bus: EventBus<L>, event: string, fn: L) returns (called: seq<L>)
    modifies bus
    ensures called == old(bus.ListenersOf(event)) + [fn, fn]
    ensures Count(called, fn) == Count(old(bus.ListenersOf(event)), fn) + 2
  {
    var _ := bus.On(event, fn);
    var _ := bus.On(event, fn);
    called := bus.Emit(event);
    assert [fn, fn] == [fn] + [fn];
    RegisteredTwiceCalledTwice(old(bus.ListenersOf(event)), fn);
  }
}
