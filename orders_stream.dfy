/** The kitchen's live event list: each order event received is put first
    and the list is cut to the 20 newest. */
module OrdersStream {
  import opened Wrappers

  datatype EventPayload = EventPayload(orderNumber: Option<int>, status: Option<string>, total: Option<string>)

  /** An event as the stream sends it. */
  datatype OrderEvent = OrderEvent(eventType: string, orderId: string, payload: Option<EventPayload>)

  const MaxEvents := 20

  /** The event names a listener is registered for. */
  const HandledTypes: set<string> := {"ORDER_PLACED", "ORDER_UPDATED", "ORDER_CANCELLED"}

  /** The `setEvents` updater: `[parsed, ...prev].slice(0, 20)` */
  function Prepend<T>(prev: seq<T>, event: T): seq<T> {
    var all := [event] + prev;
    if |all| <= MaxEvents then all else all[..MaxEvents]
  }

  function Min(a: int, b: int): int {
    if a <= b then a else b
  }

  /** The new event comes first, followed by the previous list's first
      min(n, 19) entries in their order, and the list never holds more than
      20. */
  lemma PrependShape<T>(prev: seq<T>, event: T)
    ensures var r := Prepend(prev, event);
      && |r| == Min(|prev| + 1, MaxEvents)
      && r[0] == event
      && r[1..] == prev[..Min(|prev|, MaxEvents - 1)]
  {
    var r := Prepend(prev, event);
    if |prev| + 1 > MaxEvents {
      assert r[1..] == prev[..MaxEvents - 1];
    } else {
      assert r[1..] == prev;
    }
  }

  /** The list after receiving `events` in order, starting empty. */
  function Received<T>(events: seq<T>): seq<T> {
    if events == [] then [] else Prepend(Received(events[..|events| - 1]), events[|events| - 1])
  }

  function Reversed<T>(s: seq<T>): (r: seq<T>)
    ensures |r| == |s|
    ensures forall i :: 0 <= i < |s| ==> r[i] == s[|s| - 1 - i]
  {
    if s == [] then [] else [s[|s| - 1]] + Reversed(s[..|s| - 1])
  }

  /** Starting empty, the list is always the 20 most recent events, newest
      first. */
  lemma {:induction false} ReceivedIsNewestFirst<T>(events: seq<T>)
    ensures Received(events) == Reversed(events)[..Min(|events|, MaxEvents)]
  {
    if events != [] {
      var init, last := events[..|events| - 1], events[|events| - 1];
      ReceivedIsNewestFirst(init);
      var prev := Reversed(init)[..Min(|init|, MaxEvents)];
      assert Reversed(events) == [last] + Reversed(init);
      assert Prepend(prev, last) == ([last] + Reversed(init))[..Min(|events|, MaxEvents)];
    }
  }

  class EventList {
    var events: seq<OrderEvent>

    ghost predicate Valid()
      reads this
    {
      |events| <= MaxEvents
    }

    constructor ()
      ensures Valid() && events == []
    {
      events := [];
    }

    /** A message on the stream: only the three registered event names
        reach `handleEvent`; data that does not parse (`parse` answers
        `None` where `JSON.parse` throws) is ignored. */
    method HandleEvent(eventName: string, data: string, parse: string -> Option<OrderEvent>)
      requires Valid()
      modifies this
      ensures Valid()
      ensures eventName !in HandledTypes || parse(data).None? ==> events == old(events)
      ensures eventName in HandledTypes && parse(data).Some? ==> events == Prepend(old(events), parse(data).value)
    {
      if eventName !in HandledTypes {
        return;
      }
      var parsed := parse(data);
      if parsed.None? {
        return;
      }
      events := Prepend(events, parsed.value);
    }
  }
}
