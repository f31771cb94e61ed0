/** The one-shot broadcast of pkg/runner/instances.go:264-299: every subscriber, early or
    late, finds exactly one result in its channel, and submitting never blocks. */
module Broadcast {
  import opened Prelude

  /** What a channel holds. */
  datatype Chan<T> = Chan(buffer: seq<T>, closed: bool)

  /** The channel a subscriber is given. */
  function Handed<T>(known: Option<T>): Chan<T> {
    if known.Some? then Chan([known.value], true) else Chan([], false)
  }

  /** One value is sent and the channel is closed. */
  function Delivered<T>(c: Chan<T>, x: T): Chan<T> {
    Chan(c.buffer + [x], true)
  }

  /** A Go channel with room for one value. */
  class Channel<T> {
    var buffer: seq<T>
    var closed: bool

    function View(): Chan<T>
      reads this
    {
      Chan(buffer, closed)
    }

    constructor ()
      ensures buffer == [] && !closed
    {
      buffer, closed := [], false;
    }

    /** A send that neither blocks nor panics. */
    method Send(x: T)
      requires |buffer| < 1 && !closed
      modifies this
      ensures buffer == old(buffer) + [x] && closed == old(closed)
    {
      buffer := buffer + [x];
    }

    method Close()
      requires !closed
      modifies this
      ensures closed && buffer == old(buffer)
    {
      closed := true;
    }
  }

  class MultiConsumer<T(0)> {
    var subscribers: seq<Channel<T>>
    var hasResult: bool
    var result: T

    /** Waiting subscribers are distinct and their channels are empty and open; there are
        none once a result is known. */
    ghost predicate Valid()
      reads this, subscribers
    {
      && (hasResult ==> subscribers == [])
      && (forall k :: 0 <= k < |subscribers| ==> subscribers[k].View() == Handed(None))
      && (forall j, k :: 0 <= j < k < |subscribers| ==> subscribers[j] != subscribers[k])
    }

    function Known(): Option<T>
      reads this
    {
      if hasResult then Some(result) else None
    }

    constructor ()
      ensures Valid() && !hasResult && subscribers == []
    {
      subscribers, hasResult := [], false;
    }

    /** A late subscriber gets the result at once; an early one is remembered. */
    method AddSub() returns (sub: Channel<T>)
      requires Valid()
      modifies this
      ensures Valid() && fresh(sub) && Known() == old(Known()) && sub.View() == Handed(Known())
      ensures subscribers == if hasResult then old(subscribers) else old(subscribers) + [sub]
    {
      sub := new Channel();
      if hasResult {
        sub.Send(result);
        sub.Close();
        return;
      }
      subscribers := subscribers + [sub];
    }

    /** Every remembered subscriber gets the result, once, and its channel is closed. */
    method SubmitResult(r: T)
      requires Valid()
      modifies this, subscribers
      ensures Valid() && Known() == Some(r) && subscribers == []
      ensures forall k :: 0 <= k < |old(subscribers)| ==> old(subscribers)[k].View() == Delivered(Handed(None), r)
    {
      hasResult, result := true, r;
      for n := 0 to |subscribers|
        invariant subscribers == old(subscribers) && hasResult && result == r
        invariant forall k :: 0 <= k < n ==> subscribers[k].View() == Delivered(Handed(None), r)
        invariant forall k :: n <= k < |subscribers| ==> subscribers[k].View() == Handed(None)
      {
        subscribers[n].Send(r);
        subscribers[n].Close();
      }
      subscribers := [];
    }
  }
}
