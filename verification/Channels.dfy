/** The work queue as a service sees it: somewhere to send items, which are applied later and in any order. */
module Channels {
  import opened Landing

  class Channel<T> {
    var items: seq<T>

    constructor ()
      ensures items == []
    {
      items := [];
    }

    method Send(item: T)
      modifies this
      ensures items == old(items) + [item]
    {
      items := items + [item];
    }

    /** Takes out the item whose goroutine gets through to the store next. */
    method Take(i: nat) returns (item: T)
      requires i < |items|
      modifies this
      ensures item == old(items)[i] && items == Without(old(items), i)
    {
      item := items[i];
      items := Without(items, i);
    }
  }
}
