/** The bounded multi-producer channel the components are built on, with the
    clones of its sending half named by who holds them. */
module Channels {

  /** Who holds a clone of a channel's sending half. */
  datatype Holder =
    | Socket               // the virtual socket itself
    | PathEnd(path: nat)   // a path handle
    | RouteEntry           // the routing table
    | InFlight(call: nat)  // a send call between its lookup and its push

  datatype TrySend = Sent | Full | Disconnected

  datatype Polled<+T> = Item(value: T) | Ended | Pending

  /** `open` says that the receiving half still exists. */
  datatype Channel<T> = Channel(capacity: nat, items: seq<T>, senders: set<Holder>, open: bool)
  {
    function Clone(h: Holder): Channel<T> { this.(senders := senders + {h}) }

    function DropSender(h: Holder): Channel<T> { this.(senders := senders - {h}) }

    /** Dropping the receiving half discards what is still queued. */
    function DropReceiver(): Channel<T> { this.(items := [], open := false) }

    function SendResult(): TrySend {
      if !open then Disconnected else if |items| < capacity then Sent else Full
    }

    function Push(x: T): Channel<T> {
      if SendResult().Sent? then this.(items := items + [x]) else this
    }

    /** A receive ends the stream only when nothing is queued and every sending
        half is gone. */
    function Poll(): Polled<T> {
      if items != [] then Item(items[0]) else if senders == {} then Ended else Pending
    }

    function Pop(): Channel<T> {
      if items != [] then this.(items := items[1..]) else this
    }
  }
}
