/**
  The first-in first-out channel between the download workers and the user
  interface: `queue.Queue` in the Qt application and `Manager().Queue` in the
  Kivy application.  Workers `put` at the back; the interface's timer callback
  checks `empty` and `get`s from the front.  Concurrent producers are not
  modelled: every operation is one atomic step on `items`.
*/
module Queues {

  class Queue<T> {
    /** The events waiting to be read, oldest first. */
    var items: seq<T>

    constructor ()
      ensures items == []
    {
      items := [];
    }

    predicate Empty()
      reads this
    {
      items == []
    }

    method Put(x: T)
      modifies this
      ensures items == old(items) + [x]
    {
      items := items + [x];
    }

    /** `get()` blocks on an empty queue; both callers test `empty()` first. */
    method Get() returns (x: T)
      requires items != []
      modifies this
      ensures x == old(items)[0] && items == old(items)[1..]
    {
      x := items[0];
      items := items[1..];
    }
  }

  /** Appending in two steps is appending the two parts at once. */
  lemma ConcatAssoc<T>(a: seq<T>, b: seq<T>, c: seq<T>)
    ensures (a + b) + c == a + (b + c)
  {
  }
}
