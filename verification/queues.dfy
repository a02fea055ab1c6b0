/**
 * A first-in first-out queue shared between the coordinator and the workers.
 * Concurrency is not modelled: the queue is its sequence of pending items.
 */
module Queues {

  class Queue<T> {
    var items: seq<T>

    constructor ()
      ensures items == []
    {
      items := [];
    }

    /** `put`: appends one item at the back. */
    method Put(x: T)
      modifies this
      ensures items == old(items) + [x]
    {
      items := items + [x];
    }

    /** `empty`: true exactly when nothing is pending. */
    method Empty() returns (b: bool)
      ensures b <==> |items| == 0
    {
      b := |items| == 0;
    }

    /** `get`: removes and returns the front item (callers check `Empty` first). */
    method Get() returns (x: T)
      requires items != []
      modifies this
      ensures x == old(items)[0]
      ensures items == old(items)[1..]
    {
      x := items[0];
      items := items[1..];
    }
  }
}
