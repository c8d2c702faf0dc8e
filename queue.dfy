/** The thread-safe queues the runner, the reporter and the listener share
    (`queue.Queue`), seen from one thread: a FIFO of values. */
module Queues {
  import opened PyValue

  class Queue {
    /** The values put and not yet taken, oldest first. */
    var items: seq<Value>

    constructor ()
      ensures items == []
    {
      items := [];
    }

    /** `put(v)`: appends one value. */
    method Put(v: Value)
      modifies this
      ensures items == old(items) + [v]
    {
      items := items + [v];
    }
  }
}
