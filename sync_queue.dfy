/**
 * The driver SDK's SyncQueue as an abstract unbounded FIFO. The same class backs
 * both the free-buffer pool and the delivery queue; the two instances share
 * nothing. Locking and the blocking popWait are not modelled here: a consumer
 * that would block on an empty queue is modelled by its caller.
 */
module SyncQueues {
  import opened Wrappers

  class SyncQueue<T> {
    /** Queued items, head first. */
    var items: seq<T>

    constructor ()
      ensures items == []
    {
      items := [];
    }

    /** Appends at the tail. */
    method Push(x: T)
      modifies this
      ensures items == old(items) + [x]
    {
      items := items + [x];
    }

    /** Non-blocking pop: the head, or None (a null pointer) when empty. */
    method Pop() returns (r: Option<T>)
      modifies this
      ensures old(items) == [] ==> r == None && items == []
      ensures old(items) != [] ==> r == Some(old(items)[0]) && items == old(items)[1..]
    {
      if items == [] {
        r := None;
      } else {
        r := Some(items[0]);
        items := items[1..];
      }
    }
  }
}
