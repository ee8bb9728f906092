/**
 The hand-over of blocking client events (shareddata.cpp): a `BlkRingQueue` of capacity 1 through which a
 client call reports an event and the main thread verifies that it is the one it waits for. A wait that
 runs into its timeout is modelled by the state it finds at the end.
 */
module BlockingEvents {
  import opened BlkRingQueues

  class BlockingEventQueue<Event(==)> {
    const queue: BlkRingQueue<Event>

    /** The event handed over and not verified yet, if any. */
    ghost function Pending(): seq<Event>
      reads queue, queue.data
    {
      queue.Contents()
    }

    ghost predicate Valid()
      reads queue, queue.data
    {
      queue.Valid() && queue.capacity == 1
    }

    constructor ()
      ensures Valid() && fresh(queue) && fresh(queue.data) && Pending() == []
    {
      var q := new BlkRingQueue<Event>(1);
      queue := q;
    }

    /** `blockingPushClientEvent`: refused while the previous event has not been consumed. */
    method Push(e: Event) returns (ok: bool)
      requires Valid()
      modifies queue, queue.data
      ensures Valid() && queue.data == old(queue.data)
      ensures ok <==> old(Pending()) == []
      ensures Pending() == if ok then [e] else old(Pending())
    {
      ok := queue.TryEnqueue(e);
    }

    /** `blockingVerifyEvent`: an unexpected event is consumed as well. */
    method Verify(e: Event) returns (ok: bool)
      requires Valid()
      modifies queue, queue.data
      ensures Valid() && queue.data == old(queue.data)
      ensures ok <==> e in old(Pending())
      ensures |old(Pending())| <= 1 && Pending() == []
    {
      HeldWithinCapacity(queue);
      var extracted := queue.TryDequeue();
      if extracted.Raw? {
        return false;
      }
      return extracted.value == e;
    }
  }

  lemma HeldWithinCapacity<T>(queue: BlkRingQueue<T>)
    requires queue.Valid()
    ensures |queue.Contents()| <= queue.capacity
  {
  }
}
