/**
 The queues between the audio and main threads and the server: `farbot::fifo`, as far as its users can
 see. A bounded queue whose push fails when it is full and whose pop fails when it is empty.
 */
module Fifos {
  import opened Options

  /** The size `SharedData` gives to each of its queues. */
  const QUEUE_CAPACITY: nat := 64

  class Fifo<E> {
    const capacity: nat
    var items: seq<E>

    constructor (capacity: nat)
      ensures this.capacity == capacity && items == []
    {
      this.capacity := capacity;
      items := [];
    }

    method Push(e: E) returns (ok: bool)
      modifies this
      ensures ok <==> |old(items)| < capacity
      ensures items == old(items) + if ok then [e] else []
    {
      ok := |items| < capacity;
      if ok {
        items := items + [e];
      }
    }

    method Pop() returns (e: Option<E>)
      modifies this
      ensures e.None? <==> old(items) == []
      ensures old(items) == (if e.Some? then [e.value] else []) + items
    {
      if items == [] {
        return None;
      }
      e := Some(items[0]);
      items := items[1..];
    }
  }
}
