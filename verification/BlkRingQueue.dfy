/**
 `BlkRingQueue` (blkringqueue.h) as the object it is: an array of cells and wrapping counters updated
 in place. Every operation performs, uninterrupted, the steps of RingProtocol.
 */
module BlkRingQueues {
  import opened Bits
  import opened RingMask
  import opened RingProtocol

  class BlkRingQueue<T> {
    var data: array<Cell<T>>
    var capacity: nat
    var slots: nat
    var items: nat
    var itemCount: Word
    var mask: Word
    var nextSlot: Word
    var nextItem: Word

    ghost var put: seq<T>
    ghost var got: seq<T>
    ghost var pops: nat

    /** The queue as a state of the protocol in which neither thread is inside an operation. */
    ghost function View(): Ring<T>
      reads this, data
    {
      Ring(capacity, mask, data[..], slots, items, itemCount, nextSlot, nextItem, Resting, Idle, put, got, pops)
    }

    ghost predicate Valid()
      reads this, data
    {
      AtRest(View())
    }

    /** The items in the queue, oldest first. */
    ghost function Contents(): seq<T>
      reads this, data
    {
      View().Held()
    }

    constructor (capacity: nat)
      requires capacity <= MAX_CAPACITY
      ensures Valid() && fresh(data)
      ensures this.capacity == capacity && View() == Init(capacity, mask) && Contents() == []
    {
      var mask := ComputeMask(capacity);
      this.mask := mask;
      this.capacity := capacity;
      slots, items, itemCount, nextSlot, nextItem := capacity, 0, 0, 0, 0;
      put, got, pops := [], [], 0;
      data := new Cell<T>[Wrap(mask as int + 1)](_ => Raw);
      new;
      InitEstablishesInvariant<T>(capacity, mask);
      assert data[..] == Init<T>(capacity, mask).cells;
    }

    /** `tryEnqueue`, and `waitEnqueueTimed` when nobody frees a slot in time. */
    method TryEnqueue(item: T) returns (ok: bool)
      requires Valid()
      modifies this, data
      ensures Valid() && data == old(data) && capacity == old(capacity)
      ensures ok <==> |old(Contents())| < capacity
      ensures Contents() == old(Contents()) + if ok then [item] else []
      ensures View() == if ok then Enqueue(old(View()), item) else old(View())
    {
      if slots == 0 {
        return false;
      }
      EnqueueAppends(View(), item);
      slots := slots - 1;
      EnqueueImpl(item);
      return true;
    }

    /** The slot has been acquired. */
    method EnqueueImpl(item: T)
      requires View().SlotIndex() < data.Length
      modifies this, data
      ensures data == old(data)
      ensures View() == Enqueue(old(View()).(slots := old(slots) + 1), item)
    {
      ghost var before := data[..];
      var index := Bitwise(And, nextSlot, mask);
      data[index] := Live(item);
      nextSlot := Wrap(nextSlot + 1);
      put := put + [item];
      itemCount := Wrap(itemCount + 1);
      items := items + 1;
      assert data[..] == before[index := Live(item)];
    }

    /** `tryDequeue`, and `waitDequeueTimed` when nothing arrives in time. */
    method TryDequeue() returns (item: Cell<T>)
      requires Valid()
      modifies this, data
      ensures Valid() && data == old(data) && capacity == old(capacity)
      ensures item.Raw? <==> old(Contents()) == []
      ensures old(Contents()) == (if item.Live? then [item.value] else []) + Contents()
      ensures View() == if item.Live? then Dequeue(old(View())) else old(View())
    {
      if items == 0 {
        return Raw;
      }
      DequeueTakesFirst(View());
      items := items - 1;
      item := DequeueImpl();
    }

    /** The access of a dequeue or pop to its cell. */
    method TakeCell() returns (item: Cell<T>)
      requires View().ItemIndex() < data.Length && data[View().ItemIndex()].Live?
      modifies this`nextItem, this`got, data
      ensures item == old(data[View().ItemIndex()])
      ensures View() == EmptyCell(old(View()))
    {
      ghost var before := data[..];
      var index := Bitwise(And, nextItem, mask);
      item := data[index];
      data[index] := Raw;
      nextItem := Wrap(nextItem + 1);
      got := got + [item.value];
      assert data[..] == before[index := Raw];
    }

    /** The item has been acquired. */
    method DequeueImpl() returns (item: Cell<T>)
      requires View().ItemIndex() < data.Length && data[View().ItemIndex()].Live?
      modifies this, data
      ensures data == old(data) && item == old(data[View().ItemIndex()])
      ensures View() == Dequeue(old(View()).(items := old(items) + 1))
    {
      item := TakeCell();
      itemCount := Wrap(itemCount - 1);
      slots := slots + 1;
    }

    /** The address `peek` returns, as an index into the array. */
    method Peek() returns (index: int)
      requires Valid()
      ensures index == -1 <==> itemCount == 0
      ensures index >= 0 ==> index == View().ItemIndex()
      ensures pops == 0 ==> (index == -1 <==> Contents() == [])
      ensures pops == 0 && index >= 0 ==> index < data.Length && data[index] == Live(Contents()[0])
    {
      PeekSoundExactlyWhen(View());
      if pops == 0 {
        CountWithinCapacity(View());
      }
      if itemCount == 0 {
        return -1;
      }
      return Bitwise(And, nextItem, mask);
    }

    method TryPop() returns (ok: bool)
      requires Valid()
      modifies this, data
      ensures Valid() && data == old(data) && capacity == old(capacity)
      ensures ok <==> old(Contents()) != []
      ensures Contents() == if ok then old(Contents())[1..] else []
      ensures View() == if ok then Pop(old(View())) else old(View())
    {
      if items == 0 {
        return false;
      }
      PopDropsFirst(View());
      items := items - 1;
      PopImpl();
      slots := slots + 1;
      return true;
    }

    /** The item has been acquired; the slot is still to be released. */
    method PopImpl()
      requires View().ItemIndex() < data.Length && data[View().ItemIndex()].Live?
      modifies this, data
      ensures data == old(data)
      ensures View() == Pop(old(View()).(items := old(items) + 1)).(slots := old(slots))
    {
      var item := TakeCell();
      pops := pops + 1;
    }

    /**
     The destructor's loop. `spurious` counts the destructor calls on cells that hold no item: there
     are none, and every held item is destroyed, exactly if no pop has left the count wrong.
     */
    method Destroy() returns (spurious: nat)
      requires Valid()
      modifies data
      ensures spurious == 0 && (forall k :: 0 <= k < data.Length ==> data[k] == Raw) <==> Wrap(pops) == 0
    {
      spurious := 0;
      ghost var r := View();
      DestructionStarts(r);
      var i, n := 0, itemCount;
      while i != n
        invariant i <= n && DestroyedSoFar(r, i, data[..], spurious)
        decreases n - i
      {
        DestroysNext(r, i, data[..], spurious);
        var idx := Bitwise(And, Wrap(nextItem + i), mask);
        if data[idx].Raw? {
          spurious := spurious + 1;
        }
        data[idx] := Raw;
        i := i + 1;
      }
      DestructionEnds(r, data[..], spurious);
    }
  }

  /** Ring r after the destructor has visited its first i held items, leaving the given cells. */
  ghost function Emptied<T>(r: Ring<T>, i: nat, cells: seq<Cell<T>>): Ring<T>
    requires i <= |r.Held()|
  {
    r.(cells := cells, got := r.put[..|r.put| - |r.Held()| + i])
  }

  ghost predicate AllRaw<T>(cells: seq<Cell<T>>) {
    forall k :: 0 <= k < |cells| ==> cells[k] == Raw
  }

  ghost predicate DestroyedSoFar<T>(r: Ring<T>, i: nat, cells: seq<Cell<T>>, spurious: nat) {
    var held := |r.Held()|;
    && |cells| == |r.cells|
    && spurious == (if i <= held then 0 else i - held)
    && (r.capacity > 0 && i <= held ==> CellsAreWindow(Emptied(r, i, cells)))
    && (i >= held ==> AllRaw(cells))
  }

  lemma DestructionStarts<T>(r: Ring<T>)
    requires AtRest(r)
    ensures DestroyedSoFar(r, 0, r.cells, 0)
  {
    if r.capacity > 0 {
      assert Emptied(r, 0, r.cells) == r;
      EmptyWhenNothingHeld(r, 0, r.cells);
    }
  }

  lemma EmptyWhenNothingHeld<T>(r: Ring<T>, i: nat, cells: seq<Cell<T>>)
    requires AtRest(r) && i <= |r.Held()| && CellsAreWindow(Emptied(r, i, cells))
    ensures i == |r.Held()| ==> AllRaw(cells)
  {
    if i == |r.Held()| {
      forall k | 0 <= k < |cells|
        ensures cells[k] == Raw
      {
        EmptyWindowIsRaw(Emptied(r, i, cells), k);
      }
    }
  }

  lemma DestroysNext<T>(r: Ring<T>, i: nat, cells: seq<Cell<T>>, spurious: nat)
    requires AtRest(r) && i < r.itemCount && DestroyedSoFar(r, i, cells, spurious)
    ensures var idx := Bitwise(And, Wrap(r.nextItem + i), r.mask);
            && idx < |cells|
            && DestroyedSoFar(r, i + 1, cells[idx := Raw], spurious + One(cells[idx].Raw?))
  {
    CountedMeansCells(r);
    DestructorIndex(r, i);
    var idx := (|r.got| + i) % |cells|;
    if i < |r.Held()| {
      DestroysHeld(r, i, cells);
    } else {
      assert cells[idx := Raw] == cells;
    }
  }

  /** The destructor's index walks the cells in a cycle, from the oldest item on. */
  lemma DestructorIndex<T>(r: Ring<T>, i: nat)
    requires IsMask(r.mask, r.capacity) && |r.cells| == r.mask + 1 && r.nextItem == Wrap(|r.got|)
    ensures Bitwise(And, Wrap(r.nextItem + i), r.mask) == (|r.got| + i) % |r.cells|
  {
    IndexIsCyclic(r, |r.got| + i);
    CounterShifts(r.nextItem, |r.got|, i);
  }

  lemma CounterShifts(counter: Word, count: nat, i: nat)
    requires counter == Wrap(count)
    ensures Wrap(counter + i) == Wrap(count + i)
  {
    WrapShift(count, i);
  }

  lemma CountedMeansCells<T>(r: Ring<T>)
    requires AtRest(r) && r.itemCount > 0
    ensures r.capacity > 0 && IsMask(r.mask, r.capacity) && |r.cells| == r.mask + 1 && r.nextItem == Wrap(|r.got|)
  {
  }

  lemma DestroysHeld<T>(r: Ring<T>, i: nat, cells: seq<Cell<T>>)
    requires AtRest(r) && r.capacity > 0 && i < |r.Held()| && |cells| == |r.cells|
    requires CellsAreWindow(Emptied(r, i, cells))
    ensures var idx := (|r.got| + i) % |cells|;
            && cells[idx].Live?
            && CellsAreWindow(Emptied(r, i + 1, cells[idx := Raw]))
            && (i + 1 == |r.Held()| ==> AllRaw(cells[idx := Raw]))
  {
    var idx := (|r.got| + i) % |cells|;
    FirstLeavesWindow(Emptied(r, i, cells), Emptied(r, i + 1, cells[idx := Raw]));
    EmptyWhenNothingHeld(r, i + 1, cells[idx := Raw]);
  }

  lemma DestructionEnds<T>(r: Ring<T>, cells: seq<Cell<T>>, spurious: nat)
    requires AtRest(r) && DestroyedSoFar(r, r.itemCount, cells, spurious)
    ensures spurious == 0 && AllRaw(cells) <==> Wrap(r.pops) == 0
  {
    CountExactlyWhen(r);
    if r.itemCount < |r.Held()| {
      var e := Emptied(r, r.itemCount, cells);
      assert e.CellOf(|e.got|) == Live(e.put[|e.got|]);
    }
  }

  /** The count is right, modulo 2^64, exactly if no pop has been forgotten. */
  lemma CountExactlyWhen<T>(r: Ring<T>)
    requires AtRest(r)
    ensures r.itemCount == |r.Held()| <==> Wrap(r.pops) == 0
  {
    assert r.itemCount == Wrap(|r.Held()| + r.pops);
    WrapsBackExactlyWhen(|r.Held()|, r.pops);
  }

  lemma WrapsBackExactlyWhen(held: Word, pops: nat)
    ensures Wrap(held + pops) == held <==> Wrap(pops) == 0
  {
  }

  /**
   After one enqueue and one pop on a fresh queue nothing is held, yet `size()` is 1, and the one cell
   the destructor visits holds no item.
   */
  lemma SizeAfterPopIsWrong<T>(capacity: nat, mask: Word, item: T)
    requires 0 < capacity <= MAX_CAPACITY && IsMask(mask, capacity) && mask < WORD_SIZE / 2
    ensures var r := Pop(Enqueue(Init(capacity, mask), item));
            && r.Held() == [] && r.itemCount == 1
            && r.ItemIndex() < |r.cells| && r.cells[r.ItemIndex()] == Raw
  {
    var r := Init<T>(capacity, mask);
    InitEstablishesInvariant<T>(capacity, mask);
    EnqueueAppends(r, item);
    var full := Enqueue(r, item);
    PopDropsFirst(full);
    var empty := Pop(full);
    IndicesAreCyclic(empty);
    EmptyWindowIsRaw(empty, empty.ItemIndex());
  }
}
