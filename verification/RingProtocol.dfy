/**
 `BlkRingQueue` (blkringqueue.h) as two threads that interleave: a producer and a consumer, each
 stepping between the atomic operations of `enqueueImpl`, `dequeueImpl` and `tryPop`. Whatever the
 interleaving, the queue is a bounded FIFO.
 */
module RingProtocol {
  import opened Bits
  import opened RingMask

  /** A cell of the array either holds a constructed, unconsumed item or is free. */
  datatype Cell<T> = Raw | Live(value: T)

  /** What the producer has done of an enqueue. */
  datatype Producer<T> = Resting | SlotAcquired(item: T) | CellWritten | CountedUp

  /** What the consumer has done of a dequeue (first three) or of a pop (last two). */
  datatype Consumer = Idle | ItemAcquired | CellTaken | CountedDown | PopAcquired | CellDestroyed

  datatype Ring<T> = Ring(
    capacity: nat,
    mask: Word,
    cells: seq<Cell<T>>,
    slots: nat,
    items: nat,
    itemCount: Word,
    nextSlot: Word,
    nextItem: Word,
    producer: Producer<T>,
    consumer: Consumer,
    // What happened so far: the items written, the items moved out or destroyed, the pops begun.
    put: seq<T>,
    got: seq<T>,
    pops: nat)
  {
    function SlotIndex(): nat { Bitwise(And, nextSlot, mask) }

    function ItemIndex(): nat { Bitwise(And, nextItem, mask) }

    function CellAt(index: nat): Cell<T> {
      if index < |cells| then cells[index] else Raw
    }

    /** The cell that the j-th item ever enqueued passes through. */
    function CellOf(j: nat): Cell<T>
      requires |cells| > 0
    {
      cells[j % |cells|]
    }

    /** The items in the queue, oldest first. */
    function Held(): seq<T> {
      if |got| <= |put| then put[|got|..] else []
    }

    /** `peek` looks at a cell whenever `size()` is not zero. */
    predicate PeekIsNonNull() { itemCount != 0 }
  }

  function Init<T>(capacity: nat, mask: Word): Ring<T> {
    Ring(capacity, mask, seq(if capacity == 0 then 0 else mask + 1, _ => Raw), capacity, 0, 0, 0, 0,
         Resting, Idle, [], [], 0)
  }

  datatype Action<T> =
    | AcquireSlot(item: T) | WriteCell | CountUp | ReleaseItem
    | AcquireItem | TakeCell | CountDown | ReleaseSlot
    | AcquireForPop | DestroyCell | ReleasePopped

  /** A semaphore can be acquired while its counter is positive; otherwise each thread follows its program. */
  predicate Enabled<T>(r: Ring<T>, a: Action<T>) {
    match a
    case AcquireSlot(_) => r.producer.Resting? && r.slots > 0
    case WriteCell => r.producer.SlotAcquired?
    case CountUp => r.producer.CellWritten?
    case ReleaseItem => r.producer.CountedUp?
    case AcquireItem => r.consumer.Idle? && r.items > 0
    case TakeCell => r.consumer.ItemAcquired?
    case CountDown => r.consumer.CellTaken?
    case ReleaseSlot => r.consumer.CountedDown?
    case AcquireForPop => r.consumer.Idle? && r.items > 0
    case DestroyCell => r.consumer.PopAcquired?
    case ReleasePopped => r.consumer.CellDestroyed?
  }

  function Step<T>(r: Ring<T>, a: Action<T>): Ring<T>
    requires Enabled(r, a)
  {
    match a
    case AcquireSlot(item) => r.(slots := r.slots - 1, producer := SlotAcquired(item))
    case WriteCell =>
      r.(cells := Put(r.cells, r.SlotIndex(), Live(r.producer.item)), nextSlot := Wrap(r.nextSlot + 1),
         put := r.put + [r.producer.item], producer := CellWritten)
    case CountUp => r.(itemCount := Wrap(r.itemCount + 1), producer := CountedUp)
    case ReleaseItem => r.(items := r.items + 1, producer := Resting)
    case AcquireItem => r.(items := r.items - 1, consumer := ItemAcquired)
    case TakeCell => EmptyCell(r).(consumer := CellTaken)
    case CountDown => r.(itemCount := Wrap(r.itemCount - 1), consumer := CountedDown)
    case ReleaseSlot => r.(slots := r.slots + 1, consumer := Idle)
    case AcquireForPop => r.(items := r.items - 1, pops := r.pops + 1, consumer := PopAcquired)
    case DestroyCell => EmptyCell(r).(consumer := CellDestroyed)
    case ReleasePopped => r.(slots := r.slots + 1, consumer := Idle)
  }

  function Put<T>(cells: seq<Cell<T>>, index: nat, cell: Cell<T>): seq<Cell<T>> {
    if index < |cells| then cells[index := cell] else cells
  }

  /** The consumer's access to a cell: the item leaves it and the read counter advances. */
  function EmptyCell<T>(r: Ring<T>): Ring<T> {
    var cell := r.CellAt(r.ItemIndex());
    r.(cells := Put(r.cells, r.ItemIndex(), Raw), nextItem := Wrap(r.nextItem + 1),
       got := r.got + if cell.Live? then [cell.value] else [])
  }

  /**
   The ways an action could go wrong: leaving the array, overwriting an unconsumed item, reading or
   destroying a free cell.
   */
  predicate Faults<T>(r: Ring<T>, a: Action<T>) {
    match a
    case WriteCell => r.SlotIndex() >= |r.cells| || r.CellAt(r.SlotIndex()).Live?
    case TakeCell => r.ItemIndex() >= |r.cells| || r.CellAt(r.ItemIndex()).Raw?
    case DestroyCell => r.ItemIndex() >= |r.cells| || r.CellAt(r.ItemIndex()).Raw?
    case _ => false
  }

  // ----- the invariant -----

  function One(b: bool): nat { if b then 1 else 0 }

  /** Every slot is free, taken, or in the hands of a thread between its acquire and its release. */
  ghost predicate TokensConserved<T>(r: Ring<T>) {
    r.slots + r.items + One(!r.producer.Resting?) + One(!r.consumer.Idle?) == r.capacity
  }

  /** `itemCount` runs ahead by every pop ever begun, because `tryPop` does not count down. */
  ghost predicate ItemCountAccounted<T>(r: Ring<T>) {
    r.itemCount
    == Wrap(r.items + One(r.producer.CountedUp?) + One(r.consumer.ItemAcquired? || r.consumer.CellTaken?) + r.pops)
  }

  ghost predicate CountersFollow<T>(r: Ring<T>) {
    && r.got <= r.put
    && |r.put| - |r.got| == r.items + One(r.producer.CellWritten? || r.producer.CountedUp?)
                            + One(r.consumer.ItemAcquired? || r.consumer.PopAcquired?)
    && r.pops <= |r.got| + One(r.consumer.PopAcquired?)
    && r.nextSlot == Wrap(|r.put|)
    && r.nextItem == Wrap(|r.got|)
  }

  /** The array is a cyclic window: unconsumed items in their cells, every other cell free. */
  ghost predicate CellsAreWindow<T>(r: Ring<T>) {
    && |r.cells| > 0
    && (forall j: nat :: |r.got| <= j < |r.put| ==> r.CellOf(j) == Live(r.put[j]))
    && (forall j: nat :: |r.put| <= j < |r.got| + |r.cells| ==> r.CellOf(j) == Raw)
  }

  ghost predicate Invariant<T>(r: Ring<T>) {
    && r.capacity <= MAX_CAPACITY
    && TokensConserved(r)
    && ItemCountAccounted(r)
    && CountersFollow(r)
    && if r.capacity == 0 then r.cells == [] && r.put == []
       else IsMask(r.mask, r.capacity) && r.mask < WORD_SIZE / 2 && |r.cells| == r.mask + 1 && CellsAreWindow(r)
  }

  lemma InitEstablishesInvariant<T>(capacity: nat, mask: Word)
    requires capacity <= MAX_CAPACITY
    requires capacity > 0 ==> IsMask(mask, capacity) && mask < WORD_SIZE / 2
    ensures Invariant(Init<T>(capacity, mask))
  {
  }

  /** Fewer than a full turn apart, two items never share a cell. */
  lemma DistinctCells(i: nat, j: nat, n: nat)
    requires i < j < i + n
    ensures i % n != j % n
  {
    if i % n == j % n {
      assert i == (i / n) * n + i % n && j == (j / n) * n + j % n;
      assert (j / n - i / n) * n == j - i;
      MultipleIsZeroOrLarge(j / n - i / n, n);
    }
  }

  lemma FullTurn(i: nat, n: nat)
    requires n > 0
    ensures (i + n) % n == i % n
  {
    assert i + n == (i / n) * n + n + i % n == (i / n + 1) * n + i % n;
    ModuloUnique(i + n, n, i / n + 1, i % n);
  }

  /** A masked counter walks the cells in a cycle, across the wrap-around at 2^64 as well. */
  lemma IndexIsCyclic<T>(r: Ring<T>, count: nat)
    requires IsMask(r.mask, r.capacity) && |r.cells| == r.mask + 1
    ensures Bitwise(And, Wrap(count), r.mask) == count % |r.cells|
  {
    var n: nat :| r.mask + 1 == Pow2(n);
    Pow2Of64();
    if n > 64 {
      Pow2Monotonic(65, n);
    }
    MaskedCounterIsCyclic(count, r.mask, n);
  }

  lemma IndicesAreCyclic<T>(r: Ring<T>)
    requires Invariant(r) && r.capacity > 0
    ensures r.SlotIndex() == |r.put| % |r.cells| && r.ItemIndex() == |r.got| % |r.cells|
  {
    IndexIsCyclic(r, |r.put|);
    IndexIsCyclic(r, |r.got|);
  }

  /** No action a thread can take next goes wrong. */
  lemma NoFault<T>(r: Ring<T>, a: Action<T>)
    requires Invariant(r) && Enabled(r, a)
    ensures !Faults(r, a)
  {
    if r.capacity > 0 {
      IndicesAreCyclic(r);
      assert r.CellAt(r.SlotIndex()) == r.CellOf(|r.put|);
      assert r.CellAt(r.ItemIndex()) == r.CellOf(|r.got|);
    }
  }

  lemma WriteKeepsWindow<T>(r: Ring<T>)
    requires Invariant(r) && r.producer.SlotAcquired?
    ensures CellsAreWindow(Step(r, WriteCell))
  {
    var r' := Step(r, WriteCell);
    var n := |r.cells|;
    var w := |r.put|;
    IndicesAreCyclic(r);
    forall j: nat | |r'.got| <= j < |r'.put|
      ensures r'.CellOf(j) == Live(r'.put[j])
    {
      if j < w {
        DistinctCells(j, w, n);
        assert r.CellOf(j) == Live(r.put[j]);
      }
    }
    forall j: nat | |r'.put| <= j < |r'.got| + n
      ensures r'.CellOf(j) == Raw
    {
      DistinctCells(w, j, n);
      assert r.CellOf(j) == Raw;
    }
  }

  lemma EmptyKeepsWindow<T>(r: Ring<T>)
    requires Invariant(r) && (r.consumer.ItemAcquired? || r.consumer.PopAcquired?)
    ensures EmptyCell(r).got == r.got + [r.put[|r.got|]]
    ensures CellsAreWindow(EmptyCell(r))
  {
    IndicesAreCyclic(r);
    assert r.CellAt(r.ItemIndex()) == r.CellOf(|r.got|) == Live(r.put[|r.got|]);
    FirstLeavesWindow(r, EmptyCell(r));
  }

  /** Freeing the cell of the oldest item moves the window up by one. */
  lemma FirstLeavesWindow<T>(r: Ring<T>, r': Ring<T>)
    requires CellsAreWindow(r) && |r.got| < |r.put| <= |r.got| + |r.cells|
    requires r'.put == r.put && |r'.got| == |r.got| + 1
    requires r'.cells == r.cells[|r.got| % |r.cells| := Raw]
    ensures r.CellOf(|r.got|) == Live(r.put[|r.got|]) && CellsAreWindow(r')
  {
    var n := |r.cells|;
    var t := |r.got|;
    assert r.CellOf(t) == Live(r.put[t]);
    forall j: nat | |r'.got| <= j < |r'.put|
      ensures r'.CellOf(j) == Live(r'.put[j])
    {
      DistinctCells(t, j, n);
      assert r.CellOf(j) == Live(r.put[j]);
    }
    forall j: nat | |r'.put| <= j < |r'.got| + n
      ensures r'.CellOf(j) == Raw
    {
      if j < t + n {
        assert r.CellOf(j) == Raw;
      } else {
        FullTurn(t, n);
      }
    }
  }

  /** With nothing held, every cell is free. */
  lemma EmptyWindowIsRaw<T>(r: Ring<T>, k: nat)
    requires CellsAreWindow(r) && |r.got| == |r.put| && k < |r.cells|
    ensures r.cells[k] == Raw
  {
    var n := |r.cells|;
    var p: int := |r.put|;
    var j := p + (k - p) % n;
    assert k - p == ((k - p) / n) * n + (k - p) % n;
    assert j == (-((k - p) / n)) * n + k;
    ModuloUnique(j, n, -((k - p) / n), k);
    assert r.CellOf(j) == Raw;
  }

  lemma StepKeepsCells<T>(r: Ring<T>, a: Action<T>)
    requires Invariant(r) && Enabled(r, a) && r.capacity > 0
    ensures CellsAreWindow(Step(r, a))
  {
    match a
    case WriteCell => WriteKeepsWindow(r);
    case TakeCell =>
      EmptyKeepsWindow(r);
      SameWindow(EmptyCell(r), Step(r, a));
    case DestroyCell =>
      EmptyKeepsWindow(r);
      SameWindow(EmptyCell(r), Step(r, a));
    case _ => SameWindow(r, Step(r, a));
  }

  lemma SameWindow<T>(r: Ring<T>, r': Ring<T>)
    requires CellsAreWindow(r) && r'.cells == r.cells && r'.put == r.put && r'.got == r.got
    ensures CellsAreWindow(r')
  {
    forall j: nat | |r'.got| <= j < |r'.put|
      ensures r'.CellOf(j) == Live(r'.put[j])
    {
      assert r.CellOf(j) == Live(r.put[j]);
    }
    forall j: nat | |r'.put| <= j < |r'.got| + |r'.cells|
      ensures r'.CellOf(j) == Raw
    {
      assert r.CellOf(j) == Raw;
    }
  }

  lemma StepKeepsAccounts<T>(r: Ring<T>, a: Action<T>)
    requires Invariant(r) && Enabled(r, a)
    ensures TokensConserved(Step(r, a)) && CountersFollow(Step(r, a))
  {
    WrapShift(|r.put|, 1);
    WrapShift(|r.got|, 1);
    if a.TakeCell? || a.DestroyCell? {
      EmptyKeepsWindow(r);
    }
  }

  lemma StepKeepsItemCount<T>(r: Ring<T>, a: Action<T>)
    requires Invariant(r) && Enabled(r, a)
    ensures ItemCountAccounted(Step(r, a))
  {
    var counted := r.items + One(r.producer.CountedUp?)
                   + One(r.consumer.ItemAcquired? || r.consumer.CellTaken?) + r.pops;
    WrapShift(counted, 1);
    WrapShift(counted, -1);
  }

  lemma StepKeepsInvariant<T>(r: Ring<T>, a: Action<T>)
    requires Invariant(r) && Enabled(r, a)
    ensures Invariant(Step(r, a))
  {
    StepKeepsAccounts(r, a);
    StepKeepsItemCount(r, a);
    if r.capacity > 0 {
      StepKeepsCells(r, a);
    }
  }

  // ----- whole runs -----

  /** The actions can be taken one after the other from r. */
  predicate Runs<T>(r: Ring<T>, actions: seq<Action<T>>)
    decreases |actions|
  {
    actions == [] || (Enabled(r, actions[0]) && Runs(Step(r, actions[0]), actions[1..]))
  }

  function Run<T>(r: Ring<T>, actions: seq<Action<T>>): Ring<T>
    requires Runs(r, actions)
    decreases |actions|
  {
    if actions == [] then r else Run(Step(r, actions[0]), actions[1..])
  }

  /** The items handed to enqueue calls that got their slot, in order. */
  function Submitted<T>(actions: seq<Action<T>>): seq<T> {
    if actions == [] then []
    else (if actions[0].AcquireSlot? then [actions[0].item] else []) + Submitted(actions[1..])
  }

  /** The item of an enqueue that has its slot but has not written its cell. */
  function InHand<T>(r: Ring<T>): seq<T> {
    if r.producer.SlotAcquired? then [r.producer.item] else []
  }

  lemma {:induction false} RunKeepsInvariant<T>(r: Ring<T>, actions: seq<Action<T>>)
    requires Invariant(r) && Runs(r, actions)
    ensures Invariant(Run(r, actions))
    decreases |actions|
  {
    if actions != [] {
      StepKeepsInvariant(r, actions[0]);
      RunKeepsInvariant(Step(r, actions[0]), actions[1..]);
    }
  }

  lemma {:induction false} RunWritesSubmissions<T>(r: Ring<T>, actions: seq<Action<T>>)
    requires Runs(r, actions)
    ensures var r' := Run(r, actions);
            && r'.capacity == r.capacity
            && r'.put + InHand(r') == r.put + InHand(r) + Submitted(actions)
    decreases |actions|
  {
    if actions != [] {
      StepWritesSubmission(r, actions[0]);
      RunWritesSubmissions(Step(r, actions[0]), actions[1..]);
    }
  }

  lemma StepWritesSubmission<T>(r: Ring<T>, a: Action<T>)
    requires Enabled(r, a)
    ensures Step(r, a).capacity == r.capacity
    ensures Step(r, a).put + InHand(Step(r, a)) == r.put + InHand(r) + if a.AcquireSlot? then [a.item] else []
  {
  }

  /**
   In every interleaving, of any length: what was taken out, then what is still held, then what the
   producer is about to write, is what was put in, in order; never more than the capacity is held;
   and no next action can fault.
   */
  lemma EveryInterleavingIsSafe<T>(capacity: nat, mask: Word, actions: seq<Action<T>>, next: Action<T>)
    requires capacity <= MAX_CAPACITY
    requires capacity > 0 ==> IsMask(mask, capacity) && mask < WORD_SIZE / 2
    requires Runs(Init(capacity, mask), actions)
    ensures var r := Run(Init(capacity, mask), actions);
            && r.got + r.Held() + InHand(r) == Submitted(actions)
            && |r.Held()| <= capacity
            && TokensConserved(r)
            && ItemCountAccounted(r)
            && (Enabled(r, next) ==> !Faults(r, next))
  {
    InitEstablishesInvariant<T>(capacity, mask);
    RunKeepsInvariant(Init(capacity, mask), actions);
    RunWritesSubmissions(Init(capacity, mask), actions);
    var r := Run(Init(capacity, mask), actions);
    assert r.got + r.Held() == r.put;
    if Enabled(r, next) {
      NoFault(r, next);
    }
  }

  /** A producer about to write and a consumer about to take are at different cells. */
  lemma ThreadsNeverShareCell<T>(r: Ring<T>)
    requires Invariant(r)
    requires r.producer.SlotAcquired? && (r.consumer.ItemAcquired? || r.consumer.PopAcquired?)
    ensures r.SlotIndex() != r.ItemIndex()
  {
    IndicesAreCyclic(r);
    DistinctCells(|r.got|, |r.put|, |r.cells|);
  }

  /** The two threads never wait for each other: an idle producer or an idle consumer can go on. */
  lemma NoDeadlock<T>(r: Ring<T>, item: T)
    requires Invariant(r) && r.capacity > 0
    ensures exists a: Action<T> :: Enabled(r, a)
  {
    var a := match r.producer
      case SlotAcquired(_) => WriteCell
      case CellWritten => CountUp
      case CountedUp => ReleaseItem
      case Resting =>
        match r.consumer
        case ItemAcquired => TakeCell
        case CellTaken => CountDown
        case CountedDown => ReleaseSlot
        case PopAcquired => DestroyCell
        case CellDestroyed => ReleasePopped
        case Idle => if r.slots > 0 then AcquireSlot(item) else AcquireItem;
    assert Enabled(r, a);
  }

  // ----- refinement of a bounded FIFO -----

  datatype FifoEvent<T> = Enqueued(item: T) | Dequeued(item: T) | NoEvent

  ghost predicate FifoStep<T>(capacity: nat, q: seq<T>, event: FifoEvent<T>, q': seq<T>) {
    match event
    case Enqueued(item) => |q| < capacity && q' == q + [item]
    case Dequeued(item) => q == [item] + q'
    case NoEvent => q' == q
  }

  /** An enqueue takes effect when its cell is written, a dequeue or pop when its cell is read. */
  function EventOf<T>(r: Ring<T>, a: Action<T>): FifoEvent<T>
    requires Enabled(r, a)
  {
    match a
    case WriteCell => Enqueued(r.producer.item)
    case TakeCell => EventOfRead(r)
    case DestroyCell => EventOfRead(r)
    case _ => NoEvent
  }

  function EventOfRead<T>(r: Ring<T>): FifoEvent<T> {
    match r.CellAt(r.ItemIndex())
    case Live(value) => Dequeued(value)
    case Raw => NoEvent
  }

  lemma StepRefinesFifo<T>(r: Ring<T>, a: Action<T>)
    requires Invariant(r) && Enabled(r, a)
    ensures FifoStep(r.capacity, r.Held(), EventOf(r, a), Step(r, a).Held())
    ensures a.TakeCell? || a.DestroyCell? ==> EventOf(r, a).Dequeued?
  {
    match a
    case WriteCell =>
      assert Step(r, a).Held() == r.Held() + [r.producer.item];
    case TakeCell => ReadRefinesDequeue(r);
    case DestroyCell => ReadRefinesDequeue(r);
    case _ =>
  }

  lemma ReadRefinesDequeue<T>(r: Ring<T>)
    requires Invariant(r) && (r.consumer.ItemAcquired? || r.consumer.PopAcquired?)
    ensures EventOfRead(r).Dequeued? && r.Held() == [EventOfRead(r).item] + EmptyCell(r).Held()
  {
    IndicesAreCyclic(r);
    assert r.CellAt(r.ItemIndex()) == r.CellOf(|r.got|) == Live(r.Held()[0]);
    EmptyKeepsWindow(r);
    assert EmptyCell(r).Held() == r.Held()[1..];
  }

  // ----- operations that run undisturbed -----

  ghost predicate AtRest<T>(r: Ring<T>) {
    Invariant(r) && r.producer.Resting? && r.consumer.Idle?
  }

  /** A whole enqueue, without a step of the consumer in between. */
  function Enqueue<T>(r: Ring<T>, item: T): Ring<T>
    requires r.slots > 0
  {
    r.(slots := r.slots - 1, cells := Put(r.cells, r.SlotIndex(), Live(item)), nextSlot := Wrap(r.nextSlot + 1),
       put := r.put + [item], itemCount := Wrap(r.itemCount + 1), items := r.items + 1)
  }

  function Dequeue<T>(r: Ring<T>): Ring<T>
    requires r.items > 0
  {
    EmptyCell(r).(items := r.items - 1, itemCount := Wrap(r.itemCount - 1), slots := r.slots + 1)
  }

  function Pop<T>(r: Ring<T>): Ring<T>
    requires r.items > 0
  {
    EmptyCell(r).(items := r.items - 1, pops := r.pops + 1, slots := r.slots + 1)
  }

  lemma EnqueueIsRun<T>(r: Ring<T>, item: T)
    requires r.producer.Resting? && r.slots > 0
    ensures var actions := [AcquireSlot(item), WriteCell, CountUp, ReleaseItem];
            Runs(r, actions) && Run(r, actions) == Enqueue(r, item)
  {
    RunOfFour(r, AcquireSlot(item), WriteCell, CountUp, ReleaseItem);
  }

  lemma DequeueIsRun<T>(r: Ring<T>)
    requires r.consumer.Idle? && r.items > 0
    ensures var actions := [AcquireItem, TakeCell, CountDown, ReleaseSlot];
            Runs(r, actions) && Run(r, actions) == Dequeue(r)
  {
    DequeueInSteps(r);
    RunOfFour(r, AcquireItem, TakeCell, CountDown, ReleaseSlot);
  }

  lemma DequeueInSteps<T>(r: Ring<T>)
    requires r.consumer.Idle? && r.items > 0
    ensures Step(Step(Step(Step(r, AcquireItem), TakeCell), CountDown), ReleaseSlot) == Dequeue(r)
  {
    EmptyCellReadsOnlyCells(r, Step(r, AcquireItem));
  }

  lemma PopIsRun<T>(r: Ring<T>)
    requires r.consumer.Idle? && r.items > 0
    ensures var actions := [AcquireForPop, DestroyCell, ReleasePopped];
            Runs(r, actions) && Run(r, actions) == Pop(r)
  {
    RunOfThree(r, AcquireForPop, DestroyCell, ReleasePopped);
    EmptyCellReadsOnlyCells(r, Step(r, AcquireForPop));
  }

  lemma EmptyCellReadsOnlyCells<T>(r: Ring<T>, r': Ring<T>)
    requires r'.cells == r.cells && r'.nextItem == r.nextItem && r'.mask == r.mask && r'.got == r.got
    ensures EmptyCell(r').cells == EmptyCell(r).cells && EmptyCell(r').got == EmptyCell(r).got
    ensures EmptyCell(r').nextItem == EmptyCell(r).nextItem
  {
  }

  lemma RunOne<T>(r: Ring<T>, a: Action<T>, rest: seq<Action<T>>)
    requires Enabled(r, a) && Runs(Step(r, a), rest)
    ensures Runs(r, [a] + rest) && Run(r, [a] + rest) == Run(Step(r, a), rest)
  {
    assert ([a] + rest)[1..] == rest;
  }

  lemma RunOfThree<T>(r: Ring<T>, a: Action<T>, b: Action<T>, c: Action<T>)
    requires Enabled(r, a) && Enabled(Step(r, a), b) && Enabled(Step(Step(r, a), b), c)
    ensures Runs(r, [a, b, c]) && Run(r, [a, b, c]) == Step(Step(Step(r, a), b), c)
  {
    RunOne(Step(Step(r, a), b), c, []);
    RunOne(Step(r, a), b, [c]);
    RunOne(r, a, [b, c]);
    assert [c] + [] == [c] && [b] + [c] == [b, c] && [a] + [b, c] == [a, b, c];
  }

  lemma RunOfFour<T>(r: Ring<T>, a: Action<T>, b: Action<T>, c: Action<T>, d: Action<T>)
    requires Enabled(r, a) && Enabled(Step(r, a), b) && Enabled(Step(Step(r, a), b), c)
    requires Enabled(Step(Step(Step(r, a), b), c), d)
    ensures Runs(r, [a, b, c, d]) && Run(r, [a, b, c, d]) == Step(Step(Step(Step(r, a), b), c), d)
  {
    RunOfThree(Step(r, a), b, c, d);
    RunOne(r, a, [b, c, d]);
    assert [a] + [b, c, d] == [a, b, c, d];
  }

  lemma EnqueueAppends<T>(r: Ring<T>, item: T)
    requires AtRest(r) && r.slots > 0
    ensures AtRest(Enqueue(r, item)) && Enqueue(r, item).Held() == r.Held() + [item]
    ensures r.SlotIndex() < |r.cells|
  {
    EnqueueIsRun(r, item);
    RunKeepsInvariant(r, [AcquireSlot(item), WriteCell, CountUp, ReleaseItem]);
    var r1 := Step(r, AcquireSlot(item));
    StepKeepsInvariant(r, AcquireSlot(item));
    NoFault(r1, WriteCell);
  }

  lemma DequeueTakesFirst<T>(r: Ring<T>)
    requires AtRest(r) && r.items > 0
    ensures AtRest(Dequeue(r)) && r.Held() != [] && Dequeue(r).Held() == r.Held()[1..]
    ensures r.ItemIndex() < |r.cells| && r.cells[r.ItemIndex()] == Live(r.Held()[0])
  {
    DequeueIsRun(r);
    RunKeepsInvariant(r, [AcquireItem, TakeCell, CountDown, ReleaseSlot]);
    StepKeepsInvariant(r, AcquireItem);
    ReadRefinesDequeue(Step(r, AcquireItem));
  }

  lemma PopDropsFirst<T>(r: Ring<T>)
    requires AtRest(r) && r.items > 0
    ensures AtRest(Pop(r)) && r.Held() != [] && Pop(r).Held() == r.Held()[1..]
    ensures r.ItemIndex() < |r.cells| && r.cells[r.ItemIndex()] == Live(r.Held()[0])
  {
    PopIsRun(r);
    RunKeepsInvariant(r, [AcquireForPop, DestroyCell, ReleasePopped]);
    StepKeepsInvariant(r, AcquireForPop);
    ReadRefinesDequeue(Step(r, AcquireForPop));
  }

  // ----- peek and the item count -----

  /** While nothing has been popped the count is exact enough to stay within the capacity. */
  lemma CountWithinCapacity<T>(r: Ring<T>)
    requires Invariant(r) && r.pops == 0
    ensures r.itemCount <= r.capacity
    ensures r.producer.Resting? && r.consumer.Idle? ==> r.itemCount == |r.Held()|
  {
  }

  /** `fetch_sub` wraps below zero exactly when the items, this one and all pops make a multiple of 2^64. */
  lemma CountDownUnderflowsExactlyWhen<T>(r: Ring<T>)
    requires Invariant(r) && r.consumer.CellTaken?
    ensures r.itemCount == 0 <==> Wrap(r.items + One(r.producer.CountedUp?) + 1 + r.pops) == 0
  {
  }

  /** So it does not until almost 2^64 pops have inflated the count. */
  lemma CountDownNeverUnderflows<T>(r: Ring<T>)
    requires Invariant(r) && r.consumer.CellTaken? && r.capacity + r.pops < WORD_SIZE
    ensures r.itemCount > 0
  {
  }

  /** The consumer between two operations sees the next item through `peek`. */
  ghost predicate PeekIsSound<T>(r: Ring<T>) {
    r.PeekIsNonNull() ==> r.Held() != [] && r.CellAt(r.ItemIndex()) == Live(r.Held()[0])
  }

  /**
   A pointer returned by `peek` to an idle consumer designates the item the next dequeue will
   return, exactly if an item is held or no pop (modulo 2^64 of them) has left the count too high.
   */
  lemma PeekSoundExactlyWhen<T>(r: Ring<T>)
    requires Invariant(r) && r.consumer.Idle?
    ensures PeekIsSound(r) <==> r.Held() != [] || Wrap(r.pops) == 0
  {
    if r.Held() != [] {
      IndicesAreCyclic(r);
      assert r.CellOf(|r.got|) == Live(r.put[|r.got|]);
    }
  }

  /** Popping the last item leaves `peek` pointing at the destroyed one. */
  lemma PopOfLastMakesPeekStale<T>(r: Ring<T>)
    requires AtRest(r) && |r.Held()| == 1 && r.items > 0 && Wrap(r.pops + 1) != 0
    ensures AtRest(Pop(r)) && Pop(r).Held() == [] && !PeekIsSound(Pop(r))
  {
    PopDropsFirst(r);
    PeekSoundExactlyWhen(Pop(r));
  }

  /** On a fresh queue of any capacity one enqueue and one pop suffice. */
  lemma PeekAfterPopIsStale<T>(capacity: nat, mask: Word, item: T)
    requires 0 < capacity <= MAX_CAPACITY && IsMask(mask, capacity) && mask < WORD_SIZE / 2
    ensures !PeekIsSound(Pop(Enqueue(Init(capacity, mask), item)))
  {
    var r := Init<T>(capacity, mask);
    InitEstablishesInvariant<T>(capacity, mask);
    EnqueueAppends(r, item);
    PopOfLastMakesPeekStale(Enqueue(r, item));
  }
}
