/**
 The polling protocol as a transition system. One thread serves the stream completion queue: it
 delivers alarms to `pollCallback` and completions to the streams. Other threads push events, ask to
 stop, or end streams at any moment, also between two pops of a callback. The `log` records what
 happened, so that whole runs can be accounted for.
 */
module PollSystem {
  import opened Fifos
  import opened Options
  import opened Polling

  /** The two plugin-to-clients queues. */
  datatype Source = Process | Main

  datatype Item<P> = Item(source: Source, payload: P)

  /** What became of an event popped from its queue. */
  datatype Fate = Consumed | Drained

  datatype Popped<P> = Popped(item: Item<P>, fate: Fate)

  /** Where the thread of the stream completion queue is in `pollCallback`, and for which alarm. */
  datatype Poller =
    | Resting
    | ConsumingProcess(alarm: nat, n: nat)
    | ConsumingMain(alarm: nat, n: nat)
    | DrainingProcess(alarm: nat, n: nat)
    | DrainingMain(alarm: nat, n: nat)
    | Returning(alarm: nat)
  {
    /** The alarm whose function is running: still in the table, but delivered. */
    function Serving(): set<nat> { if Resting? then {} else {alarm} }

    predicate Consuming() { ConsumingProcess? || ConsumingMain? }
    predicate Draining() { DrainingProcess? || DrainingMain? }
  }

  datatype Log<!S, P> = Log(
    accepted: seq<Item<P>>,          // pushes that found room
    popped: seq<Popped<P>>,          // pops, with what became of them
    delivered: seq<seq<Item<P>>>,    // batches at least one stream took
    drained: nat,                    // events counted by drainPollingQueue
    ran: seq<nat>,                   // alarms whose function has run
    joined: map<S, nat>,             // |delivered| when the stream entered Write
    late: map<S, nat>)               // deliveries to the stream from Disconnect on

  datatype World<!S, P> = World(
    shared: Shared<S, Item<P>>,
    tags: map<S, Stream<Item<P>>>,   // pendingTags: the streams alive
    alarms: set<nat>,                // pendingAlarmTags
    due: set<nat>,                   // alarms set whose completion has not been delivered
    nextAlarm: nat,                  // a fresh name for each alarm tag
    poller: Poller,
    log: Log<S, P>)
  {
    function Queue(source: Source): seq<Item<P>> {
      if source == Process then shared.processQueue else shared.mainQueue
    }
  }

  /** How the connection of a client turns out. */
  datatype Connection<S> = Connection(newcomer: S, authenticated: bool, available: bool)

  datatype Action<S, P> =
    | Push(item: Item<P>)
    | Stop
    | EndStreams
    | DeliverDone(stream: S)
    | DeliverStream(stream: S, ok: bool, connection: Connection<S>)
    | DeliverAlarm(alarm: nat, ok: bool)
    | PollerStep

  ghost predicate Enabled<S(!new), P(!new)>(w: World<S, P>, a: Action<S, P>) {
    match a
    case Push(_) => true
    case Stop => true
    case EndStreams => true
    case DeliverDone(s) => w.poller.Resting? && s in w.tags
    case DeliverStream(s, ok, c) => w.poller.Resting? && s in w.tags && c.newcomer !in w.tags
    case DeliverAlarm(alarm, ok) => w.poller.Resting? && alarm in w.due
    case PollerStep => !w.poller.Resting?
  }

  // ----- the steps -----

  ghost function WithQueue<S, P>(w: World<S, P>, source: Source, q: seq<Item<P>>): World<S, P> {
    if source == Process then w.(shared := w.shared.(processQueue := q)) else w.(shared := w.shared.(mainQueue := q))
  }

  ghost function AfterPush<S, P>(w: World<S, P>, item: Item<P>): World<S, P> {
    var q := w.Queue(item.source);
    if |q| < QUEUE_CAPACITY then
      WithQueue(w, item.source, q + [item]).(log := w.log.(accepted := w.log.accepted + [item]))
    else w
  }

  ghost function AfterPop<S, P>(w: World<S, P>, source: Source, fate: Fate): World<S, P>
    requires w.Queue(source) != []
  {
    var q := w.Queue(source);
    WithQueue(w, source, q[1..]).(log := w.log.(popped := w.log.popped + [Popped(q[0], fate)]))
  }

  ghost function AfterConsume<S, P>(w: World<S, P>, source: Source): World<S, P>
    requires w.Queue(source) != []
  {
    var w' := AfterPop(w, source, Consumed);
    w'.(shared := w'.shared.(batch := w'.shared.batch + [w.Queue(source)[0]]))
  }

  /** `enqueueFn` */
  ghost function Enqueue<S, P>(w: World<S, P>): World<S, P> {
    w.(alarms := w.alarms + {w.nextAlarm}, due := w.due + {w.nextAlarm}, nextAlarm := w.nextAlarm + 1)
  }

  ghost function AfterDecide<S, P>(w: World<S, P>, consumed: nat): World<S, P> {
    var round := Decide(w.shared, w.tags, consumed);
    var sent := consumed > 0 && AnyWriter(w.tags, w.shared.streams);
    var log := if sent then w.log.(delivered := w.log.delivered + [w.shared.batch]) else w.log;
    Enqueue(w.(shared := round.shared, tags := round.all, log := log))
  }

  ghost function AfterAlarm<S, P>(w: World<S, P>, alarm: nat, ok: bool): World<S, P> {
    if EndsSession(w.shared, ok) then
      w.(shared := w.shared.(running := false), tags := EndStreamsIfStopped(w.shared, w.tags, ok),
         due := w.due - {alarm}, poller := DrainingProcess(alarm, 0))
    else
      w.(due := w.due - {alarm}, poller := ConsumingProcess(alarm, 0))
  }

  ghost function AfterPollerStep<S, P>(w: World<S, P>): World<S, P>
    requires !w.poller.Resting?
  {
    match w.poller
    case ConsumingProcess(alarm, n) =>
      if w.shared.processQueue != [] then AfterConsume(w, Process).(poller := ConsumingProcess(alarm, n + 1))
      else w.(poller := ConsumingMain(alarm, n))
    case ConsumingMain(alarm, n) =>
      if w.shared.mainQueue != [] then AfterConsume(w, Main).(poller := ConsumingMain(alarm, n + 1))
      else AfterDecide(w, n).(poller := Returning(alarm))
    case DrainingProcess(alarm, n) =>
      if w.shared.processQueue != [] then AfterPop(w, Process, Drained).(poller := DrainingProcess(alarm, n + 1))
      else w.(poller := DrainingMain(alarm, n))
    case DrainingMain(alarm, n) =>
      if w.shared.mainQueue != [] then AfterPop(w, Main, Drained).(poller := DrainingMain(alarm, n + 1))
      else w.(poller := Returning(alarm), log := w.log.(drained := w.log.drained + n))
    case Returning(alarm) =>
      w.(poller := Resting, alarms := w.alarms - {alarm}, log := w.log.(ran := w.log.ran + [alarm]))
  }

  ghost function SetPhase<S, P>(w: World<S, P>, s: S, phase: Phase): World<S, P>
    requires s in w.tags
  {
    w.(tags := w.tags[s := w.tags[s].(phase := phase)])
  }

  /** `parent->create<ServerEventStream>()` */
  ghost function Create<S, P>(w: World<S, P>, s: S): World<S, P> {
    w.(tags := w.tags[s := Stream(Connect, [])],
       log := w.log.(joined := w.log.joined[s := 0], late := w.log.late[s := 0]))
  }

  /** `ServerEventStream::kill` */
  ghost function Kill<S, P>(w: World<S, P>, s: S): World<S, P> {
    w.(shared := w.shared.(streams := w.shared.streams - {s}), tags := w.tags - {s},
       log := w.log.(joined := w.log.joined - {s}, late := w.log.late - {s}))
  }

  /** A client connects: register the stream, start polling if it does not run yet, begin to write. */
  ghost function Admit<S, P>(w: World<S, P>, s: S, available: bool): World<S, P>
    requires s in w.tags
  {
    var joined := w.(shared := w.shared.(streams := w.shared.streams + {s}),
                     log := w.log.(joined := w.log.joined[s := |w.log.delivered|]));
    var polling := joined.(shared := TryStartPolling(joined.shared, available));
    var armed := if StartsPolling(joined.shared, available) then Enqueue(polling) else polling;
    SetPhase(armed, s, Write)
  }

  /** `ServerEventStream::process` */
  ghost function AfterStream<S, P>(w: World<S, P>, s: S, ok: bool, c: Connection<S>): World<S, P>
    requires s in w.tags
  {
    match w.tags[s].phase
    case Connect =>
      if !ok then Kill(w, s)
      else
        var w' := Create(w, c.newcomer);
        if c.authenticated then Admit(w', s, c.available) else SetPhase(w', s, Finish)
    case Write => if ok then w else SetPhase(w, s, Disconnect)
    case Disconnect => SetPhase(w, s, Finish).(log := w.log.(late := w.log.late[s := Late(w, s) + 1]))
    case Finish => Kill(w, s)
  }

  ghost function Late<S, P>(w: World<S, P>, s: S): nat {
    if s in w.log.late then w.log.late[s] else 0
  }

  ghost function Step<S(!new), P(!new)>(w: World<S, P>, a: Action<S, P>): World<S, P>
    requires Enabled(w, a)
  {
    match a
    case Push(item) => AfterPush(w, item)
    case Stop => w.(shared := StopPoll(w.shared))
    case EndStreams => w.(tags := EndAll(w.tags, w.shared.streams))
    case DeliverDone(s) => SetPhase(w, s, Finish)
    case DeliverStream(s, ok, c) => AfterStream(w, s, ok, c)
    case DeliverAlarm(alarm, ok) => AfterAlarm(w, alarm, ok)
    case PollerStep => AfterPollerStep(w)
  }

  /** A plugin is registered, its server serves, and the first stream waits for a client. */
  ghost function Init<S, P>(first: S): World<S, P> {
    World(Shared(true, false, {}, [], false, false, POLL_FREQ_NS, [], []),
          map[first := Stream(Connect, [])], {}, {}, 0, Resting,
          Log([], [], [], 0, [], map[first := 0], map[first := 0]))
  }

  // ----- the ledger of events -----

  /** The part of the world that events pass through; `draining` counts a drain in progress. */
  datatype Ledger<P> = Ledger(
    accepted: seq<Item<P>>,
    processQueue: seq<Item<P>>,
    mainQueue: seq<Item<P>>,
    popped: seq<Popped<P>>,
    batch: seq<Item<P>>,
    delivered: seq<seq<Item<P>>>,
    draining: nat,
    drained: nat)
  {
    function Queue(source: Source): seq<Item<P>> {
      if source == Process then processQueue else mainQueue
    }

    function WithQueue(source: Source, q: seq<Item<P>>): Ledger<P> {
      if source == Process then this.(processQueue := q) else this.(mainQueue := q)
    }

    function Pushed(item: Item<P>): Ledger<P> {
      var q := Queue(item.source);
      if |q| < QUEUE_CAPACITY then WithQueue(item.source, q + [item]).(accepted := accepted + [item]) else this
    }

    function PoppedFrom(source: Source, fate: Fate): Ledger<P>
      requires Queue(source) != []
    {
      var q := Queue(source);
      WithQueue(source, q[1..]).(popped := popped + [Popped(q[0], fate)])
    }

    function ConsumedFrom(source: Source): Ledger<P>
      requires Queue(source) != []
    {
      PoppedFrom(source, Consumed).(batch := batch + [Queue(source)[0]])
    }

    function DrainedFrom(source: Source): Ledger<P>
      requires Queue(source) != []
    {
      PoppedFrom(source, Drained).(draining := draining + 1)
    }

    function Sent(): Ledger<P> {
      this.(delivered := delivered + [batch], batch := [])
    }

    function Counted(): Ledger<P> {
      this.(drained := drained + draining, draining := 0)
    }
  }

  function LedgerOf<S, P>(w: World<S, P>): Ledger<P> {
    Ledger(w.log.accepted, w.shared.processQueue, w.shared.mainQueue, w.log.popped, w.shared.batch, w.log.delivered,
           if w.poller.Draining() then w.poller.n else 0, w.log.drained)
  }

  function OfSource<P>(items: seq<Item<P>>, source: Source): seq<Item<P>> {
    if items == [] then []
    else OfSource(items[..|items| - 1], source)
         + if items[|items| - 1].source == source then [items[|items| - 1]] else []
  }

  function ItemsOf<P>(popped: seq<Popped<P>>): seq<Item<P>> {
    seq(|popped|, i requires 0 <= i < |popped| => popped[i].item)
  }

  /** The events with the given fate, in the order they were popped. */
  function WithFate<P>(popped: seq<Popped<P>>, fate: Fate): seq<Item<P>> {
    if popped == [] then []
    else WithFate(popped[..|popped| - 1], fate)
         + if popped[|popped| - 1].fate == fate then [popped[|popped| - 1].item] else []
  }

  function Flatten<T>(batches: seq<seq<T>>): seq<T> {
    if batches == [] then [] else Flatten(batches[..|batches| - 1]) + batches[|batches| - 1]
  }

  /** A queue's accepted events are those popped, then those still queued, in order. */
  ghost predicate QueueBalanced<P>(
    source: Source, accepted: seq<Item<P>>, popped: seq<Popped<P>>, queue: seq<Item<P>>)
  {
    && OfSource(accepted, source) == OfSource(ItemsOf(popped), source) + queue
    && |queue| <= QUEUE_CAPACITY
    && forall i :: 0 <= i < |queue| ==> queue[i].source == source
  }

  /**
   No event is lost, doubled or reordered: each queue balances; the consumed events are those in
   sent batches, then those retained, in order; all others were drained, and counted.
   */
  ghost predicate Balanced<P>(l: Ledger<P>) {
    && QueueBalanced(Process, l.accepted, l.popped, l.processQueue)
    && QueueBalanced(Main, l.accepted, l.popped, l.mainQueue)
    && Flatten(l.delivered) + l.batch == WithFate(l.popped, Consumed)
    && l.drained + l.draining == |WithFate(l.popped, Drained)|
  }

  lemma OfSourceAppend<P>(items: seq<Item<P>>, item: Item<P>, source: Source)
    ensures OfSource(items + [item], source)
         == OfSource(items, source) + if item.source == source then [item] else []
  {
    assert (items + [item])[..|items|] == items;
  }

  lemma WithFateAppend<P>(popped: seq<Popped<P>>, p: Popped<P>, fate: Fate)
    ensures WithFate(popped + [p], fate) == WithFate(popped, fate) + if p.fate == fate then [p.item] else []
  {
    assert (popped + [p])[..|popped|] == popped;
  }

  lemma FlattenAppend<T>(batches: seq<seq<T>>, batch: seq<T>)
    ensures Flatten(batches + [batch]) == Flatten(batches) + batch
  {
    assert (batches + [batch])[..|batches|] == batches;
  }

  lemma EmptyIsBalanced<P>()
    ensures Balanced<P>(Ledger([], [], [], [], [], [], 0, 0))
  {
    assert ItemsOf<P>([]) == [];
  }

  lemma PushKeepsQueue<P>(
    source: Source, accepted: seq<Item<P>>, popped: seq<Popped<P>>, queue: seq<Item<P>>, item: Item<P>)
    requires QueueBalanced(source, accepted, popped, queue) && |queue| < QUEUE_CAPACITY
    ensures QueueBalanced(source, accepted + [item], popped, if item.source == source then queue + [item] else queue)
  {
    OfSourceAppend(accepted, item, source);
  }

  lemma OtherPushKeepsQueue<P>(
    source: Source, accepted: seq<Item<P>>, popped: seq<Popped<P>>, queue: seq<Item<P>>, item: Item<P>)
    requires QueueBalanced(source, accepted, popped, queue) && item.source != source
    ensures QueueBalanced(source, accepted + [item], popped, queue)
  {
    OfSourceAppend(accepted, item, source);
  }

  lemma PushedIsBalanced<P>(l: Ledger<P>, item: Item<P>)
    requires Balanced(l)
    ensures Balanced(l.Pushed(item))
  {
    if |l.Queue(item.source)| < QUEUE_CAPACITY {
      if item.source == Process {
        PushKeepsQueue(Process, l.accepted, l.popped, l.processQueue, item);
        OtherPushKeepsQueue(Main, l.accepted, l.popped, l.mainQueue, item);
      } else {
        PushKeepsQueue(Main, l.accepted, l.popped, l.mainQueue, item);
        OtherPushKeepsQueue(Process, l.accepted, l.popped, l.processQueue, item);
      }
    }
  }

  lemma PopKeepsQueue<P>(
    source: Source, accepted: seq<Item<P>>, popped: seq<Popped<P>>, queue: seq<Item<P>>, p: Popped<P>)
    requires QueueBalanced(source, accepted, popped, queue)
    requires p.item.source == source ==> queue != [] && p.item == queue[0]
    ensures QueueBalanced(source, accepted, popped + [p], if p.item.source == source then queue[1..] else queue)
  {
    assert ItemsOf(popped + [p]) == ItemsOf(popped) + [p.item];
    OfSourceAppend(ItemsOf(popped), p.item, source);
    if p.item.source == source {
      assert queue == [p.item] + queue[1..];
    }
  }

  lemma PopKeepsQueues<P>(l: Ledger<P>, source: Source, fate: Fate)
    requires Balanced(l) && l.Queue(source) != []
    ensures var l' := l.PoppedFrom(source, fate);
            && QueueBalanced(Process, l'.accepted, l'.popped, l'.processQueue)
            && QueueBalanced(Main, l'.accepted, l'.popped, l'.mainQueue)
            && WithFate(l'.popped, Consumed)
            == WithFate(l.popped, Consumed) + (if fate == Consumed then [l.Queue(source)[0]] else [])
            && WithFate(l'.popped, Drained)
            == WithFate(l.popped, Drained) + (if fate == Drained then [l.Queue(source)[0]] else [])
  {
    var p := Popped(l.Queue(source)[0], fate);
    PopKeepsQueue(Process, l.accepted, l.popped, l.processQueue, p);
    PopKeepsQueue(Main, l.accepted, l.popped, l.mainQueue, p);
    WithFateAppend(l.popped, p, Consumed);
    WithFateAppend(l.popped, p, Drained);
  }

  lemma PoppedIsBalanced<P>(l: Ledger<P>, source: Source)
    requires Balanced(l) && l.Queue(source) != []
    ensures Balanced(l.ConsumedFrom(source)) && Balanced(l.DrainedFrom(source))
  {
    PopKeepsQueues(l, source, Consumed);
    PopKeepsQueues(l, source, Drained);
  }

  lemma SentIsBalanced<P>(l: Ledger<P>)
    requires Balanced(l)
    ensures Balanced(l.Sent())
  {
    FlattenAppend(l.delivered, l.batch);
  }

  /** What a step of the poller does to the ledger. */
  ghost function LedgerAfterPoller<S, P>(w: World<S, P>): Ledger<P> {
    var l := LedgerOf(w);
    match w.poller
    case ConsumingProcess(_, _) => if l.processQueue != [] then l.ConsumedFrom(Process) else l
    case ConsumingMain(_, n) =>
      if l.mainQueue != [] then l.ConsumedFrom(Main)
      else if n > 0 && AnyWriter(w.tags, w.shared.streams) then l.Sent() else l
    case DrainingProcess(_, _) => if l.processQueue != [] then l.DrainedFrom(Process) else l
    case DrainingMain(_, _) => if l.mainQueue != [] then l.DrainedFrom(Main) else l.Counted()
    case _ => l
  }

  lemma PollerMovesLedger<S, P>(w: World<S, P>)
    requires !w.poller.Resting?
    ensures LedgerOf(AfterPollerStep(w)) == LedgerAfterPoller(w)
  {
  }

  lemma StepMovesLedger<S(!new), P(!new)>(w: World<S, P>, a: Action<S, P>)
    requires Enabled(w, a)
    ensures LedgerOf(Step(w, a))
         == match a
            case Push(item) => LedgerOf(w).Pushed(item)
            case PollerStep => LedgerAfterPoller(w)
            case _ => LedgerOf(w)
  {
    if a.PollerStep? {
      PollerMovesLedger(w);
    }
  }

  lemma StepKeepsBalance<S(!new), P(!new)>(w: World<S, P>, a: Action<S, P>)
    requires Balanced(LedgerOf(w)) && Enabled(w, a)
    ensures Balanced(LedgerOf(Step(w, a)))
  {
    StepMovesLedger(w, a);
    if a.Push? {
      PushedIsBalanced(LedgerOf(w), a.item);
    } else if a.PollerStep? {
      PollerKeepsBalance(w);
    }
  }

  lemma PollerKeepsBalance<S, P>(w: World<S, P>)
    requires Balanced(LedgerOf(w))
    ensures Balanced(LedgerAfterPoller(w))
  {
    var l := LedgerOf(w);
    if l.processQueue != [] {
      PoppedIsBalanced(l, Process);
    }
    if l.mainQueue != [] {
      PoppedIsBalanced(l, Main);
    }
    SentIsBalanced(l);
  }

  // ----- alarms and streams -----

  /** The alarms not yet run are the last ones enqueued: one while polling runs, plus the one being run. */
  ghost predicate AlarmsAccounted(ran: seq<nat>, alarms: set<nat>, next: nat, running: bool, poller: Poller) {
    && (forall i :: 0 <= i < |ran| ==> ran[i] == i)
    && |ran| <= next
    && (forall i: nat :: i in alarms <==> |ran| <= i < next)
    && match poller
       case Resting => next - |ran| == if running then 1 else 0
       case Returning(a) => a == |ran| && next - a == if running then 2 else 1
       case _ => poller.alarm == |ran| == next - 1 && running == poller.Consuming()
  }

  /** The table holds the alarms with an undelivered completion and the one being served. */
  ghost predicate TableMatchesDue(alarms: set<nat>, due: set<nat>, poller: Poller) {
    alarms == due + poller.Serving() && due !! poller.Serving()
  }

  /** What a stream was sent is a stretch of the delivered batches, up to date while it is in Write. */
  ghost predicate StreamAccounted<E>(
    stream: Stream<E>, registered: bool, from: nat, late: nat, delivered: seq<seq<E>>)
  {
    && from + |stream.written| <= |delivered|
    && stream.written == delivered[from..from + |stream.written|]
    && (stream.phase == Connect ==> !registered && stream.written == [])
    && (stream.phase == Write ==> registered && from + |stream.written| == |delivered|)
    && late <= if stream.phase == Finish then 1 else 0
  }

  /** Every registered stream is alive, and every live stream is accounted for. */
  ghost predicate StreamsAccounted<S(!new), E>(
    tags: map<S, Stream<E>>, registered: set<S>, joined: map<S, nat>, late: map<S, nat>, delivered: seq<seq<E>>)
  {
    && registered <= tags.Keys
    && joined.Keys == tags.Keys && late.Keys == tags.Keys
    && forall s :: s in tags ==> StreamAccounted(tags[s], s in registered, joined[s], late[s], delivered)
  }

  /** The part of the invariant about alarms and streams. */
  ghost predicate TagsAccounted<S(!new), P>(w: World<S, P>) {
    AgendaAccounted(w) && AudienceAccounted(w)
  }

  ghost predicate Invariant<S(!new), P(!new)>(w: World<S, P>) {
    Balanced(LedgerOf(w)) && TagsAccounted(w) && IsBackoff(w.shared.backoff)
  }

  lemma InitEstablishesInvariant<S(!new), P(!new)>(first: S)
    ensures Invariant(Init<S, P>(first))
  {
    var w := Init<S, P>(first);
    EmptyIsBalanced<P>();
    assert LedgerOf(w) == Ledger([], [], [], [], [], [], 0, 0);
    assert Doubled(0) == POLL_FREQ_NS;
  }

  lemma EnqueueKeepsAlarms(ran: seq<nat>, alarms: set<nat>, next: nat, alarm: nat)
    requires AlarmsAccounted(ran, alarms, next, true, ConsumingMain(alarm, 0))
    ensures AlarmsAccounted(ran, alarms + {next}, next + 1, true, Returning(alarm))
  {
  }

  lemma StartKeepsAlarms(ran: seq<nat>, alarms: set<nat>, next: nat)
    requires AlarmsAccounted(ran, alarms, next, false, Resting)
    ensures AlarmsAccounted(ran, alarms + {next}, next + 1, true, Resting)
  {
  }

  lemma ReturnKeepsAlarms(ran: seq<nat>, alarms: set<nat>, next: nat, running: bool, alarm: nat)
    requires AlarmsAccounted(ran, alarms, next, running, Returning(alarm))
    ensures AlarmsAccounted(ran + [alarm], alarms - {alarm}, next, running, Resting)
  {
  }

  /** The alarm that is delivered is the only one, and polling was running. */
  lemma DeliveredAlarmIsTheOne(ran: seq<nat>, alarms: set<nat>, next: nat, running: bool, alarm: nat)
    requires AlarmsAccounted(ran, alarms, next, running, Resting) && alarm in alarms
    ensures running && alarm == |ran| == next - 1
  {
  }

  ghost predicate AgendaAccounted<S, P>(w: World<S, P>) {
    && AlarmsAccounted(w.log.ran, w.alarms, w.nextAlarm, w.shared.running, w.poller)
    && TableMatchesDue(w.alarms, w.due, w.poller)
    && (w.shared.running ==> w.shared.plugin && w.shared.cq)
  }

  lemma PollerKeepsAgenda<S, P>(w: World<S, P>)
    requires AgendaAccounted(w) && !w.poller.Resting?
    ensures AgendaAccounted(AfterPollerStep(w))
  {
    match w.poller
    case ConsumingMain(alarm, _) => EnqueueKeepsAlarms(w.log.ran, w.alarms, w.nextAlarm, alarm);
    case Returning(alarm) => ReturnKeepsAlarms(w.log.ran, w.alarms, w.nextAlarm, w.shared.running, alarm);
    case _ =>
  }

  lemma StreamKeepsAgenda<S, P>(w: World<S, P>, s: S, ok: bool, c: Connection<S>)
    requires AgendaAccounted(w) && w.poller.Resting? && s in w.tags
    ensures AgendaAccounted(AfterStream(w, s, ok, c))
  {
    if !w.shared.running {
      StartKeepsAlarms(w.log.ran, w.alarms, w.nextAlarm);
    }
  }

  lemma StepKeepsAgenda<S(!new), P(!new)>(w: World<S, P>, a: Action<S, P>)
    requires AgendaAccounted(w) && Enabled(w, a)
    ensures AgendaAccounted(Step(w, a))
  {
    match a
    case DeliverAlarm(alarm, _) =>
      DeliveredAlarmIsTheOne(w.log.ran, w.alarms, w.nextAlarm, w.shared.running, alarm);
    case DeliverStream(s, ok, c) => StreamKeepsAgenda(w, s, ok, c);
    case PollerStep => PollerKeepsAgenda(w);
    case _ =>
  }

  // ----- streams -----

  lemma EndAllKeepsStreams<S(!new), E>(
    tags: map<S, Stream<E>>, registered: set<S>, joined: map<S, nat>, late: map<S, nat>, delivered: seq<seq<E>>)
    requires StreamsAccounted(tags, registered, joined, late, delivered)
    ensures StreamsAccounted(EndAll(tags, registered), registered, joined, late, delivered)
  {
    var tags' := EndAll(tags, registered);
    forall s | s in tags'
      ensures StreamAccounted(tags'[s], s in registered, joined[s], late[s], delivered)
    {
      assert StreamAccounted(tags[s], s in registered, joined[s], late[s], delivered);
    }
  }

  lemma BroadcastKeepsStreams<S(!new), E>(
    tags: map<S, Stream<E>>, registered: set<S>, joined: map<S, nat>, late: map<S, nat>, delivered: seq<seq<E>>,
    batch: seq<E>)
    requires StreamsAccounted(tags, registered, joined, late, delivered)
    ensures StreamsAccounted(Broadcast(tags, registered, batch), registered, joined, late, delivered + [batch])
  {
    var tags' := Broadcast(tags, registered, batch);
    forall s | s in tags'
      ensures StreamAccounted(tags'[s], s in registered, joined[s], late[s], delivered + [batch])
    {
      assert StreamAccounted(tags[s], s in registered, joined[s], late[s], delivered);
    }
  }

  lemma UpdateKeepsStreams<S(!new), E>(
    tags: map<S, Stream<E>>, registered: set<S>, joined: map<S, nat>, late: map<S, nat>, delivered: seq<seq<E>>,
    s: S, stream: Stream<E>, member: bool, from: nat, lateness: nat)
    requires StreamsAccounted(tags, registered, joined, late, delivered)
    requires StreamAccounted(stream, member, from, lateness, delivered)
    ensures StreamsAccounted(tags[s := stream], if member then registered + {s} else registered - {s},
                             joined[s := from], late[s := lateness], delivered)
  {
    var registered' := if member then registered + {s} else registered - {s};
    forall t | t in tags[s := stream]
      ensures StreamAccounted(tags[s := stream][t], t in registered', joined[s := from][t], late[s := lateness][t],
                              delivered)
    {
      assert t != s ==> StreamAccounted(tags[t], t in registered, joined[t], late[t], delivered);
    }
  }

  lemma RemovalKeepsStreams<S(!new), E>(
    tags: map<S, Stream<E>>, registered: set<S>, joined: map<S, nat>, late: map<S, nat>, delivered: seq<seq<E>>, s: S)
    requires StreamsAccounted(tags, registered, joined, late, delivered)
    ensures StreamsAccounted(tags - {s}, registered - {s}, joined - {s}, late - {s}, delivered)
  {
    forall t | t in tags - {s}
      ensures StreamAccounted((tags - {s})[t], t in registered - {s}, (joined - {s})[t], (late - {s})[t], delivered)
    {
      assert StreamAccounted(tags[t], t in registered, joined[t], late[t], delivered);
    }
  }

  ghost predicate AudienceAccounted<S(!new), P>(w: World<S, P>) {
    StreamsAccounted(w.tags, w.shared.streams, w.log.joined, w.log.late, w.log.delivered)
  }

  /** The next step of the poller broadcasts the batch, to at least one taker. */
  ghost predicate Sends<S, P>(w: World<S, P>) {
    && w.poller.ConsumingMain? && w.shared.mainQueue == []
    && w.poller.n > 0 && AnyWriter(w.tags, w.shared.streams)
  }

  /** The part of the world that streams see. */
  datatype Audience<!S, P> = Audience(
    streams: set<S>, tags: map<S, Stream<Item<P>>>, joined: map<S, nat>, late: map<S, nat>,
    delivered: seq<seq<Item<P>>>, stop: bool)

  function AudienceOf<S, P>(w: World<S, P>): Audience<S, P> {
    Audience(w.shared.streams, w.tags, w.log.joined, w.log.late, w.log.delivered, w.shared.stop)
  }

  lemma PopMovesNoAudience<S, P>(w: World<S, P>, source: Source, fate: Fate)
    requires w.Queue(source) != []
    ensures AudienceOf(AfterPop(w, source, fate)) == AudienceOf(w)
  {
  }

  lemma DecideMovesAudience<S, P>(w: World<S, P>, n: nat)
    ensures AudienceOf(AfterDecide(w, n))
         == if n > 0 && AnyWriter(w.tags, w.shared.streams)
            then AudienceOf(w).(tags := Broadcast(w.tags, w.shared.streams, w.shared.batch),
                                delivered := w.log.delivered + [w.shared.batch])
            else AudienceOf(w)
  {
  }

  lemma PollerMovesAudience<S, P>(w: World<S, P>)
    requires !w.poller.Resting?
    ensures AudienceOf(AfterPollerStep(w))
         == if Sends(w)
            then AudienceOf(w).(tags := Broadcast(w.tags, w.shared.streams, w.shared.batch),
                                delivered := w.log.delivered + [w.shared.batch])
            else AudienceOf(w)
  {
    match w.poller
    case ConsumingProcess(_, _) => if w.Queue(Process) != [] { PopMovesNoAudience(w, Process, Consumed); }
    case ConsumingMain(_, n) =>
      if w.Queue(Main) != [] {
        PopMovesNoAudience(w, Main, Consumed);
      } else {
        DecideMovesAudience(w, n);
      }
    case DrainingProcess(_, _) => if w.Queue(Process) != [] { PopMovesNoAudience(w, Process, Drained); }
    case DrainingMain(_, _) => if w.Queue(Main) != [] { PopMovesNoAudience(w, Main, Drained); }
    case Returning(_) =>
  }

  lemma PollerKeepsAudience<S(!new), P>(w: World<S, P>)
    requires AudienceAccounted(w) && !w.poller.Resting?
    ensures AudienceAccounted(AfterPollerStep(w))
  {
    PollerMovesAudience(w);
    BroadcastKeepsStreams(w.tags, w.shared.streams, w.log.joined, w.log.late, w.log.delivered, w.shared.batch);
    assert AudienceAccounted(w) == WellServed(AudienceOf(w));
    assert AudienceAccounted(AfterPollerStep(w)) == WellServed(AudienceOf(AfterPollerStep(w)));
  }

  ghost predicate WellServed<S(!new), P>(a: Audience<S, P>) {
    StreamsAccounted(a.tags, a.streams, a.joined, a.late, a.delivered)
  }

  /** A live stream changes its state and lateness, and nothing else. */
  lemma PhaseKeepsAudience<S(!new), P>(w: World<S, P>, s: S, phase: Phase, lateness: nat)
    requires AudienceAccounted(w) && s in w.tags
    requires StreamAccounted(w.tags[s].(phase := phase), s in w.shared.streams, w.log.joined[s], lateness,
                             w.log.delivered)
    ensures AudienceAccounted(SetPhase(w, s, phase).(log := w.log.(late := w.log.late[s := lateness])))
  {
    UpdateKeepsStreams(w.tags, w.shared.streams, w.log.joined, w.log.late, w.log.delivered,
                       s, w.tags[s].(phase := phase), s in w.shared.streams, w.log.joined[s], lateness);
    assert w.log.joined[s := w.log.joined[s]] == w.log.joined;
    assert w.shared.streams == if s in w.shared.streams then w.shared.streams + {s} else w.shared.streams - {s};
  }

  lemma FinishKeepsAudience<S(!new), P>(w: World<S, P>, s: S)
    requires AudienceAccounted(w) && s in w.tags
    ensures AudienceAccounted(SetPhase(w, s, Finish))
  {
    assert StreamAccounted(w.tags[s], s in w.shared.streams, w.log.joined[s], w.log.late[s], w.log.delivered);
    PhaseKeepsAudience(w, s, Finish, w.log.late[s]);
    assert w.log.late[s := w.log.late[s]] == w.log.late;
    assert SetPhase(w, s, Finish).(log := w.log.(late := w.log.late)) == SetPhase(w, s, Finish);
  }

  lemma CreateKeepsAudience<S(!new), P>(w: World<S, P>, s: S)
    requires AudienceAccounted(w) && s !in w.tags
    ensures AudienceAccounted(Create(w, s))
  {
    UpdateKeepsStreams(w.tags, w.shared.streams, w.log.joined, w.log.late, w.log.delivered,
                       s, Stream(Connect, []), false, 0, 0);
    assert w.shared.streams - {s} == w.shared.streams;
  }

  lemma AdmitKeepsAudience<S(!new), P>(w: World<S, P>, s: S, available: bool)
    requires AudienceAccounted(w) && s in w.tags && w.tags[s].phase == Connect
    ensures AudienceAccounted(Admit(w, s, available))
  {
    assert StreamAccounted(w.tags[s], s in w.shared.streams, w.log.joined[s], w.log.late[s], w.log.delivered);
    UpdateKeepsStreams(w.tags, w.shared.streams, w.log.joined, w.log.late, w.log.delivered,
                       s, w.tags[s].(phase := Write), true, |w.log.delivered|, w.log.late[s]);
    assert w.log.late[s := w.log.late[s]] == w.log.late;
  }

  lemma StreamKeepsAudience<S(!new), P>(w: World<S, P>, s: S, ok: bool, c: Connection<S>)
    requires AudienceAccounted(w) && s in w.tags && c.newcomer !in w.tags
    ensures AudienceAccounted(AfterStream(w, s, ok, c))
  {
    assert StreamAccounted(w.tags[s], s in w.shared.streams, w.log.joined[s], w.log.late[s], w.log.delivered);
    match w.tags[s].phase
    case Connect =>
      if !ok {
        RemovalKeepsStreams(w.tags, w.shared.streams, w.log.joined, w.log.late, w.log.delivered, s);
      } else {
        CreateKeepsAudience(w, c.newcomer);
        if c.authenticated {
          AdmitKeepsAudience(Create(w, c.newcomer), s, c.available);
        } else {
          FinishKeepsAudience(Create(w, c.newcomer), s);
        }
      }
    case Write =>
      if !ok {
        PhaseKeepsAudience(w, s, Disconnect, w.log.late[s]);
        assert w.log.late[s := w.log.late[s]] == w.log.late;
        assert SetPhase(w, s, Disconnect).(log := w.log.(late := w.log.late)) == SetPhase(w, s, Disconnect);
      }
    case Disconnect => PhaseKeepsAudience(w, s, Finish, w.log.late[s] + 1);
    case Finish => RemovalKeepsStreams(w.tags, w.shared.streams, w.log.joined, w.log.late, w.log.delivered, s);
  }

  lemma StepKeepsAudience<S(!new), P(!new)>(w: World<S, P>, a: Action<S, P>)
    requires AudienceAccounted(w) && Enabled(w, a)
    ensures AudienceAccounted(Step(w, a))
  {
    match a
    case EndStreams => EndAllKeepsStreams(w.tags, w.shared.streams, w.log.joined, w.log.late, w.log.delivered);
    case DeliverDone(s) => FinishKeepsAudience(w, s);
    case DeliverStream(s, ok, c) => StreamKeepsAudience(w, s, ok, c);
    case DeliverAlarm(alarm, ok) => AlarmKeepsAudience(w, alarm, ok);
    case PollerStep => PollerKeepsAudience(w);
    case _ =>
  }

  lemma AlarmKeepsAudience<S(!new), P>(w: World<S, P>, alarm: nat, ok: bool)
    requires AudienceAccounted(w)
    ensures AudienceAccounted(AfterAlarm(w, alarm, ok))
  {
    EndAllKeepsStreams(w.tags, w.shared.streams, w.log.joined, w.log.late, w.log.delivered);
  }

  lemma StepMovesBackoff<S(!new), P(!new)>(w: World<S, P>, a: Action<S, P>)
    requires Enabled(w, a)
    ensures Step(w, a).shared.backoff in {w.shared.backoff, NextBackoff(w.shared.backoff), POLL_FREQ_NS}
  {
    if a.PollerStep? {
      PollerMovesBackoff(w);
    }
  }

  lemma PollerMovesBackoff<S, P>(w: World<S, P>)
    requires !w.poller.Resting?
    ensures AfterPollerStep(w).shared.backoff in {w.shared.backoff, NextBackoff(w.shared.backoff), POLL_FREQ_NS}
  {
  }

  /** The back-off changes by doubling and settling, and by the reset after a batch was sent. */
  lemma StepKeepsBackoff<S(!new), P(!new)>(w: World<S, P>, a: Action<S, P>)
    requires IsBackoff(w.shared.backoff) && Enabled(w, a)
    ensures IsBackoff(Step(w, a).shared.backoff)
  {
    StepMovesBackoff(w, a);
    NextBackoffIsBackoff(w.shared.backoff);
    assert Doubled(0) == POLL_FREQ_NS;
  }

  lemma StepKeepsInvariant<S(!new), P(!new)>(w: World<S, P>, a: Action<S, P>)
    requires Invariant(w) && Enabled(w, a)
    ensures Invariant(Step(w, a))
  {
    StepKeepsBalance(w, a);
    StepKeepsAgenda(w, a);
    StepKeepsAudience(w, a);
    StepKeepsBackoff(w, a);
  }

  // ----- whole runs -----

  ghost predicate Runs<S(!new), P(!new)>(w: World<S, P>, actions: seq<Action<S, P>>)
    decreases |actions|
  {
    actions == [] || (Enabled(w, actions[0]) && Runs(Step(w, actions[0]), actions[1..]))
  }

  ghost function Run<S(!new), P(!new)>(w: World<S, P>, actions: seq<Action<S, P>>): World<S, P>
    requires Runs(w, actions)
    decreases |actions|
  {
    if actions == [] then w else Run(Step(w, actions[0]), actions[1..])
  }

  lemma {:induction false} RunKeepsInvariant<S(!new), P(!new)>(w: World<S, P>, actions: seq<Action<S, P>>)
    requires Invariant(w) && Runs(w, actions)
    ensures Invariant(Run(w, actions))
    decreases |actions|
  {
    if actions != [] {
      StepKeepsInvariant(w, actions[0]);
      RunKeepsInvariant(Step(w, actions[0]), actions[1..]);
    }
  }

  /** Some run from the start leads to w. */
  ghost predicate Reachable<S(!new), P(!new)>(w: World<S, P>) {
    exists first: S, actions: seq<Action<S, P>> :: Runs(Init(first), actions) && Run(Init(first), actions) == w
  }

  lemma ReachableIsInvariant<S(!new), P(!new)>(w: World<S, P>)
    requires Reachable(w)
    ensures Invariant(w)
  {
    var first: S, actions: seq<Action<S, P>> :| Runs(Init(first), actions) && Run(Init(first), actions) == w;
    InitEstablishesInvariant<S, P>(first);
    RunKeepsInvariant(Init(first), actions);
  }

  /**
   Over every run: the accepted events of each queue are, in order, those popped and those still
   queued; those popped are, in order, the ones in sent batches and the one batch retained, except
   for the ones drained, which were all counted.
   */
  lemma EveryEventIsAccountedFor<S(!new), P(!new)>(w: World<S, P>, source: Source)
    requires Reachable(w)
    ensures OfSource(w.log.accepted, source) == OfSource(ItemsOf(w.log.popped), source) + w.Queue(source)
    ensures Flatten(w.log.delivered) + w.shared.batch == WithFate(w.log.popped, Consumed)
    ensures !w.poller.Draining() ==> w.log.drained == |WithFate(w.log.popped, Drained)|
  {
    ReachableIsInvariant(w);
  }

  /**
   Over every run: `pendingAlarmTags` holds exactly the alarms with an undelivered completion, and the
   one whose function is running, also when that function has enqueued another. So a delivered alarm
   is in the table, and it is the only one due.
   */
  lemma TableHoldsWhatIsDue<S(!new), P(!new)>(w: World<S, P>)
    requires Reachable(w)
    ensures w.alarms == w.due + w.poller.Serving() && w.due !! w.poller.Serving()
    ensures forall alarm: nat, ok :: Enabled(w, DeliverAlarm(alarm, ok)) ==> alarm in w.alarms && w.due == {alarm}
    ensures w.poller.Returning? && w.shared.running ==> w.due == {w.poller.alarm + 1}
  {
    ReachableIsInvariant(w);
  }

  /** Over every run the back-off is the limit, or the poll interval doubled at most six times. */
  lemma BackoffIsDoubledOrLimit<S(!new), P(!new)>(w: World<S, P>)
    requires Reachable(w)
    ensures IsBackoff(w.shared.backoff)
  {
    ReachableIsInvariant(w);
  }

  /**
   At rest an alarm is outstanding exactly while polling runs, and then only one; the functions
   enqueued before it have run, once each and in order.
   */
  lemma OneAlarmWhilePolling<S(!new), P(!new)>(w: World<S, P>)
    requires Reachable(w) && w.poller.Resting?
    ensures w.nextAlarm == |w.log.ran| + (if w.shared.running then 1 else 0)
    ensures w.alarms == w.due == if w.shared.running then {|w.log.ran|} else {}
    ensures forall i :: 0 <= i < |w.log.ran| ==> w.log.ran[i] == i
  {
    ReachableIsInvariant(w);
  }
}
