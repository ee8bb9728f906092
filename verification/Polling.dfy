/**
 One round of the plugin-to-clients polling protocol as a function: `SharedData::pollCallback` and
 what it does to the client streams it broadcasts to (shareddata.cpp, servereventstream.cpp).
 Streams are identified by values of a type S; events are opaque payloads of a type E.
 */
module Polling {
  import opened Options

  /** The state of a `ServerEventStream`. */
  datatype Phase = Connect | Write | Disconnect | Finish {
    function Rank(): nat {
      match this
      case Connect => 0
      case Write => 1
      case Disconnect => 2
      case Finish => 3
    }
  }

  /** A client stream: its state and the batches handed to its `stream.Write`. */
  datatype Stream<E> = Stream(phase: Phase, written: seq<seq<E>>)

  const POLL_FREQ_NS: nat := 5_000
  const EXP_BACKOFF_LIMIT_NS: nat := 250_000

  /** The fields of `SharedData` that polling works on. */
  datatype Shared<S, E> = Shared(
    plugin: bool,
    cq: bool,
    streams: set<S>,
    batch: seq<E>,
    running: bool,
    stop: bool,
    backoff: nat,
    processQueue: seq<E>,
    mainQueue: seq<E>)
  {
    /** `isValid` */
    predicate IsValid() { plugin && streams != {} }
  }

  function NextBackoff(backoff: nat): nat {
    if backoff < EXP_BACKOFF_LIMIT_NS then backoff * 2 else EXP_BACKOFF_LIMIT_NS
  }

  /** The limit is respected exactly when doubling does not overshoot it or the back-off had reached it. */
  lemma NextBackoffWithinLimitExactlyWhen(backoff: nat)
    ensures NextBackoff(backoff) <= EXP_BACKOFF_LIMIT_NS <==>
            2 * backoff <= EXP_BACKOFF_LIMIT_NS || backoff >= EXP_BACKOFF_LIMIT_NS
  {
  }

  /** Five doublings of the poll interval are within the limit, the sixth is not, and then it settles. */
  lemma BackoffOvershoots()
    ensures Doubled(5) == 160_000 && NextBackoff(160_000) == 320_000 > EXP_BACKOFF_LIMIT_NS
    ensures Doubled(6) == 320_000 && NextBackoff(320_000) == 250_000 == NextBackoff(250_000) == EXP_BACKOFF_LIMIT_NS
  {
    assert Doubled(3) == 40_000;
  }

  /** The poll interval doubled k times. */
  function Doubled(k: nat): nat {
    if k == 0 then POLL_FREQ_NS else 2 * Doubled(k - 1)
  }

  ghost predicate IsBackoff(backoff: nat) {
    backoff == EXP_BACKOFF_LIMIT_NS || exists k: nat :: k <= 6 && backoff == Doubled(k)
  }

  lemma NextBackoffIsBackoff(backoff: nat)
    requires IsBackoff(backoff)
    ensures IsBackoff(NextBackoff(backoff))
  {
    if backoff < EXP_BACKOFF_LIMIT_NS {
      var k: nat :| k <= 6 && backoff == Doubled(k);
      BackoffOvershoots();
      assert backoff * 2 == Doubled(k + 1);
    }
  }

  /** `sendEvents` on every given stream: those in Write take the batch. */
  ghost function Broadcast<S, E>(all: map<S, Stream<E>>, to: set<S>, batch: seq<E>): map<S, Stream<E>> {
    map s | s in all ::
      if s in to && all[s].phase == Write then all[s].(written := all[s].written + [batch]) else all[s]
  }

  ghost predicate AnyWriter<S, E>(all: map<S, Stream<E>>, among: set<S>) {
    exists s :: s in all && s in among && all[s].phase == Write
  }

  /** The broadcast, one stream at a time. */
  lemma BroadcastOneMore<S, E>(all: map<S, Stream<E>>, to: set<S>, s: S, batch: seq<E>)
    requires s in all && s !in to
    ensures Broadcast(all, to + {s}, batch)
         == Broadcast(all, to, batch)[s := if all[s].phase == Write then all[s].(written := all[s].written + [batch])
                                           else all[s]]
  {
  }

  lemma AnyWriterOneMore<S, E>(all: map<S, Stream<E>>, to: set<S>, s: S)
    requires s in all
    ensures AnyWriter(all, to + {s}) <==> AnyWriter(all, to) || all[s].phase == Write
  {
  }

  lemma BroadcastToNobody<S, E>(all: map<S, Stream<E>>, to: set<S>, batch: seq<E>)
    requires !AnyWriter(all, to)
    ensures Broadcast(all, to, batch) == all
  {
  }

  /** `endStream` on every given stream. */
  ghost function EndAll<S, E>(all: map<S, Stream<E>>, which: set<S>): map<S, Stream<E>> {
    map s | s in all :: if s in which && all[s].phase == Write then all[s].(phase := Disconnect) else all[s]
  }

  /** What a callback leaves behind; `rearm` is the delay of the alarm it enqueues, if it does. */
  datatype Round<S, E> = Round(shared: Shared<S, E>, all: map<S, Stream<E>>, rearm: Option<nat>)

  /** The reasons to end the polling session before looking at the queues. */
  ghost predicate EndsSession<S, E>(d: Shared<S, E>, ok: bool) {
    !ok || !d.plugin || !d.cq || d.streams == {} || d.stop
  }

  /** `endCallback`, with its drain of both queues. */
  function EndSession<S, E>(d: Shared<S, E>): Shared<S, E> {
    d.(running := false, processQueue := [], mainQueue := [])
  }

  /** The streams told to end: only a stop signal tells them. */
  ghost function EndStreamsIfStopped<S, E>(d: Shared<S, E>, all: map<S, Stream<E>>, ok: bool): map<S, Stream<E>> {
    if ok && d.plugin && d.cq && d.streams != {} then EndAll(all, d.streams) else all
  }

  /** A whole `pollCallback` during which nothing is pushed. */
  ghost function PollRound<S, E>(d: Shared<S, E>, all: map<S, Stream<E>>, ok: bool): Round<S, E> {
    if EndsSession(d, ok) then
      Round(EndSession(d), EndStreamsIfStopped(d, all, ok), None)
    else
      Decide(ConsumeAll(d), all, |d.processQueue| + |d.mainQueue|)
  }

  /**
   What ends a session: a failed delivery, no plugin, no completion queue, no streams, or a stop. Then
   polling no longer runs, both queues are drained, nothing is sent or armed, and the batch stays. A
   stop, and it alone, ends the registered streams in Write.
   */
  lemma RoundEndsSession<S, E>(d: Shared<S, E>, all: map<S, Stream<E>>, ok: bool)
    requires !ok || !d.plugin || !d.cq || d.streams == {} || d.stop
    ensures var after := PollRound(d, all, ok);
            && after.shared == Shared(d.plugin, d.cq, d.streams, d.batch, false, d.stop, d.backoff, [], [])
            && after.rearm == None
            && after.all.Keys == all.Keys
            && forall s :: s in all ==>
                 && after.all[s].written == all[s].written
                 && after.all[s].phase == if ok && d.plugin && d.cq && s in d.streams && all[s].phase == Write
                                          then Disconnect else all[s].phase
  {
  }

  /** An event was found, and some registered stream is in Write. */
  ghost predicate HasTaker<S, E>(d: Shared<S, E>, all: map<S, Stream<E>>) {
    && (d.processQueue != [] || d.mainQueue != [])
    && exists s :: s in d.streams && s in all && all[s].phase == Write
  }

  /**
   Otherwise both queues join the batch, the process queue first. If an event was found and a registered
   stream is in Write, every such stream is sent the batch, it is cleared, and the back-off is reset; if
   not, the batch is retained, and the back-off grows. The callback is armed again after the back-off.
   */
  lemma RoundGoesOn<S, E>(d: Shared<S, E>, all: map<S, Stream<E>>, ok: bool)
    requires ok && d.plugin && d.cq && d.streams != {} && !d.stop
    ensures var after, batch := PollRound(d, all, ok), d.batch + d.processQueue + d.mainQueue;
            var longer := if d.backoff < 250_000 then 2 * d.backoff else 250_000;
            var backoff := if HasTaker(d, all) then 5_000 else longer;
            && after.shared == Shared(true, true, d.streams, if HasTaker(d, all) then [] else batch,
                                      d.running, false, backoff, [], [])
            && after.rearm == Some(backoff)
            && after.all.Keys == all.Keys
            && forall s :: s in all ==>
                 && after.all[s].phase == all[s].phase
                 && after.all[s].written == if HasTaker(d, all) && s in d.streams && all[s].phase == Write
                                            then all[s].written + [batch] else all[s].written
  {
    if HasTaker(d, all) {
      assert AnyWriter(all, d.streams);
    }
  }

  /** In short: either way both queues are empty, and the callback is armed again exactly if the session goes on. */
  lemma RoundOutcome<S, E>(d: Shared<S, E>, all: map<S, Stream<E>>, ok: bool)
    ensures var shared, rearm := PollRound(d, all, ok).shared, PollRound(d, all, ok).rearm;
            && shared.processQueue == [] && shared.mainQueue == []
            && if !ok || !d.plugin || !d.cq || d.streams == {} || d.stop
               then !shared.running && shared.batch == d.batch && rearm == None
               else shared.running == d.running && rearm == Some(shared.backoff)
  {
    if !ok || !d.plugin || !d.cq || d.streams == {} || d.stop {
      RoundEndsSession(d, all, ok);
    } else {
      RoundGoesOn(d, all, ok);
    }
  }

  /** Both queues moved to the end of the batch, the process queue first. */
  function ConsumeAll<S, E>(d: Shared<S, E>): Shared<S, E> {
    d.(batch := d.batch + d.processQueue + d.mainQueue, processQueue := [], mainQueue := [])
  }

  /** The end of the callback: wait, retain the batch, or broadcast it and clear it. */
  ghost function Decide<S, E>(d: Shared<S, E>, all: map<S, Stream<E>>, consumed: nat): Round<S, E> {
    if consumed > 0 && AnyWriter(all, d.streams) then
      Round(d.(batch := [], backoff := POLL_FREQ_NS), Broadcast(all, d.streams, d.batch), Some(POLL_FREQ_NS))
    else
      Round(d.(backoff := NextBackoff(d.backoff)), all, Some(NextBackoff(d.backoff)))
  }

  /** `tryStartPolling`; `available` says whether the server has a stream completion queue. */
  predicate StartsPolling<S, E>(d: Shared<S, E>, available: bool) {
    d.IsValid() && !d.running && available
  }

  function TryStartPolling<S, E>(d: Shared<S, E>, available: bool): Shared<S, E> {
    if StartsPolling(d, available) then d.(running := true, cq := true) else d
  }

  /** `stopPoll` */
  function StopPoll<S, E>(d: Shared<S, E>): Shared<S, E> {
    if d.plugin && d.cq && d.running then d.(stop := true) else d
  }
}
