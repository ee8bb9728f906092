/**
 Runs of the polling protocol that show what it does not promise: a batch sent after a stop, a batch kept
 back from a client ready to take it, and a back-off above its limit.
 */
module PollWitnesses {
  import opened PollCallbacks
  import opened Polling
  import opened PollSystem
  import opened PollTheorems

  // Streams and payloads are numbered.
  type System = World<nat, nat>

  lemma {:induction false} RunsAppend(w: System, actions: seq<Action<nat, nat>>, a: Action<nat, nat>)
    requires Runs(w, actions) && Enabled(Run(w, actions), a)
    ensures Runs(w, actions + [a]) && Run(w, actions + [a]) == Step(Run(w, actions), a)
    decreases |actions|
  {
    if actions == [] {
      RunOne(w, a, []);
      assert [] + [a] == [a] + [];
    } else {
      RunsAppend(Step(w, actions[0]), actions[1..], a);
      RunOne(w, actions[0], actions[1..] + [a]);
      assert actions + [a] == [actions[0]] + (actions[1..] + [a]);
    }
  }

  lemma ReachableStep(w: System, a: Action<nat, nat>)
    requires Reachable(w) && Enabled(w, a)
    ensures Reachable(Step(w, a))
  {
    var first: nat, actions: seq<Action<nat, nat>> :| Runs(Init(first), actions) && Run(Init(first), actions) == w;
    RunsAppend(Init(first), actions, a);
  }

  // ----- clients connect, and idle rounds pass -----

  /** Polling runs and rests, with clients, and nothing to send has been pushed. */
  ghost predicate Idle(w: System) {
    && Reachable(w) && w.poller.Resting? && w.shared.running && w.shared.streams != {} && !w.shared.stop
    && w.shared.processQueue == [] && w.shared.mainQueue == []
  }

  /** The first client connects: stream 0 enters Write, stream 1 waits for the next client. */
  lemma FirstClient() returns (w: System)
    ensures Idle(w) && w.shared.backoff == POLL_FREQ_NS && w.shared.streams == {0} && w.shared.batch == []
    ensures w.tags == map[0 := Stream(Write, []), 1 := Stream(Connect, [])]
  {
    var init: System := Init(0);
    assert Runs(init, []) && Run(init, []) == init;
    w := FirstAdmitted();
    ReachableStep(init, DeliverStream(0, true, Connection(1, true, true)));
  }

  /** Stream 0 is in Write, and its first alarm is set. */
  lemma FirstAdmitted() returns (w: System)
    ensures Enabled(Init<nat, nat>(0), DeliverStream(0, true, Connection(1, true, true)))
    ensures w == Step(Init(0), DeliverStream(0, true, Connection(1, true, true)))
    ensures w.poller == Resting && w.shared == Shared(true, true, {0}, [], true, false, POLL_FREQ_NS, [], [])
    ensures w.tags == map[0 := Stream(Write, []), 1 := Stream(Connect, [])]
  {
    w := AfterStream(Init(0), 0, true, Connection(1, true, true));
  }

  lemma IdleDelivery(w: System) returns (a: Action<nat, nat>)
    requires Idle(w)
    ensures a.DeliverAlarm? && Enabled(w, a) && Reachable(Step(w, a))
    ensures Step(w, a) == w.(due := w.due - {a.alarm}, poller := ConsumingProcess(a.alarm, 0))
  {
    OneAlarmWhilePolling(w);
    RunningIsServed(w);
    a := DeliverAlarm(|w.log.ran|, true);
    ReachableStep(w, a);
  }

  /** A round in which nothing is new backs off, whatever batch is retained. */
  lemma IdleRound(w: System) returns (w': System)
    requires Idle(w)
    ensures Idle(w') && w'.shared == w.shared.(backoff := NextBackoff(w.shared.backoff)) && w'.tags == w.tags
    ensures w'.log.delivered == w.log.delivered
  {
    var a := IdleDelivery(w);
    var w1 := Step(w, a);
    ReachableStep(w1, PollerStep);
    var w2 := Step(w1, PollerStep);
    ReachableStep(w2, PollerStep);
    var w3 := Step(w2, PollerStep);
    ReachableStep(w3, PollerStep);
    w' := Step(w3, PollerStep);
  }

  // ----- the back-off -----

  lemma {:induction false} BackoffIsReached(k: nat) returns (w: System)
    requires k <= 6
    ensures Idle(w) && w.shared.backoff == Doubled(k)
  {
    if k == 0 {
      w := FirstClient();
    } else {
      w := BackoffIsReached(k - 1);
      BackoffOvershoots();
      assert k == 6 || Doubled(k - 1) < EXP_BACKOFF_LIMIT_NS by {
        DoubledGrows(k - 1, 5);
      }
      w := IdleRound(w);
    }
  }

  lemma {:induction false} DoubledGrows(k: nat, n: nat)
    requires k <= n
    ensures Doubled(k) <= Doubled(n)
  {
    if k < n {
      DoubledGrows(k, n - 1);
    }
  }

  /** The back-offs that occur are exactly the limit and the poll interval doubled up to six times. */
  lemma BackoffOccursExactlyWhen(backoff: nat)
    ensures (exists w: System :: Reachable(w) && w.shared.backoff == backoff) <==> IsBackoff(backoff)
  {
    forall w: System | Reachable(w)
      ensures IsBackoff(w.shared.backoff)
    {
      BackoffIsDoubledOrLimit(w);
    }
    if backoff == EXP_BACKOFF_LIMIT_NS {
      BackoffOvershoots();
      var w := BackoffIsReached(6);
      w := IdleRound(w);
    } else if IsBackoff(backoff) {
      var k: nat :| k <= 6 && backoff == Doubled(k);
      var w := BackoffIsReached(k);
    }
  }

  /** So the back-off of a run stays below twice its limit, and does exceed it: 320000 ns is the maximum. */
  lemma BackoffBound<S(!new), P(!new)>(w: World<S, P>)
    requires Reachable(w)
    ensures POLL_FREQ_NS <= w.shared.backoff <= 320_000
    ensures exists w': System :: Reachable(w') && w'.shared.backoff == 320_000
  {
    BackoffIsDoubledOrLimit(w);
    BackoffOvershoots();
    if w.shared.backoff != EXP_BACKOFF_LIMIT_NS {
      var k: nat :| k <= 6 && w.shared.backoff == Doubled(k);
      DoubledGrows(0, k);
      DoubledGrows(k, 6);
    }
    var w' := BackoffIsReached(6);
  }

  // ----- a batch sent after the stop -----

  /** With a client connected an event is pushed, the callback starts, and then the stop arrives. */
  lemma StopDuringCallback() returns (before: System, w: System)
    ensures Reachable(before) && before.poller.Consuming() && !before.shared.stop
    ensures w == Step(before, Stop) && Reachable(w) && w.shared.stop && MaySend(w)
  {
    var w0 := FirstClient();
    var a := IdleDelivery(w0);
    before := Step(w0, a);
    RunningIsServed(before);
    ReachableStep(before, Stop);
    w := Step(before, Stop);
    assert 0 in w.tags && 0 in w.shared.streams && w.tags[0].phase == Write;
  }

  /** A batch can go out after the stop has succeeded. */
  lemma BatchSentAfterStop() returns (before: System, actions: seq<Action<nat, nat>>)
    ensures Reachable(before) && !before.shared.stop && Step(before, Stop).shared.stop
    ensures Runs(Step(before, Stop), actions)
    ensures |Run(Step(before, Stop), actions).log.delivered| == |before.log.delivered| + 1
  {
    var w;
    before, w := StopDuringCallback();
    actions := SomeRunSends(w, 0);
  }

  // ----- a batch kept back -----

  /** The callback consumes an event that is pushed while it looks at the queues. */
  lemma EventConsumed() returns (w: System)
    ensures Reachable(w) && w.poller.ConsumingMain? && w.shared.streams == {0} && !w.shared.stop
    ensures w.shared.processQueue == [] && w.shared.mainQueue == [] && w.shared.batch == [Item(Process, 7)]
    ensures w.tags == map[0 := Stream(Write, []), 1 := Stream(Connect, [])]
  {
    var w0 := FirstClient();
    var a := IdleDelivery(w0);
    var w1 := Step(w0, a);
    var push: Action<nat, nat> := Push(Item(Process, 7));
    ReachableStep(w1, push);
    var w2 := Step(w1, push);
    assert w2.shared == w1.shared.(processQueue := [Item(Process, 7)]);
    ReachableStep(w2, PollerStep);
    var w3 := Step(w2, PollerStep);
    assert w3.shared.batch == [] + [Item(Process, 7)];
    ReachableStep(w3, PollerStep);
    w := Step(w3, PollerStep);
  }

  lemma EndingMovesPhases(w: System)
    requires w.tags == map[0 := Stream(Write, []), 1 := Stream(Connect, [])] && w.shared.streams == {0}
    ensures EndAll(w.tags, w.shared.streams) == map[0 := Stream(Disconnect, []), 1 := Stream(Connect, [])]
    ensures !AnyWriter(EndAll(w.tags, w.shared.streams), w.shared.streams)
  {
  }

  /** Before the batch is sent, another thread ends the client's stream. */
  lemma ClientLeavesDuringCallback() returns (w: System)
    ensures Idle(w) && w.shared.batch == [Item(Process, 7)]
    ensures w.tags == map[0 := Stream(Disconnect, []), 1 := Stream(Connect, [])]
  {
    var w0 := EventConsumed();
    ReachableStep(w0, EndStreams);
    EndingMovesPhases(w0);
    var w1: System := w0.(tags := EndAll(w0.tags, w0.shared.streams));
    assert w1 == Step(w0, EndStreams);
    w := CallbackRetains(w1);
  }

  lemma CallbackRetains(w: System) returns (w': System)
    requires Reachable(w) && w.poller.ConsumingMain? && w.shared.mainQueue == [] && !AnyWriter(w.tags, w.shared.streams)
    requires w.shared.processQueue == [] && w.shared.streams != {} && !w.shared.stop
    ensures Idle(w') && w'.tags == w.tags && w'.shared == w.shared.(backoff := NextBackoff(w.shared.backoff))
  {
    RunningIsServed(w);
    RetainingStep(w);
    ReachableStep(w, PollerStep);
    var w1 := Retaining(w);
    ReachableStep(w1, PollerStep);
    w' := Step(w1, PollerStep);
  }

  /** The callback backs off and keeps its batch. */
  ghost function Retaining(w: System): System
    requires w.poller.ConsumingMain?
  {
    Enqueue(w.(shared := w.shared.(backoff := NextBackoff(w.shared.backoff)))).(poller := Returning(w.poller.alarm))
  }

  lemma RetainingStep(w: System)
    requires w.poller.ConsumingMain? && w.shared.mainQueue == [] && !AnyWriter(w.tags, w.shared.streams)
    ensures Step(w, PollerStep) == Retaining(w)
  {
  }

  /** Then another client connects; polling already runs. */
  lemma NextClient(w: System) returns (w': System)
    requires Idle(w) && w.tags == map[0 := Stream(Disconnect, []), 1 := Stream(Connect, [])]
    ensures Idle(w') && w'.shared == w.shared.(streams := w.shared.streams + {1})
    ensures 1 in w'.tags && w'.tags[1].phase == Write
  {
    var a: Action<nat, nat> := DeliverStream(1, true, Connection(2, true, true));
    ReachableStep(w, a);
    w' := Step(w, a);
  }

  /** Its stream is ready for the retained batch, but an idle round does not send it. */
  lemma IdleRoundKeepsBatchBack() returns (w: System, w': System)
    ensures Reachable(w) && w.shared.batch != [] && NothingNew(w) && AnyWriter(w.tags, w.shared.streams)
    ensures Reachable(w') && w'.shared == PollRound(w.shared, w.tags, true).shared
    ensures w'.shared.batch == w.shared.batch && w'.tags == w.tags && w'.log.delivered == w.log.delivered
  {
    var w0 := ClientLeavesDuringCallback();
    w := NextClient(w0);
    w' := IdleRound(w);
    RunningIsServed(w);
    IdleIsPollRound(w.shared, w.tags);
  }

  lemma IdleIsPollRound<S, E>(d: Shared<S, E>, all: map<S, Stream<E>>)
    requires !EndsSession(d, true) && d.processQueue == [] && d.mainQueue == []
    ensures PollRound(d, all, true).shared == d.(backoff := NextBackoff(d.backoff))
  {
    assert d.batch + [] + [] == d.batch;
  }
}
