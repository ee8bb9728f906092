/**
 What clients and the host can rely on over whole runs of the polling protocol.
 */
module PollTheorems {
  import opened Polling
  import opened PollSystem

  // ----- the life of a stream -----

  /** Broadcasting never reaches a destroyed stream, and a stream being written to is registered. */
  lemma RegisteredStreamsAreAlive<S(!new), P(!new)>(w: World<S, P>, s: S)
    requires Reachable(w)
    ensures s in w.shared.streams ==> s in w.tags && w.tags[s].phase != Connect
    ensures s in w.tags && w.tags[s].phase == Write ==> s in w.shared.streams
  {
    ReachableIsInvariant(w);
    if s in w.tags {
      assert StreamAccounted(w.tags[s], s in w.shared.streams, w.log.joined[s], w.log.late[s], w.log.delivered);
    }
  }

  /** The state of a stream never falls back while it lives. */
  lemma PhaseNeverFalls<S(!new), P(!new)>(w: World<S, P>, a: Action<S, P>, s: S)
    requires Enabled(w, a) && s in w.tags && s in Step(w, a).tags
    ensures Step(w, a).tags[s].phase.Rank() >= w.tags[s].phase.Rank()
  {
    if a.PollerStep? {
      PollerMovesAudience(w);
      assert AudienceOf(Step(w, a)).tags == Step(w, a).tags;
    }
  }

  /** A delivery from Disconnect on either kills the stream or moves it on to Finish ... */
  lemma LateDeliveryFinishesOrKills<S(!new), P(!new)>(w: World<S, P>, s: S, ok: bool, c: Connection<S>)
    requires Enabled(w, DeliverStream(s, ok, c)) && w.tags[s].phase.Rank() >= Disconnect.Rank()
    ensures var w' := Step(w, DeliverStream(s, ok, c));
            if w.tags[s].phase == Finish then s !in w'.tags && s !in w'.shared.streams
            else w'.tags[s].phase == Finish && Late(w', s) == Late(w, s) + 1
  {
  }

  /** ... so that at most one such delivery finds it alive afterwards, and the second one kills it. */
  lemma AtMostTwoLateDeliveries<S(!new), P(!new)>(w: World<S, P>, s: S)
    requires Reachable(w) && s in w.tags
    ensures Late(w, s) <= 1 && (Late(w, s) == 1 ==> w.tags[s].phase == Finish)
  {
    ReachableIsInvariant(w);
    assert StreamAccounted(w.tags[s], s in w.shared.streams, w.log.joined[s], w.log.late[s], w.log.delivered);
  }

  /**
   `process` of a stream: a failed request kills it; a refused client finishes; an admitted one is
   registered, written to and polled for, and in both cases a new stream waits for the next client; a
   failed write disconnects; from then on a completion first finishes and then kills.
   */
  lemma StreamTransitions<S(!new), P(!new)>(w: World<S, P>, s: S, ok: bool, c: Connection<S>)
    requires Enabled(w, DeliverStream(s, ok, c))
    ensures var w', phase := Step(w, DeliverStream(s, ok, c)), w.tags[s].phase;
            && (s !in w'.tags <==> phase == Finish || (phase == Connect && !ok))
            && (s !in w'.tags ==> s !in w'.shared.streams)
            && (phase == Disconnect ==> w'.tags[s].phase == Finish)
            && (phase == Write ==> w'.tags[s].phase == if ok then Write else Disconnect)
            && (phase == Connect && ok ==>
                  && w'.tags[s].phase == (if c.authenticated then Write else Finish)
                  && w'.tags[c.newcomer] == Stream(Connect, [])
                  && (c.authenticated ==> s in w'.shared.streams)
                  && (c.authenticated && c.available && w.shared.plugin ==> w'.shared.running))
            && forall t :: t in w.tags && t != s ==> t in w'.tags && w'.tags[t] == w.tags[t]
  {
  }

  // ----- what the callback sends -----

  /**
   A batch counts as delivered, and is cleared, exactly if a registered stream in Write takes it; if none
   does, it is retained and every stream is left alone.
   */
  lemma BatchClearedExactlyWhenTaken<S(!new), P(!new)>(w: World<S, P>)
    requires w.poller.ConsumingMain? && w.shared.mainQueue == [] && w.poller.n > 0
    ensures var w' := Step(w, PollerStep);
            if exists s :: s in w.tags && s in w.shared.streams && w.tags[s].phase == Write then
              && w'.log.delivered == w.log.delivered + [w.shared.batch] && w'.shared.batch == []
              && forall s :: s in w.tags && s in w.shared.streams && w.tags[s].phase == Write ==>
                   s in w'.tags && w'.tags[s].written == w.tags[s].written + [w.shared.batch]
            else
              w'.log.delivered == w.log.delivered && w'.shared.batch == w.shared.batch && w'.tags == w.tags
  {
  }

  /** A push is accepted exactly if its queue holds fewer than 64 events, and goes to its end. */
  lemma PushAcceptedExactlyWhen<S(!new), P(!new)>(w: World<S, P>, item: Item<P>)
    ensures var w' := Step(w, Push(item));
            if |w.Queue(item.source)| < 64 then
              w'.log.accepted == w.log.accepted + [item] && w'.Queue(item.source) == w.Queue(item.source) + [item]
            else
              w' == w
  {
  }

  // ----- broadcast agreement -----

  ghost predicate Writing<S, P>(w: World<S, P>, s: S) {
    s in w.tags && w.tags[s].phase == Write
  }

  /**
   Over every run: what a stream was sent is the log of delivered batches from the moment it entered
   Write, without a gap; all of it while the stream is in Write, a prefix of it afterwards.
   */
  lemma StreamHoldsTheLog<S(!new), P(!new)>(w: World<S, P>, s: S)
    requires Reachable(w) && s in w.tags
    ensures s in w.log.joined && w.log.joined[s] <= |w.log.delivered|
    ensures w.tags[s].written <= w.log.delivered[w.log.joined[s]..]
    ensures Writing(w, s) ==> w.tags[s].written == w.log.delivered[w.log.joined[s]..]
  {
    ReachableIsInvariant(w);
    assert StreamAccounted(w.tags[s], s in w.shared.streams, w.log.joined[s], w.log.late[s], w.log.delivered);
    var rest := w.log.delivered[w.log.joined[s]..];
    assert w.tags[s].written == rest[..|w.tags[s].written|];
  }

  ghost predicate StaysWriting<S(!new), P(!new)>(w: World<S, P>, actions: seq<Action<S, P>>, s: S)
    requires Runs(w, actions)
    decreases |actions|
  {
    Writing(w, s) && (actions != [] ==> StaysWriting(Step(w, actions[0]), actions[1..], s))
  }

  lemma PollerSendsDelivered<S(!new), P(!new)>(w: World<S, P>, s: S)
    requires Invariant(w) && !w.poller.Resting? && Writing(w, s)
    ensures var w' := AfterPollerStep(w);
            && w.log.delivered <= w'.log.delivered
            && s in w'.tags
            && w'.tags[s].written == w.tags[s].written + w'.log.delivered[|w.log.delivered|..]
  {
    var a, a' := AudienceOf(w), AudienceOf(AfterPollerStep(w));
    PollerMovesAudience(w);
    assert StreamAccounted(a.tags[s], s in a.streams, a.joined[s], a.late[s], a.delivered);
    assert a'.delivered[|a.delivered|..] == if Sends(w) then [w.shared.batch] else [];
  }

  lemma OthersSendNothing<S(!new), P(!new)>(w: World<S, P>, a: Action<S, P>, s: S)
    requires Enabled(w, a) && !a.PollerStep? && Writing(w, s) && s in Step(w, a).tags
    ensures Step(w, a).log.delivered == w.log.delivered
    ensures Step(w, a).tags[s].written == w.tags[s].written
  {
  }

  /** In one step a stream in Write is sent exactly what is delivered. */
  lemma StepSendsDelivered<S(!new), P(!new)>(w: World<S, P>, a: Action<S, P>, s: S)
    requires Invariant(w) && Enabled(w, a) && Writing(w, s) && s in Step(w, a).tags
    ensures w.log.delivered <= Step(w, a).log.delivered
    ensures Step(w, a).tags[s].written == w.tags[s].written + Step(w, a).log.delivered[|w.log.delivered|..]
  {
    if a.PollerStep? {
      PollerSendsDelivered(w, s);
    } else {
      OthersSendNothing(w, a, s);
    }
  }

  lemma SentChains<T>(w0: seq<T>, d0: seq<T>, w1: seq<T>, d1: seq<T>, w2: seq<T>, d2: seq<T>)
    requires d0 <= d1 <= d2 && w1 == w0 + d1[|d0|..] && w2 == w1 + d2[|d1|..]
    ensures w2 == w0 + d2[|d0|..]
  {
    assert d2[|d0|..|d1|] == d1[|d0|..];
    assert d2[|d0|..] == d2[|d0|..|d1|] + d2[|d1|..];
  }

  /** While a stream stays in Write, it is sent exactly the batches delivered meanwhile. */
  lemma {:induction false} StreamReceivesWhatIsDelivered<S(!new), P(!new)>(
    w: World<S, P>, actions: seq<Action<S, P>>, s: S)
    requires Invariant(w) && Runs(w, actions) && StaysWriting(w, actions, s)
    ensures var w' := Run(w, actions);
            && Writing(w', s)
            && w.log.delivered <= w'.log.delivered
            && w'.tags[s].written == w.tags[s].written + w'.log.delivered[|w.log.delivered|..]
    decreases |actions|
  {
    if actions != [] {
      var w1 := Step(w, actions[0]);
      StepKeepsInvariant(w, actions[0]);
      StepSendsDelivered(w, actions[0], s);
      StreamReceivesWhatIsDelivered(w1, actions[1..], s);
      var w2 := Run(w1, actions[1..]);
      SentChains(w.tags[s].written, w.log.delivered, w1.tags[s].written, w1.log.delivered,
                 w2.tags[s].written, w2.log.delivered);
    }
  }

  /** Two streams in Write over the same interval are sent identical batches in it. */
  lemma WritersAgree<S(!new), P(!new)>(w: World<S, P>, actions: seq<Action<S, P>>, s: S, t: S)
    requires Reachable(w) && Runs(w, actions) && StaysWriting(w, actions, s) && StaysWriting(w, actions, t)
    ensures var w' := Run(w, actions);
            && Writing(w', s) && Writing(w', t)
            && w.tags[s].written <= w'.tags[s].written && w.tags[t].written <= w'.tags[t].written
            && w'.tags[s].written[|w.tags[s].written|..] == w'.tags[t].written[|w.tags[t].written|..]
  {
    ReachableIsInvariant(w);
    StreamReceivesWhatIsDelivered(w, actions, s);
    StreamReceivesWhatIsDelivered(w, actions, t);
  }

  // ----- stopping -----

  /** How many more batches can be sent once the stop signal is set. */
  ghost function SendsLeft<S, P>(w: World<S, P>): nat {
    if w.poller.Consuming() then 1 else 0
  }

  lemma StepSpendsSends<S(!new), P(!new)>(w: World<S, P>, a: Action<S, P>)
    requires Enabled(w, a) && w.shared.stop
    ensures Step(w, a).shared.stop
    ensures |Step(w, a).log.delivered| + SendsLeft(Step(w, a)) <= |w.log.delivered| + SendsLeft(w)
  {
    if a.PollerStep? {
      PollerMovesAudience(w);
      assert AudienceOf(Step(w, a)) == AudienceOf(AfterPollerStep(w));
    }
  }

  /**
   Once `stopPoll` has succeeded, only a callback already past its checks may still send one batch;
   no callback of this or any later polling session sends another.
   */
  lemma {:induction false} NothingSentAfterStop<S(!new), P(!new)>(w: World<S, P>, actions: seq<Action<S, P>>)
    requires Runs(w, actions) && w.shared.stop
    ensures Run(w, actions).shared.stop
    ensures |Run(w, actions).log.delivered| + SendsLeft(Run(w, actions)) <= |w.log.delivered| + SendsLeft(w)
    decreases |actions|
  {
    if actions != [] {
      StepSpendsSends(w, actions[0]);
      NothingSentAfterStop(Step(w, actions[0]), actions[1..]);
    }
  }

  /** A callback is past its checks and has a taker for its batch. */
  ghost predicate MaySend<S, P>(w: World<S, P>) {
    w.poller.Consuming() && AnyWriter(w.tags, w.shared.streams)
  }

  lemma StepSendsOnlyIfMay<S(!new), P(!new)>(w: World<S, P>, a: Action<S, P>)
    requires Enabled(w, a) && w.shared.stop && !MaySend(w)
    ensures Step(w, a).log.delivered == w.log.delivered && !MaySend(Step(w, a))
  {
    if a.PollerStep? {
      PollerMovesAudience(w);
      assert AudienceOf(Step(w, a)) == AudienceOf(AfterPollerStep(w));
    }
  }

  lemma {:induction false} RunSendsOnlyIfMay<S(!new), P(!new)>(w: World<S, P>, actions: seq<Action<S, P>>)
    requires Runs(w, actions) && w.shared.stop && !MaySend(w)
    ensures Run(w, actions).log.delivered == w.log.delivered
    decreases |actions|
  {
    if actions != [] {
      StepSpendsSends(w, actions[0]);
      StepSendsOnlyIfMay(w, actions[0]);
      RunSendsOnlyIfMay(Step(w, actions[0]), actions[1..]);
    }
  }

  lemma RunOne<S(!new), P(!new)>(w: World<S, P>, a: Action<S, P>, rest: seq<Action<S, P>>)
    requires Enabled(w, a) && Runs(Step(w, a), rest)
    ensures Runs(w, [a] + rest) && Run(w, [a] + rest) == Run(Step(w, a), rest)
  {
    assert ([a] + rest)[1..] == rest;
  }

  lemma LastStepSends<S(!new), P(!new)>(w: World<S, P>) returns (actions: seq<Action<S, P>>)
    requires MaySend(w) && w.poller.ConsumingMain? && w.poller.n > 0 && w.shared.mainQueue == []
    ensures Runs(w, actions) && Run(w, actions).log.delivered == w.log.delivered + [w.shared.batch]
  {
    PollerMovesAudience(w);
    assert AudienceOf(Step(w, PollerStep)).delivered == w.log.delivered + [w.shared.batch];
    RunOne(w, PollerStep, []);
    actions := [PollerStep] + [];
  }

  lemma ConsumingGoesOn<S(!new), P(!new)>(w: World<S, P>)
    requires MaySend(w) && (w.poller.ConsumingProcess? || w.shared.mainQueue != [])
    ensures MaySend(Step(w, PollerStep)) && Step(w, PollerStep).log.delivered == w.log.delivered
  {
    PollerMovesAudience(w);
    assert AudienceOf(Step(w, PollerStep)) == AudienceOf(w);
  }

  lemma {:induction false} SomeRunSends<S(!new), P(!new)>(w: World<S, P>, p: P) returns (actions: seq<Action<S, P>>)
    requires MaySend(w)
    ensures Runs(w, actions) && |Run(w, actions).log.delivered| == |w.log.delivered| + 1
    decreases w.poller.ConsumingProcess?,
              if w.poller.ConsumingProcess? then |w.shared.processQueue| else |w.shared.mainQueue|
  {
    if w.poller.ConsumingProcess? || w.shared.mainQueue != [] {
      ConsumingGoesOn(w);
      var rest := SomeRunSends(Step(w, PollerStep), p);
      RunOne(w, PollerStep, rest);
      actions := [PollerStep] + rest;
    } else if w.poller.n > 0 {
      actions := LastStepSends(w);
    } else {
      var push: Action<S, P> := Push(Item(Main, p));
      var w1 := Step(w, push);
      ConsumingGoesOn(w1);
      var rest := LastStepSends(Step(w1, PollerStep));
      RunOne(w1, PollerStep, rest);
      RunOne(w, push, [PollerStep] + rest);
      actions := [push] + ([PollerStep] + rest);
    }
  }

  /**
   Once a stop has been signalled, some run still sends a batch if and only if a callback is already
   past its checks and a registered stream is in Write.
   */
  lemma SendsAfterStopExactlyWhen<S(!new), P(!new)>(w: World<S, P>, p: P)
    requires w.shared.stop
    ensures (exists actions :: Runs(w, actions) && Run(w, actions).log.delivered != w.log.delivered) <==> MaySend(w)
  {
    if MaySend(w) {
      var actions := SomeRunSends(w, p);
    } else {
      forall actions | Runs(w, actions)
        ensures Run(w, actions).log.delivered == w.log.delivered
      {
        RunSendsOnlyIfMay(w, actions);
      }
    }
  }

  // ----- the retained batch -----

  /** No event waits in a queue, nor has the callback in progress found one. */
  ghost predicate NothingNew<S, P>(w: World<S, P>) {
    && w.shared.processQueue == [] && w.shared.mainQueue == []
    && (w.poller.Consuming() ==> w.poller.n == 0)
  }

  lemma StepKeepsNothingNew<S(!new), P(!new)>(w: World<S, P>, a: Action<S, P>)
    requires Enabled(w, a) && !a.Push? && NothingNew(w)
    ensures NothingNew(Step(w, a)) && Step(w, a).shared.batch == w.shared.batch
    ensures Step(w, a).log.delivered == w.log.delivered
  {
    if a.PollerStep? {
      PollerKeepsNothingNew(w);
    }
  }

  lemma PollerKeepsNothingNew<S, P>(w: World<S, P>)
    requires !w.poller.Resting? && NothingNew(w)
    ensures NothingNew(AfterPollerStep(w)) && AfterPollerStep(w).shared.batch == w.shared.batch
    ensures AfterPollerStep(w).log.delivered == w.log.delivered
  {
  }

  /** Until something is pushed, no callback sends or changes the retained batch, whoever connects. */
  lemma {:induction false} RetainedBatchWaitsForPush<S(!new), P(!new)>(w: World<S, P>, actions: seq<Action<S, P>>)
    requires Runs(w, actions) && NothingNew(w) && forall i :: 0 <= i < |actions| ==> !actions[i].Push?
    ensures Run(w, actions).shared.batch == w.shared.batch
    ensures Run(w, actions).log.delivered == w.log.delivered
    decreases |actions|
  {
    if actions != [] {
      StepKeepsNothingNew(w, actions[0]);
      RetainedBatchWaitsForPush(Step(w, actions[0]), actions[1..]);
    }
  }

  /** `stopPoll` succeeds exactly while polling runs. */
  lemma StopSucceedsWhilePolling<S(!new), P(!new)>(w: World<S, P>)
    requires Reachable(w)
    ensures Step(w, Stop).shared.stop <==> w.shared.stop || w.shared.running
  {
    ReachableIsInvariant(w);
  }

  // ----- shutdown -----

  /** After a shutdown the queue delivers with `ok == false` only. */
  ghost predicate AllFail<S(!new), P(!new)>(actions: seq<Action<S, P>>) {
    forall i :: 0 <= i < |actions| ==> Fails(actions[i])
  }

  ghost predicate Fails<S(!new), P(!new)>(a: Action<S, P>) {
    (a.DeliverAlarm? || a.DeliverStream?) ==> !a.ok
  }

  /** A callback past its checks will enqueue one more alarm. */
  ghost function ArmsLeft<S, P>(w: World<S, P>): nat {
    if w.poller.Consuming() then 1 else 0
  }

  lemma StepSpendsArms<S(!new), P(!new)>(w: World<S, P>, a: Action<S, P>)
    requires Enabled(w, a) && Fails(a)
    ensures Step(w, a).nextAlarm + ArmsLeft(Step(w, a)) == w.nextAlarm + ArmsLeft(w)
    ensures ArmsLeft(Step(w, a)) <= ArmsLeft(w)
  {
  }

  /**
   From then on the only alarm still enqueued is that of a callback already past its checks, and it is
   enqueued exactly once that callback has decided.
   */
  lemma {:induction false} ShutdownArmsAtMostOnce<S(!new), P(!new)>(w: World<S, P>, actions: seq<Action<S, P>>)
    requires Runs(w, actions) && AllFail(actions)
    ensures Run(w, actions).nextAlarm + ArmsLeft(Run(w, actions)) == w.nextAlarm + ArmsLeft(w)
    ensures ArmsLeft(Run(w, actions)) <= ArmsLeft(w)
    decreases |actions|
  {
    if actions != [] {
      StepSpendsArms(w, actions[0]);
      assert forall i :: 0 <= i < |actions[1..]| ==> actions[1..][i] == actions[i + 1];
      ShutdownArmsAtMostOnce(Step(w, actions[0]), actions[1..]);
    }
  }

  // ----- the drain after a shutdown -----

  /** How many failed completions a stream takes until it is killed, at most. */
  function FailuresLeft(phase: Phase): nat {
    match phase
    case Connect => 1
    case Write => 3
    case Disconnect => 2
    case Finish => 1
  }

  ghost function TotalLeft<S(!new), E>(tags: map<S, Stream<E>>): nat
    decreases |tags|
  {
    if tags == map[] then 0
    else
      var s :| s in tags;
      FailuresLeft(tags[s].phase) + TotalLeft(tags - {s})
  }

  lemma {:induction false} TotalTakesOut<S(!new), E>(tags: map<S, Stream<E>>, s: S)
    requires s in tags
    ensures TotalLeft(tags) == FailuresLeft(tags[s].phase) + TotalLeft(tags - {s})
    decreases |tags|
  {
    var t :| t in tags && TotalLeft(tags) == FailuresLeft(tags[t].phase) + TotalLeft(tags - {t});
    if t != s {
      TotalTakesOut(tags - {t}, s);
      TotalTakesOut(tags - {s}, t);
      assert tags - {t} - {s} == tags - {s} - {t};
    }
  }

  /** Streams that only move on leave no more to be drained. */
  lemma {:induction false} TotalFalls<S(!new), E>(tags: map<S, Stream<E>>, tags': map<S, Stream<E>>)
    requires tags'.Keys <= tags.Keys
    requires forall s :: s in tags' ==> FailuresLeft(tags'[s].phase) <= FailuresLeft(tags[s].phase)
    ensures TotalLeft(tags') <= TotalLeft(tags)
    decreases |tags|
  {
    if tags != map[] {
      var s :| s in tags;
      TotalTakesOut(tags, s);
      TotalFalls(tags - {s}, tags' - {s});
      if s in tags' {
        TotalTakesOut(tags', s);
      } else {
        assert tags' - {s} == tags';
      }
    }
  }

  /** The completions a shutdown can still bring to the stream queue. */
  ghost function DrainLeft<S(!new), P>(w: World<S, P>): nat {
    TotalLeft(w.tags) + |w.due| + ArmsLeft(w)
  }

  function Deliveries<S, P>(actions: seq<Action<S, P>>): nat {
    if actions == [] then 0
    else (if actions[0].DeliverAlarm? || actions[0].DeliverStream? then 1 else 0) + Deliveries(actions[1..])
  }

  lemma StreamFailureIsSpent<S(!new), P(!new)>(w: World<S, P>, s: S, c: Connection<S>)
    requires s in w.tags
    ensures TotalLeft(AfterStream(w, s, false, c).tags) + 1 <= TotalLeft(w.tags)
  {
    var tags' := AfterStream(w, s, false, c).tags;
    TotalTakesOut(w.tags, s);
    assert tags' - {s} == w.tags - {s};
    if s in tags' {
      TotalTakesOut(tags', s);
    } else {
      assert tags' == tags' - {s};
    }
  }

  /** Apart from its own completions, a stream is only ever moved on. */
  lemma OthersMoveStreamsOn<S(!new), P(!new)>(w: World<S, P>, a: Action<S, P>)
    requires Enabled(w, a) && !a.DeliverStream?
    ensures Step(w, a).tags.Keys == w.tags.Keys
    ensures forall s :: s in w.tags ==> FailuresLeft(Step(w, a).tags[s].phase) <= FailuresLeft(w.tags[s].phase)
  {
    if a.PollerStep? {
      PollerMovesAudience(w);
      assert AudienceOf(Step(w, a)).tags == Step(w, a).tags;
    }
  }

  /** Except for streams, every step spends what it serves. */
  lemma StepSpendsAlarms<S(!new), P(!new)>(w: World<S, P>, a: Action<S, P>)
    requires Enabled(w, a) && Fails(a)
    ensures |Step(w, a).due| + ArmsLeft(Step(w, a)) + (if a.DeliverAlarm? then 1 else 0) <= |w.due| + ArmsLeft(w)
  {
    if a.PollerStep? {
      PollerSpendsAlarms(w);
    }
  }

  lemma PollerSpendsAlarms<S(!new), P>(w: World<S, P>)
    requires !w.poller.Resting?
    ensures |AfterPollerStep(w).due| + ArmsLeft(AfterPollerStep(w)) <= |w.due| + ArmsLeft(w)
  {
  }

  lemma StepSpendsDrain<S(!new), P(!new)>(w: World<S, P>, a: Action<S, P>)
    requires Enabled(w, a) && Fails(a)
    ensures DrainLeft(Step(w, a)) + (if a.DeliverAlarm? || a.DeliverStream? then 1 else 0) <= DrainLeft(w)
  {
    StepSpendsAlarms(w, a);
    if a.DeliverStream? {
      StreamFailureIsSpent(w, a.stream, a.connection);
    } else {
      OthersMoveStreamsOn(w, a);
      TotalFalls(w.tags, Step(w, a).tags);
    }
  }

  lemma {:induction false} RunSpendsDrain<S(!new), P(!new)>(w: World<S, P>, actions: seq<Action<S, P>>)
    requires Runs(w, actions) && AllFail(actions)
    ensures Deliveries(actions) + DrainLeft(Run(w, actions)) <= DrainLeft(w)
    decreases |actions|
  {
    if actions != [] {
      StepSpendsDrain(w, actions[0]);
      assert forall i :: 0 <= i < |actions[1..]| ==> actions[1..][i] == actions[i + 1];
      RunSpendsDrain(Step(w, actions[0]), actions[1..]);
    }
  }

  lemma {:induction false} DrainIsSmall<S(!new), E>(tags: map<S, Stream<E>>)
    ensures TotalLeft(tags) <= 3 * |tags|
    decreases |tags|
  {
    if tags != map[] {
      var s :| s in tags;
      TotalTakesOut(tags, s);
      DrainIsSmall(tags - {s});
      assert |tags| == |tags - {s}| + 1 by {
        assert tags.Keys == (tags - {s}).Keys + {s};
        assert |tags| == |tags.Keys| && |tags - {s}| == |(tags - {s}).Keys|;
      }
    }
  }

  /**
   The drain loop ends: after a shutdown at most three completions per live stream, the alarms due and
   one more are delivered, whatever else happens in between.
   */
  lemma ShutdownDrainEnds<S(!new), P(!new)>(w: World<S, P>, actions: seq<Action<S, P>>)
    requires Runs(w, actions) && AllFail(actions)
    ensures Deliveries(actions) <= 3 * |w.tags| + |w.due| + ArmsLeft(w)
  {
    RunSpendsDrain(w, actions);
    DrainIsSmall(w.tags);
  }
}
