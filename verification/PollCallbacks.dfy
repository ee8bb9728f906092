/**
 A callback that nobody interrupts: running the steps of PollSystem from the delivery of an alarm
 until the thread rests computes `PollRound`, and leaves one alarm armed exactly if it says so.
 */
module PollCallbacks {
  import opened Options
  import opened Polling
  import opened PollSystem

  ghost function StepsLeft(p: Poller): nat {
    match p
    case ConsumingProcess(_, _) => 4
    case ConsumingMain(_, _) => 3
    case DrainingProcess(_, _) => 2
    case DrainingMain(_, _) => 1
    case _ => 0
  }

  ghost function QueueInUse<S, P>(w: World<S, P>): seq<Item<P>> {
    if w.poller.ConsumingProcess? || w.poller.DrainingProcess? then w.shared.processQueue else w.shared.mainQueue
  }

  /** The poller runs to rest. */
  ghost function Settle<S, P>(w: World<S, P>): World<S, P>
    decreases !w.poller.Resting?, StepsLeft(w.poller), |QueueInUse(w)|
  {
    if w.poller.Resting? then w else Settle(AfterPollerStep(w))
  }

  /** w has come to rest with the given outcome; the alarm it served is gone. */
  ghost predicate Rests<S, P>(w: World<S, P>, round: Round<S, Item<P>>, alarms: set<nat>, alarm: nat, next: nat) {
    && w.poller.Resting?
    && w.shared == round.shared && w.tags == round.all
    && w.alarms == (if round.rearm.Some? then alarms + {next} else alarms) - {alarm}
    && w.nextAlarm == (if round.rearm.Some? then next + 1 else next)
  }

  lemma {:induction false} MainQueueIsConsumed<S, P>(w: World<S, P>)
    requires w.poller.ConsumingMain?
    ensures var d := w.shared.(batch := w.shared.batch + w.shared.mainQueue, mainQueue := []);
            Rests(Settle(w), Decide(d, w.tags, w.poller.n + |w.shared.mainQueue|),
                  w.alarms, w.poller.alarm, w.nextAlarm)
    decreases |w.shared.mainQueue|
  {
    var q := w.shared.mainQueue;
    if q == [] {
      assert w.shared.batch + [] == w.shared.batch;
      DecidesAndReturns(w);
    } else {
      var w' := AfterPollerStep(w);
      MainQueueIsConsumed(w');
      assert w.shared.batch + q == w'.shared.batch + w'.shared.mainQueue;
    }
  }

  lemma DecidesAndReturns<S, P>(w: World<S, P>)
    requires w.poller.ConsumingMain? && w.shared.mainQueue == []
    ensures Rests(Settle(w), Decide(w.shared, w.tags, w.poller.n), w.alarms, w.poller.alarm, w.nextAlarm)
  {
    var w1 := AfterPollerStep(w);
    var w2 := AfterPollerStep(w1);
    assert Settle(w) == Settle(w1) == Settle(w2) == w2;
  }

  lemma {:induction false} ProcessQueueIsConsumed<S, P>(w: World<S, P>)
    requires w.poller.ConsumingProcess?
    ensures var d := w.shared.(batch := w.shared.batch + w.shared.processQueue + w.shared.mainQueue,
                               processQueue := [], mainQueue := []);
            Rests(Settle(w), Decide(d, w.tags, w.poller.n + |w.shared.processQueue| + |w.shared.mainQueue|),
                  w.alarms, w.poller.alarm, w.nextAlarm)
    decreases |w.shared.processQueue|
  {
    var q := w.shared.processQueue;
    var w' := AfterPollerStep(w);
    if q == [] {
      MainQueueIsConsumed(w');
      assert w.shared.batch + [] == w.shared.batch;
    } else {
      ProcessQueueIsConsumed(w');
      assert w.shared.batch + q == w'.shared.batch + w'.shared.processQueue;
    }
  }

  lemma {:induction false} QueuesAreDrained<S, P>(w: World<S, P>)
    requires w.poller.Draining()
    ensures var queue := if w.poller.DrainingProcess? then [] else w.shared.processQueue;
            Rests(Settle(w), Round(w.shared.(processQueue := queue, mainQueue := []), w.tags, None),
                  w.alarms, w.poller.alarm, w.nextAlarm)
    decreases StepsLeft(w.poller), |QueueInUse(w)|
  {
    var w' := AfterPollerStep(w);
    if w'.poller.Draining() {
      QueuesAreDrained(w');
    } else {
      assert Settle(w) == Settle(w') == AfterPollerStep(w');
    }
  }

  /** The fine-grained callback, uninterrupted, is `PollRound`. */
  lemma CallbackIsPollRound<S(!new), P(!new)>(w: World<S, P>, alarm: nat, ok: bool)
    requires Enabled(w, DeliverAlarm(alarm, ok))
    ensures Rests(Settle(Step(w, DeliverAlarm(alarm, ok))), PollRound(w.shared, w.tags, ok),
                  w.alarms, alarm, w.nextAlarm)
  {
    var w' := Step(w, DeliverAlarm(alarm, ok));
    if EndsSession(w.shared, ok) {
      QueuesAreDrained(w');
    } else {
      ProcessQueueIsConsumed(w');
    }
  }

  /**
   A failed delivery, as after a shutdown, empties the table of alarms for good: whatever state was
   reached, nothing is armed again and polling no longer runs.
   */
  lemma FailedDeliveryLeavesNoAlarm<S(!new), P(!new)>(w: World<S, P>, alarm: nat)
    requires Reachable(w) && Enabled(w, DeliverAlarm(alarm, false))
    ensures var w' := Settle(Step(w, DeliverAlarm(alarm, false)));
            w'.poller.Resting? && w'.alarms == {} && !w'.shared.running
  {
    ReachableIsInvariant(w);
    CallbackIsPollRound(w, alarm, false);
  }

  /**
   From every reachable state a callback ends the session if and only if its delivery failed, no stream
   is registered, or a stop was signalled; then no alarm is left, both queues are empty, and nothing was
   sent.
   */
  lemma SessionEndsExactlyWhen<S(!new), P(!new)>(w: World<S, P>, alarm: nat, ok: bool)
    requires Reachable(w) && Enabled(w, DeliverAlarm(alarm, ok))
    ensures var w' := Settle(Step(w, DeliverAlarm(alarm, ok)));
            && w'.poller.Resting?
            && (!w'.shared.running <==> !ok || w.shared.streams == {} || w.shared.stop)
            && w'.alarms == (if w'.shared.running then {alarm + 1} else {})
            && w'.shared.processQueue == [] && w'.shared.mainQueue == []
            && (!w'.shared.running ==> w'.shared.batch == w.shared.batch)
  {
    TableHoldsWhatIsDue(w);
    OneAlarmWhilePolling(w);
    RunningIsServed(w);
    CallbackIsPollRound(w, alarm, ok);
    if !ok || w.shared.streams == {} || w.shared.stop {
      RoundEndsSession(w.shared, w.tags, ok);
    } else {
      RoundGoesOn(w.shared, w.tags, ok);
    }
  }

  /** While polling runs, the plugin is there and a completion queue is served. */
  lemma RunningIsServed<S(!new), P(!new)>(w: World<S, P>)
    requires Reachable(w)
    ensures w.shared.running ==> w.shared.plugin && w.shared.cq
    ensures w.poller.Consuming() ==> w.shared.running
  {
    ReachableIsInvariant(w);
  }

  /**
   A retained batch, even with a stream ready to take it, goes out exactly when the callback goes
   past its checks and finds a new event; an idle round keeps it back.
   */
  lemma RetainedBatchGoesOutExactlyWhen<S, E>(d: Shared<S, E>, all: map<S, Stream<E>>, ok: bool)
    requires d.batch != [] && AnyWriter(all, d.streams)
    ensures PollRound(d, all, ok).shared.batch == [] <==>
            !EndsSession(d, ok) && (d.processQueue != [] || d.mainQueue != [])
  {
  }
}
