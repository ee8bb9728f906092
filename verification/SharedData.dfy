/**
 The objects of the polling protocol, updated in place: `SharedData` (shareddata.cpp), the
 broadcasting side of `ServerEventStream` (servereventstream.cpp) and the alarm table of
 `CqEventHandler` (cqeventhandler.cpp). Each callback performs one `PollRound`.
 */
module SharedDatas {
  import opened Fifos
  import opened Options
  import opened Polling

  /** A write, and the alarm that `endStream` sets to be noticed, each bring one more completion. */
  class ServerEventStream<E> {
    var state: Phase
    var written: seq<seq<E>>
    // The completions due for this tag in the completion queue.
    ghost var due: nat

    function View(): Stream<E>
      reads this
    {
      Stream(state, written)
    }

    constructor ()
      ensures View() == Stream(Connect, []) && due == 1
    {
      state, written := Connect, [];
      due := 1;
    }

    method SendEvents(evs: seq<E>) returns (ok: bool)
      modifies this
      ensures ok <==> old(state) == Write
      ensures View() == if ok then old(View()).(written := old(written) + [evs]) else old(View())
      ensures due == old(due) + if ok then 1 else 0
    {
      if state != Write {
        return false;
      }
      written := written + [evs];
      due := due + 1;
      return true;
    }

    method EndStream() returns (ok: bool)
      modifies this
      ensures ok <==> old(state) == Write
      ensures View() == if ok then old(View()).(phase := Disconnect) else old(View())
      ensures due == old(due) + if ok then 1 else 0
    {
      if state != Write {
        return false;
      }
      state := Disconnect;
      due := due + 1;
      return true;
    }
  }

  /** `pendingAlarmTags`: for each alarm tag the delay its alarm was set to. */
  class CqEventHandler {
    var pendingAlarmTags: map<nat, nat>
    var nextTag: nat

    ghost predicate Valid()
      reads this
    {
      forall tag :: tag in pendingAlarmTags ==> tag < nextTag
    }

    constructor ()
      ensures Valid() && pendingAlarmTags == map[]
    {
      pendingAlarmTags, nextTag := map[], 0;
    }

    method EnqueueFn(deferNs: nat)
      requires Valid()
      modifies this
      ensures Valid() && nextTag == old(nextTag) + 1
      ensures old(nextTag) !in old(pendingAlarmTags)
      ensures pendingAlarmTags == old(pendingAlarmTags)[old(nextTag) := deferNs]
    {
      pendingAlarmTags := pendingAlarmTags[nextTag := deferNs];
      nextTag := nextTag + 1;
    }

    method DestroyAlarmTag(tag: nat) returns (ok: bool)
      requires Valid()
      modifies this
      ensures Valid() && nextTag == old(nextTag)
      ensures ok <==> tag in old(pendingAlarmTags)
      ensures pendingAlarmTags == old(pendingAlarmTags) - {tag}
    {
      ok := tag in pendingAlarmTags;
      pendingAlarmTags := pendingAlarmTags - {tag};
    }
  }

  class SharedData<E> {
    var coreplugin: bool
    var streams: set<ServerEventStream<E>>
    var mPluginToClientsData: seq<E>
    var mServerStreamCq: CqEventHandler?
    var pollRunning: bool
    var pollStop: bool
    var mCurrExpBackoff: nat
    const mPluginProcessToClientsQueue: Fifo<E>
    const mPluginMainToClientsQueue: Fifo<E>

    ghost predicate Valid()
      reads this, mServerStreamCq
    {
      && mPluginProcessToClientsQueue != mPluginMainToClientsQueue
      && (mServerStreamCq != null ==> mServerStreamCq.Valid())
    }

    ghost function View(): Shared<ServerEventStream<E>, E>
      reads this, mPluginProcessToClientsQueue, mPluginMainToClientsQueue
    {
      Shared(coreplugin, mServerStreamCq != null, streams, mPluginToClientsData, pollRunning, pollStop,
             mCurrExpBackoff, mPluginProcessToClientsQueue.items, mPluginMainToClientsQueue.items)
    }

    /** What the registered streams look like. */
    ghost function StreamViews(): map<ServerEventStream<E>, Stream<E>>
      reads this, streams
    {
      map s | s in streams :: s.View()
    }

    constructor ()
      ensures Valid() && fresh(mPluginProcessToClientsQueue) && fresh(mPluginMainToClientsQueue)
      ensures mPluginProcessToClientsQueue.capacity == mPluginMainToClientsQueue.capacity == 64
      ensures View() == Shared(true, false, {}, [], false, false, POLL_FREQ_NS, [], [])
    {
      coreplugin, streams, mPluginToClientsData, mServerStreamCq := true, {}, [], null;
      pollRunning, pollStop, mCurrExpBackoff := false, false, POLL_FREQ_NS;
      var processQueue := new Fifo<E>(QUEUE_CAPACITY);
      var mainQueue := new Fifo<E>(QUEUE_CAPACITY);
      mPluginProcessToClientsQueue, mPluginMainToClientsQueue := processQueue, mainQueue;
    }

    method AddStream(stream: ServerEventStream<E>) returns (added: bool)
      modifies this`streams
      ensures added <==> stream !in old(streams)
      ensures streams == old(streams) + {stream}
    {
      added := stream !in streams;
      streams := streams + {stream};
    }

    method RemoveStream(stream: ServerEventStream<E>) returns (removed: bool)
      modifies this`streams
      ensures removed <==> stream in old(streams)
      ensures streams == old(streams) - {stream}
    {
      removed := stream in streams;
      streams := streams - {stream};
    }

    /** `consumeEventToStream`: move a whole queue to the end of the retained batch. */
    method ConsumeEventToStream(queue: Fifo<E>) returns (cnt: nat)
      modifies this`mPluginToClientsData, queue
      ensures cnt == |old(queue.items)| && queue.items == []
      ensures mPluginToClientsData == old(mPluginToClientsData) + old(queue.items)
    {
      cnt := 0;
      var out := queue.Pop();
      while out.Some?
        invariant cnt + (if out.Some? then 1 else 0) + |queue.items| == |old(queue.items)|
        invariant out.None? ==> queue.items == []
        invariant mPluginToClientsData + (if out.Some? then [out.value] else []) + queue.items
               == old(mPluginToClientsData) + old(queue.items)
        decreases out.Some?, |queue.items|
      {
        cnt := cnt + 1;
        mPluginToClientsData := mPluginToClientsData + [out.value];
        out := queue.Pop();
      }
    }

    method DrainPollingQueue() returns (cnt: nat)
      requires mPluginProcessToClientsQueue != mPluginMainToClientsQueue
      modifies mPluginProcessToClientsQueue, mPluginMainToClientsQueue
      ensures mPluginProcessToClientsQueue.items == [] && mPluginMainToClientsQueue.items == []
      ensures cnt == |old(mPluginProcessToClientsQueue.items)| + |old(mPluginMainToClientsQueue.items)|
    {
      var n := Discard(mPluginProcessToClientsQueue);
      var m := Discard(mPluginMainToClientsQueue);
      cnt := n + m;
    }

    /** One of the two loops of `drainPollingQueue`. */
    static method Discard(queue: Fifo<E>) returns (cnt: nat)
      modifies queue
      ensures queue.items == [] && cnt == |old(queue.items)|
    {
      cnt := 0;
      var tmp := queue.Pop();
      while tmp.Some?
        invariant cnt + (if tmp.Some? then 1 else 0) + |queue.items| == |old(queue.items)|
        invariant tmp.None? ==> queue.items == []
        decreases tmp.Some?, |queue.items|
      {
        cnt := cnt + 1;
        tmp := queue.Pop();
      }
    }

    method NextExpBackoff() returns (backoff: nat)
      modifies this`mCurrExpBackoff
      ensures backoff == mCurrExpBackoff == NextBackoff(old(mCurrExpBackoff))
    {
      mCurrExpBackoff := if mCurrExpBackoff < EXP_BACKOFF_LIMIT_NS then mCurrExpBackoff * 2 else EXP_BACKOFF_LIMIT_NS;
      backoff := mCurrExpBackoff;
    }

    /** One round of the loop below. */
    method PumpTo(stream: ServerEventStream<E>, success: bool) returns (success': bool)
      requires stream in streams
      modifies stream
      ensures success' <==> success || old(stream.state) == Write
      ensures
        StreamViews()
        == old(StreamViews())[stream :=
             if old(stream.state) == Write
             then old(stream.View()).(written := old(stream.written) + [mPluginToClientsData])
             else old(stream.View())]
    {
      success' := success;
      var sent := stream.SendEvents(mPluginToClientsData);
      if sent {
        success' := true;
      }
    }

    /** The loop of `pollCallback` that pumps the batch to every stream. */
    method PumpEvents() returns (success: bool)
      modifies streams
      ensures success <==> AnyWriter(old(StreamViews()), streams)
      ensures StreamViews() == Broadcast(old(StreamViews()), streams, mPluginToClientsData)
    {
      success := false;
      var rest := streams;
      ghost var before := StreamViews();
      while rest != {}
        invariant rest <= streams
        invariant success <==> AnyWriter(before, streams - rest)
        invariant StreamViews() == Broadcast(before, streams - rest, mPluginToClientsData)
        decreases |rest|
      {
        var stream :| stream in rest;
        ghost var done := streams - rest;
        BroadcastOneMore(before, done, stream, mPluginToClientsData);
        AnyWriterOneMore(before, done, stream);
        assert stream.View() == StreamViews()[stream] == before[stream];
        success := PumpTo(stream, success);
        rest := rest - {stream};
        assert streams - rest == done + {stream};
      }
      assert streams - rest == streams;
    }

    /** `endStreams`, and the same loop in `pollCallback`. */
    method EndStreams()
      modifies streams
      ensures StreamViews() == EndAll(old(StreamViews()), streams)
    {
      var rest := streams;
      ghost var before := StreamViews();
      while rest != {}
        invariant rest <= streams
        invariant StreamViews() == EndAll(before, streams - rest)
        decreases |rest|
      {
        var stream :| stream in rest;
        assert StreamViews()[stream] == before[stream];
        var ended := stream.EndStream();
        rest := rest - {stream};
      }
    }

    /** The `endCallback` of `pollCallback`. */
    method EndCallback()
      requires mPluginProcessToClientsQueue != mPluginMainToClientsQueue
      modifies this`pollRunning, mPluginProcessToClientsQueue, mPluginMainToClientsQueue
      ensures View() == EndSession(old(View()))
    {
      pollRunning := false;
      var _ := DrainPollingQueue();
    }

    method PollCallback(ok: bool)
      requires Valid()
      modifies this, streams, mServerStreamCq, mPluginProcessToClientsQueue, mPluginMainToClientsQueue
      ensures Valid() && streams == old(streams) && mServerStreamCq == old(mServerStreamCq)
      ensures var round := old(PollRound(View(), StreamViews(), ok));
              && View() == round.shared && StreamViews() == round.all
              && (round.rearm.Some? ==> mServerStreamCq != null)
              && (mServerStreamCq != null ==>
                    Armed(old(mServerStreamCq.pendingAlarmTags), old(mServerStreamCq.nextTag), round.rearm))
      ensures !ok || !coreplugin || mServerStreamCq == null || streams == {} || old(pollStop) ==>
                && !pollRunning && mPluginToClientsData == old(mPluginToClientsData)
                && mPluginProcessToClientsQueue.items == [] && mPluginMainToClientsQueue.items == []
                && (mServerStreamCq != null ==>
                      mServerStreamCq.pendingAlarmTags == old(mServerStreamCq.pendingAlarmTags))
      ensures ok && old(coreplugin) && mServerStreamCq != null && streams != {} && !old(pollStop) ==>
                && pollRunning == old(pollRunning)
                && mPluginProcessToClientsQueue.items == [] && mPluginMainToClientsQueue.items == []
                && mServerStreamCq.pendingAlarmTags
                == old(mServerStreamCq.pendingAlarmTags)[old(mServerStreamCq.nextTag) := mCurrExpBackoff]
    {
      ghost var d, all := View(), StreamViews();
      RoundOutcome(d, all, ok);
      if !ok || !coreplugin || mServerStreamCq == null {
        EndCallback();
        return;
      }
      if streams == {} {
        EndCallback();
        return;
      }
      if pollStop {
        EndStreams();
        EndCallback();
        return;
      }
      var nProcessEvs := ConsumeEventToStream(mPluginProcessToClientsQueue);
      var nMainEvs := ConsumeEventToStream(mPluginMainToClientsQueue);
      assert View() == old(ConsumeAll(View())) && StreamViews() == old(StreamViews());
      FinishCallback(nProcessEvs, nMainEvs);
    }

    /** The alarm table after a callback that found it as given. */
    ghost predicate Armed(tags: map<nat, nat>, tag: nat, rearm: Option<nat>)
      requires mServerStreamCq != null
      reads this, mServerStreamCq
    {
      mServerStreamCq.pendingAlarmTags == if rearm.Some? then tags[tag := rearm.value] else tags
    }

    /** `enqueueFn` of the callback itself, after a longer wait. */
    method BackOff()
      requires Valid() && mServerStreamCq != null
      modifies this`mCurrExpBackoff, mServerStreamCq
      ensures Valid()
      ensures View() == old(View()).(backoff := NextBackoff(old(mCurrExpBackoff)))
      ensures Armed(old(mServerStreamCq.pendingAlarmTags), old(mServerStreamCq.nextTag), Some(mCurrExpBackoff))
    {
      var backoff := NextExpBackoff();
      mServerStreamCq.EnqueueFn(backoff);
    }

    /** The rest of `pollCallback` once both queues have been consumed. */
    method FinishCallback(nProcessEvs: nat, nMainEvs: nat)
      requires Valid() && mServerStreamCq != null
      modifies this`mPluginToClientsData, this`mCurrExpBackoff, streams, mServerStreamCq
      ensures Valid()
      ensures var round := old(Decide(View(), StreamViews(), nProcessEvs + nMainEvs));
              && View() == round.shared && StreamViews() == round.all
              && Armed(old(mServerStreamCq.pendingAlarmTags), old(mServerStreamCq.nextTag), round.rearm)
    {
      if nProcessEvs == 0 && nMainEvs == 0 {
        BackOff();
        return;
      }
      var success := PumpEvents();
      if !success {
        BroadcastToNobody(old(StreamViews()), streams, mPluginToClientsData);
        BackOff();
        return;
      }
      mPluginToClientsData := [];
      mCurrExpBackoff := POLL_FREQ_NS;
      mServerStreamCq.EnqueueFn(POLL_FREQ_NS);
    }

    /** `available` is the stream completion queue the server offers, if it runs. */
    method TryStartPolling(available: CqEventHandler?) returns (started: bool)
      requires Valid() && (available != null ==> available.Valid())
      modifies this`pollRunning, this`mServerStreamCq, available
      ensures Valid()
      ensures started <==> old(coreplugin && streams != {} && !pollRunning) && available != null
      ensures pollRunning == (old(pollRunning) || started)
      ensures View() == Polling.TryStartPolling(old(View()), available != null)
      ensures mServerStreamCq == if started then available else old(mServerStreamCq)
      ensures available != null ==>
        available.pendingAlarmTags
        == if started then old(available.pendingAlarmTags)[old(available.nextTag) := POLL_FREQ_NS]
           else old(available.pendingAlarmTags)
    {
      if !(coreplugin && streams != {}) || pollRunning {
        return false;
      }
      if available != null {
        mServerStreamCq := available;
      } else {
        return false;
      }
      pollRunning := true;
      mServerStreamCq.EnqueueFn(POLL_FREQ_NS);
      return true;
    }

    method StopPoll() returns (ok: bool)
      modifies this`pollStop
      ensures ok <==> coreplugin && mServerStreamCq != null && pollRunning
      ensures pollStop == (old(pollStop) || ok)
      ensures View() == Polling.StopPoll(old(View()))
    {
      if !coreplugin || mServerStreamCq == null || !pollRunning {
        return false;
      }
      pollStop := true;
      return true;
    }

    /** `EventTag::process` of an alarm tag: run the callback once, then destroy the tag. */
    method ProcessAlarm(tag: nat, ok: bool)
      requires Valid() && mServerStreamCq != null && tag in mServerStreamCq.pendingAlarmTags
      modifies this, streams, mServerStreamCq, mPluginProcessToClientsQueue, mPluginMainToClientsQueue
      ensures Valid() && streams == old(streams) && mServerStreamCq == old(mServerStreamCq)
      ensures var round := old(PollRound(View(), StreamViews(), ok));
              && View() == round.shared && StreamViews() == round.all
              && Armed(old(mServerStreamCq.pendingAlarmTags) - {tag}, old(mServerStreamCq.nextTag), round.rearm)
    {
      PollCallback(ok);
      var _ := mServerStreamCq.DestroyAlarmTag(tag);
    }

    /** `CqEventHandler::teardown` after the shutdown: every alarm left is delivered as failed. */
    method Teardown()
      requires Valid() && mServerStreamCq != null
      modifies this, streams, mServerStreamCq, mPluginProcessToClientsQueue, mPluginMainToClientsQueue
      ensures Valid() && mServerStreamCq == old(mServerStreamCq) && mServerStreamCq.pendingAlarmTags == map[]
      ensures StreamViews() == old(StreamViews())
      ensures View() == if old(mServerStreamCq.pendingAlarmTags) == map[] then old(View()) else EndSession(old(View()))
    {
      while mServerStreamCq.pendingAlarmTags != map[]
        invariant Valid() && mServerStreamCq == old(mServerStreamCq) && mServerStreamCq != null
        invariant streams == old(streams) && StreamViews() == old(StreamViews())
        invariant if mServerStreamCq.pendingAlarmTags == old(mServerStreamCq.pendingAlarmTags)
                  then View() == old(View())
                  else View() == EndSession(old(View())) && old(mServerStreamCq.pendingAlarmTags) != map[]
        decreases |mServerStreamCq.pendingAlarmTags|
      {
        var tag :| tag in mServerStreamCq.pendingAlarmTags;
        ProcessAlarm(tag, false);
      }
    }
  }
}
