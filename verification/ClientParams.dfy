/**
 The way of a parameter change from the clients to the plugin: `pushClientParam` (shareddata.cpp)
 filters by time stamp and feeds a bounded queue, `processGuiEvents` (coreplugin.cpp) drains it on the
 audio thread. The two run concurrently.
 */
module ClientParams {
  import opened Fifos
  import opened Stamps

  datatype EventKind = Param | ParamInfo | Note | OtherEvent

  /** A `ClientParam` message. */
  datatype ClientParam = ClientParam(stamp: Stamp, kind: EventKind, paramId: nat, value: real)

  /** A `ClientParamWrapper`: the message without its stamp. */
  datatype Wrapper = Wrapper(kind: EventKind, paramId: nat, value: real)

  function Wrap(p: ClientParam): Wrapper { Wrapper(p.kind, p.paramId, p.value) }

  function WrapAll(ps: seq<ClientParam>): seq<Wrapper> {
    seq(|ps|, i requires 0 <= i < |ps| => Wrap(ps[i]))
  }

  // ----- the filter -----

  /** `mLastClientStamp` after a sequence of offers. */
  function LastAfter(last: Stamp, offered: seq<ClientParam>): Stamp {
    if offered == [] then last
    else
      var before := LastAfter(last, offered[..|offered| - 1]);
      var p := offered[|offered| - 1];
      if before.Less(p.stamp) then p.stamp else before
  }

  /** The offers that pass `setIfNewer`, in order. */
  function Accepted(last: Stamp, offered: seq<ClientParam>): seq<ClientParam> {
    if offered == [] then []
    else
      var earlier := offered[..|offered| - 1];
      var p := offered[|offered| - 1];
      Accepted(last, earlier) + if LastAfter(last, earlier).Less(p.stamp) then [p] else []
  }

  /** Offer i is newer than the initial stamp and than every earlier offer, accepted or not. */
  ghost predicate IsRecord(last: Stamp, offered: seq<ClientParam>, i: nat)
    requires i < |offered|
  {
    last.Less(offered[i].stamp) && forall j :: 0 <= j < i ==> offered[j].stamp.Less(offered[i].stamp)
  }

  /** The offers that are records, in order. */
  ghost function Records(last: Stamp, offered: seq<ClientParam>): seq<ClientParam> {
    if offered == [] then []
    else
      Records(last, offered[..|offered| - 1])
      + if IsRecord(last, offered, |offered| - 1) then [offered[|offered| - 1]] else []
  }

  ghost predicate IsMaximum(newest: Stamp, last: Stamp, offered: seq<ClientParam>) {
    && !newest.Less(last) && (forall i :: 0 <= i < |offered| ==> !newest.Less(offered[i].stamp))
    && (newest == last || exists i :: 0 <= i < |offered| && newest == offered[i].stamp)
  }

  /** `mLastClientStamp` is the maximum of the initial stamp and all stamps offered. */
  lemma {:induction false} LastIsMaximum(last: Stamp, offered: seq<ClientParam>)
    ensures IsMaximum(LastAfter(last, offered), last, offered)
  {
    if offered != [] {
      var earlier := offered[..|offered| - 1];
      LastIsMaximum(last, earlier);
      assert forall i :: 0 <= i < |earlier| ==> earlier[i] == offered[i];
    }
  }

  /** Exactly the strict running maxima are accepted. */
  lemma {:induction false} AcceptedAreRecords(last: Stamp, offered: seq<ClientParam>)
    ensures Accepted(last, offered) == Records(last, offered)
  {
    if offered != [] {
      var n := |offered| - 1;
      var earlier := offered[..n];
      AcceptedAreRecords(last, earlier);
      LastIsMaximum(last, earlier);
      var before := LastAfter(last, earlier);
      assert forall j :: 0 <= j < n ==> earlier[j] == offered[j];
      if before.Less(offered[n].stamp) {
        forall j | 0 <= j < n
          ensures offered[j].stamp.Less(offered[n].stamp)
        {
          assert !before.Less(earlier[j].stamp);
        }
      } else if before != last {
        var i :| 0 <= i < n && before == earlier[i].stamp;
        assert !offered[i].stamp.Less(offered[n].stamp);
      }
    }
  }

  lemma {:induction false} OffersCompose(last: Stamp, first: seq<ClientParam>, second: seq<ClientParam>)
    ensures LastAfter(last, first + second) == LastAfter(LastAfter(last, first), second)
    ensures Accepted(last, first + second) == Accepted(last, first) + Accepted(LastAfter(last, first), second)
  {
    if second == [] {
      assert first + second == first;
    } else {
      var n := |second| - 1;
      OffersCompose(last, first, second[..n]);
      assert (first + second)[..|first + second| - 1] == first + second[..n];
    }
  }

  /** Whatever was offered before, in this or another batch, is refused when offered again. */
  lemma {:induction false} ReplayIsRefused(last: Stamp, offered: seq<ClientParam>, again: seq<ClientParam>)
    requires forall i :: 0 <= i < |again| ==> again[i] in offered
    ensures Accepted(LastAfter(last, offered), again) == []
    ensures LastAfter(LastAfter(last, offered), again) == LastAfter(last, offered)
  {
    if again != [] {
      var n := |again| - 1;
      var earlier := again[..n];
      assert forall i :: 0 <= i < n ==> earlier[i] == again[i];
      ReplayIsRefused(last, offered, earlier);
      LastIsMaximum(last, offered);
      assert again[n] in offered;
    }
  }

  // ----- the drain -----

  /** What a parameter's `setValue` and `setModulation` have set (parameter.h). */
  datatype ParamState = ParamState(value: real, modulation: real)

  /** The known parameters, by id. */
  type States = map<nat, ParamState>

  /** The effect of one client change: `setValue` on a known parameter. */
  function ApplyClient(states: States, w: Wrapper): States {
    if w.kind == Param && w.paramId in states then states[w.paramId := states[w.paramId].(value := w.value)] else states
  }

  function ApplyClients(states: States, ws: seq<Wrapper>): States {
    if ws == [] then states else ApplyClient(ApplyClients(states, ws[..|ws| - 1]), ws[|ws| - 1])
  }

  ghost predicate Names(w: Wrapper, id: nat) {
    w.kind == Param && w.paramId == id
  }

  /** Event i is the newest that names the parameter. */
  ghost predicate IsNewestFor(ws: seq<Wrapper>, id: nat, i: nat) {
    i < |ws| && Names(ws[i], id) && forall j :: i < j < |ws| ==> !Names(ws[j], id)
  }

  /**
   The parameters after a drain: each known one is at the newest value naming it, or where it was if
   none does; modulations are left alone, and no parameter appears or disappears.
   */
  ghost predicate IsDrained(before: States, ws: seq<Wrapper>, after: States) {
    && after.Keys == before.Keys
    && (forall id: nat, i: nat {:trigger IsNewestFor(ws, id, i)} ::
          id in before && IsNewestFor(ws, id, i) ==> after[id].value == ws[i].value)
    && (forall id :: id in before && (forall i :: 0 <= i < |ws| ==> !Names(ws[i], id)) ==> after[id] == before[id])
    && (forall id :: id in before ==> after[id].modulation == before[id].modulation)
  }

  lemma {:induction false} ValuesAreNewest(states: States, ws: seq<Wrapper>)
    ensures IsDrained(states, ws, ApplyClients(states, ws))
  {
    if ws != [] {
      var n := |ws| - 1;
      var earlier := ws[..n];
      ValuesAreNewest(states, earlier);
      assert forall i :: 0 <= i < n ==> earlier[i] == ws[i];
      forall id: nat, i: nat | id in states && IsNewestFor(ws, id, i)
        ensures ApplyClients(states, ws)[id].value == ws[i].value
      {
        if i < n {
          assert IsNewestFor(earlier, id, i);
        }
      }
    }
  }

  /** The queued events carry what the clients sent: one for each parameter, in order, without its stamp. */
  ghost predicate Carry(ws: seq<Wrapper>, ps: seq<ClientParam>) {
    && |ws| == |ps|
    && forall i :: 0 <= i < |ps| ==>
         ws[i].kind == ps[i].kind && ws[i].paramId == ps[i].paramId && ws[i].value == ps[i].value
  }

  lemma WrappersCarry(ps: seq<ClientParam>)
    ensures Carry(WrapAll(ps), ps)
  {
  }

  /** Parameter i is the newest of kind `Param` that names the id. */
  ghost predicate IsNewestSent(ps: seq<ClientParam>, id: nat, i: nat) {
    && i < |ps| && ps[i].kind == Param && ps[i].paramId == id
    && forall j :: i < j < |ps| ==> !(ps[j].kind == Param && ps[j].paramId == id)
  }

  /**
   The parameters once the plugin has taken what the clients sent: each known one is at the newest value
   sent for it, or where it was if there is none; modulations are left alone.
   */
  ghost predicate HasTaken(before: States, ps: seq<ClientParam>, after: States) {
    && after.Keys == before.Keys
    && (forall id: nat, i: nat {:trigger IsNewestSent(ps, id, i)} ::
          id in before && IsNewestSent(ps, id, i) ==> after[id].value == ps[i].value)
    && (forall id :: id in before && (forall i :: 0 <= i < |ps| ==> !(ps[i].kind == Param && ps[i].paramId == id))
                 ==> after[id].value == before[id].value)
    && (forall id :: id in before ==> after[id].modulation == before[id].modulation)
  }

  lemma DrainTakesWhatWasSent(before: States, ws: seq<Wrapper>, ps: seq<ClientParam>, after: States)
    requires IsDrained(before, ws, after) && Carry(ws, ps)
    ensures HasTaken(before, ps, after)
  {
    forall id: nat, i: nat | id in before && IsNewestSent(ps, id, i)
      ensures after[id].value == ps[i].value
    {
      assert IsNewestFor(ws, id, i);
    }
    forall id | id in before && forall i :: 0 <= i < |ps| ==> !(ps[i].kind == Param && ps[i].paramId == id)
      ensures after[id].value == before[id].value
    {
      assert forall i :: 0 <= i < |ws| ==> !Names(ws[i], id);
    }
  }

  // ----- the two threads -----

  /** The state the threads share, and the log of what was offered and popped. */
  datatype Pipe = Pipe(
    last: Stamp, queue: seq<Wrapper>, states: States, offered: seq<ClientParam>, popped: seq<Wrapper>)

  /** A server thread handles one parameter of a batch, or the audio thread pops one event. */
  datatype Action = Offer(p: ClientParam) | Pop

  /** An accepted offer waits until the queue has room. */
  predicate Enabled(s: Pipe, a: Action) {
    match a
    case Offer(p) => s.last.Less(p.stamp) ==> |s.queue| < QUEUE_CAPACITY
    case Pop => s.queue != []
  }

  function Step(s: Pipe, a: Action): Pipe
    requires Enabled(s, a)
  {
    match a
    case Offer(p) =>
      var s' := s.(offered := s.offered + [p]);
      if s.last.Less(p.stamp) then s'.(last := p.stamp, queue := s.queue + [Wrap(p)]) else s'
    case Pop =>
      s.(queue := s.queue[1..], popped := s.popped + [s.queue[0]], states := ApplyClient(s.states, s.queue[0]))
  }

  predicate Runs(s: Pipe, actions: seq<Action>)
    decreases |actions|
  {
    actions == [] || (Enabled(s, actions[0]) && Runs(Step(s, actions[0]), actions[1..]))
  }

  function Run(s: Pipe, actions: seq<Action>): Pipe
    requires Runs(s, actions)
    decreases |actions|
  {
    if actions == [] then s else Run(Step(s, actions[0]), actions[1..])
  }

  ghost predicate Invariant(initial: Stamp, states: States, s: Pipe) {
    && s.last == LastAfter(initial, s.offered)
    && s.popped + s.queue == WrapAll(Accepted(initial, s.offered))
    && s.states == ApplyClients(states, s.popped)
    && |s.queue| <= QUEUE_CAPACITY
  }

  lemma OfferKeepsInvariant(initial: Stamp, states: States, s: Pipe, p: ClientParam)
    requires Invariant(initial, states, s) && Enabled(s, Offer(p))
    ensures Invariant(initial, states, Step(s, Offer(p)))
  {
    assert (s.offered + [p])[..|s.offered|] == s.offered;
    var accepted := Accepted(initial, s.offered);
    if s.last.Less(p.stamp) {
      assert WrapAll(accepted + [p]) == WrapAll(accepted) + [Wrap(p)];
    } else {
      assert accepted + [] == accepted;
    }
  }

  lemma PopKeepsInvariant(initial: Stamp, states: States, s: Pipe)
    requires Invariant(initial, states, s) && Enabled(s, Pop)
    ensures Invariant(initial, states, Step(s, Pop))
  {
    assert (s.popped + [s.queue[0]])[..|s.popped|] == s.popped;
    assert s.queue == [s.queue[0]] + s.queue[1..];
  }

  lemma StepKeepsInvariant(initial: Stamp, states: States, s: Pipe, a: Action)
    requires Invariant(initial, states, s) && Enabled(s, a)
    ensures Invariant(initial, states, Step(s, a))
  {
    match a
    case Offer(p) => OfferKeepsInvariant(initial, states, s, p);
    case Pop => PopKeepsInvariant(initial, states, s);
  }

  lemma {:induction false} RunKeepsInvariant(initial: Stamp, states: States, s: Pipe, actions: seq<Action>)
    requires Invariant(initial, states, s) && Runs(s, actions)
    ensures Invariant(initial, states, Run(s, actions))
    decreases |actions|
  {
    if actions != [] {
      StepKeepsInvariant(initial, states, s, actions[0]);
      RunKeepsInvariant(initial, states, Step(s, actions[0]), actions[1..]);
    }
  }

  /** Nothing offered yet, and the queue empty. */
  function Start(initial: Stamp, states: States): Pipe {
    Pipe(initial, [], states, [], [])
  }

  /** The parameters offered by a run, in order. */
  function Offered(actions: seq<Action>): seq<ClientParam> {
    if actions == [] then [] else (if actions[0].Offer? then [actions[0].p] else []) + Offered(actions[1..])
  }

  lemma {:induction false} RunLogsOffers(s: Pipe, actions: seq<Action>)
    requires Runs(s, actions)
    ensures Run(s, actions).offered == s.offered + Offered(actions)
    decreases |actions|
  {
    if actions != [] {
      RunLogsOffers(Step(s, actions[0]), actions[1..]);
    }
  }

  lemma AccountsAreMeaningful(initial: Stamp, states: States, s: Pipe)
    requires Invariant(initial, states, s)
    ensures s.popped + s.queue == WrapAll(Records(initial, s.offered))
    ensures IsMaximum(s.last, initial, s.offered) && IsDrained(states, s.popped, s.states)
  {
    LastIsMaximum(initial, s.offered);
    AcceptedAreRecords(initial, s.offered);
    ValuesAreNewest(states, s.popped);
  }

  /** Of the records, the plugin has taken the first, as many as were popped. */
  lemma TakenAreFirstRecords(initial: Stamp, states: States, s: Pipe)
    requires Invariant(initial, states, s)
    ensures Carry(s.popped + s.queue, Records(initial, s.offered))
    ensures HasTaken(states, Records(initial, s.offered)[..|s.popped|], s.states)
  {
    var records := Records(initial, s.offered);
    AccountsAreMeaningful(initial, states, s);
    WrappersCarry(records);
    assert s.popped == (s.popped + s.queue)[..|s.popped|];
    DrainTakesWhatWasSent(states, s.popped, records[..|s.popped|], s.states);
  }

  /**
   However batches and drains interleave: the events popped, then those queued, carry the strict running
   maxima of what was offered, in order; the last stamp is the maximum seen; and every known parameter is
   at the value offered by the newest popped maximum naming it, or where it was.
   */
  lemma ClientParamsEndToEnd(initial: Stamp, states: States, actions: seq<Action>)
    requires Runs(Start(initial, states), actions)
    ensures var s, records := Run(Start(initial, states), actions), Records(initial, Offered(actions));
            && Carry(s.popped + s.queue, records)
            && |s.queue| <= QUEUE_CAPACITY
            && IsMaximum(s.last, initial, Offered(actions))
            && HasTaken(states, records[..|s.popped|], s.states)
  {
    RunKeepsInvariant(initial, states, Start(initial, states), actions);
    RunLogsOffers(Start(initial, states), actions);
    assert Run(Start(initial, states), actions).offered == Offered(actions);
    AccountsAreMeaningful(initial, states, Run(Start(initial, states), actions));
    TakenAreFirstRecords(initial, states, Run(Start(initial, states), actions));
  }

  /** The producer's side as an object. */
  class ClientParamQueue {
    const mLastClientStamp: StampCell
    const mClientsToPluginQueue: Fifo<Wrapper>
    // What the audio thread has taken out so far.
    ghost var popped: seq<Wrapper>

    ghost predicate Valid()
      reads mClientsToPluginQueue
    {
      mClientsToPluginQueue.capacity == QUEUE_CAPACITY && |mClientsToPluginQueue.items| <= QUEUE_CAPACITY
    }

    /** Everything accepted: what the audio thread has taken, then what it has not. */
    ghost function Passed(): seq<Wrapper>
      reads this, mClientsToPluginQueue
    {
      popped + mClientsToPluginQueue.items
    }

    constructor ()
      ensures Valid() && fresh(mLastClientStamp) && mLastClientStamp.Value() == Stamp(0, 0)
      ensures fresh(mClientsToPluginQueue) && Passed() == []
    {
      mLastClientStamp := new StampCell();
      mClientsToPluginQueue := new Fifo<Wrapper>(QUEUE_CAPACITY);
      popped := [];
    }

    /** Between two attempts to push, the audio thread pops some events; the wait ends when there is room. */
    method WaitForRoom()
      requires Valid()
      modifies this`popped, mClientsToPluginQueue
      ensures Valid() && |mClientsToPluginQueue.items| < QUEUE_CAPACITY
      ensures old(popped) <= popped && Passed() == old(Passed())
    {
      var least := if |mClientsToPluginQueue.items| == QUEUE_CAPACITY then 1 else 0;
      var k :| least <= k <= |mClientsToPluginQueue.items|;
      popped := popped + mClientsToPluginQueue.items[..k];
      mClientsToPluginQueue.items := mClientsToPluginQueue.items[k..];
    }

    /** `progressive_backoff_wait` around the push of one event. */
    method PushWaiting(w: Wrapper)
      requires Valid()
      modifies this`popped, mClientsToPluginQueue
      ensures Valid() && old(popped) <= popped
      ensures Passed() == old(Passed()) + [w]
    {
      var ok := mClientsToPluginQueue.Push(w);
      if !ok {
        assert Passed() == old(Passed());
        WaitForRoom();
        ok := mClientsToPluginQueue.Push(w);
      }
    }

    method PushClientParam(ev: seq<ClientParam>)
      requires Valid()
      modifies this`popped, mClientsToPluginQueue, mLastClientStamp
      ensures Valid()
      ensures IsMaximum(mLastClientStamp.Value(), old(mLastClientStamp.Value()), ev)
      ensures old(popped) <= popped
      ensures Passed() == old(Passed()) + WrapAll(Records(old(mLastClientStamp.Value()), ev))
      ensures Carry(Passed()[|old(Passed())|..], Records(old(mLastClientStamp.Value()), ev))
    {
      ghost var last := mLastClientStamp.Value();
      for i := 0 to |ev|
        invariant Valid() && old(popped) <= popped
        invariant mLastClientStamp.Value() == LastAfter(last, ev[..i])
        invariant Passed() == old(Passed()) + WrapAll(Accepted(last, ev[..i]))
      {
        var p := ev[i];
        ghost var accepted := Accepted(last, ev[..i]);
        assert ev[..i + 1][..i] == ev[..i];
        var newer := mLastClientStamp.SetIfNewer(p.stamp.seconds, p.stamp.nanos);
        if !newer {
          assert accepted + [] == accepted;
          continue;
        }
        PushWaiting(Wrap(p));
        assert WrapAll(accepted + [p]) == WrapAll(accepted) + [Wrap(p)];
      }
      assert ev[..|ev|] == ev;
      AcceptedAreRecords(last, ev);
      LastIsMaximum(last, ev);
      WrappersCarry(Records(last, ev));
      assert Passed()[|old(Passed())|..] == WrapAll(Records(last, ev));
    }
  }
}
