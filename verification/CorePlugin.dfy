/**
 The audio side of the plugin (coreplugin.cpp): the table of parameters, the drain of client changes
 and the block loop that interleaves host events with the audio of each frame.
 */
module CorePlugins {
  import opened ClientParams

  class Parameter {
    const id: nat
    const index: nat
    var value: real
    var modulation: real

    function State(): ParamState
      reads this
    {
      ParamState(value, modulation)
    }

    constructor (id: nat, defaultValue: real, index: nat)
      ensures this.id == id && this.index == index && State() == ParamState(defaultValue, 0.0)
    {
      this.id, this.index := id, index;
      value, modulation := defaultValue, 0.0;
    }

    method SetValue(value: real)
      modifies this
      ensures State() == old(State()).(value := value)
    {
      this.value := value;
    }

    method SetModulation(modulation: real)
      modifies this
      ensures State() == old(State()).(modulation := modulation)
    {
      this.modulation := modulation;
    }
  }

  // ----- host events -----

  datatype Body =
    | ParamValue(id: nat, cookie: Parameter?, value: real)
    | ParamMod(id: nat, cookie: Parameter?, amount: real)
    | NoteEvent(note: nat)
    | OtherBody

  datatype HostEvent = HostEvent(time: nat, coreSpace: bool, body: Body)

  /** What the plugin reports to its clients. */
  datatype ServerEvent = ParamChanged(id: nat, value: real) | ParamModulated(id: nat, amount: real) | Noted(note: nat)

  /** The effect of one event on the parameters: only core events on known parameters have one. */
  function ApplyEvent(states: States, e: HostEvent): States {
    if !e.coreSpace then states
    else match e.body
      case ParamValue(id, _, v) => if id in states then states[id := states[id].(value := v)] else states
      case ParamMod(id, _, m) => if id in states then states[id := states[id].(modulation := m)] else states
      case _ => states
  }

  function ApplyEvents(states: States, evs: seq<HostEvent>): States {
    if evs == [] then states else ApplyEvent(ApplyEvents(states, evs[..|evs| - 1]), evs[|evs| - 1])
  }

  /** The event sets the value of the parameter. */
  ghost predicate SetsValue(e: HostEvent, id: nat) {
    e.coreSpace && e.body.ParamValue? && e.body.id == id
  }

  ghost predicate SetsModulation(e: HostEvent, id: nat) {
    e.coreSpace && e.body.ParamMod? && e.body.id == id
  }

  /** Event i is the last one that sets the value. */
  ghost predicate IsLastValue(evs: seq<HostEvent>, id: nat, i: nat) {
    i < |evs| && SetsValue(evs[i], id) && forall j :: i < j < |evs| ==> !SetsValue(evs[j], id)
  }

  ghost predicate IsLastModulation(evs: seq<HostEvent>, id: nat, i: nat) {
    i < |evs| && SetsModulation(evs[i], id) && forall j :: i < j < |evs| ==> !SetsModulation(evs[j], id)
  }

  /** The value the events set for the parameter last, or the given one. */
  ghost function LastValue(evs: seq<HostEvent>, id: nat, value: real): real {
    if evs == [] then value
    else if SetsValue(evs[|evs| - 1], id) then evs[|evs| - 1].body.value
    else LastValue(evs[..|evs| - 1], id, value)
  }

  lemma {:induction false} LastValueIsLast(evs: seq<HostEvent>, id: nat, value: real)
    ensures forall i: nat :: IsLastValue(evs, id, i) ==> LastValue(evs, id, value) == evs[i].body.value
    ensures (forall i :: 0 <= i < |evs| ==> !SetsValue(evs[i], id)) ==> LastValue(evs, id, value) == value
  {
    if evs != [] {
      var n := |evs| - 1;
      var earlier := evs[..n];
      LastValueIsLast(earlier, id, value);
      assert forall i :: 0 <= i < n ==> earlier[i] == evs[i];
      forall i: nat | IsLastValue(evs, id, i)
        ensures LastValue(evs, id, value) == evs[i].body.value
      {
        if i < n {
          assert IsLastValue(earlier, id, i);
        }
      }
    }
  }

  lemma {:induction false} EventsSetLastValue(states: States, evs: seq<HostEvent>, id: nat)
    ensures ApplyEvents(states, evs).Keys == states.Keys
    ensures id in states ==> ApplyEvents(states, evs)[id].value == LastValue(evs, id, states[id].value)
  {
    if evs != [] {
      EventsSetLastValue(states, evs[..|evs| - 1], id);
    }
  }

  /** After the events a known parameter has the value of the last core value event naming it, or its own. */
  lemma ValueIsLastSet(states: States, evs: seq<HostEvent>, id: nat)
    ensures ApplyEvents(states, evs).Keys == states.Keys
    ensures forall i: nat :: id in states && IsLastValue(evs, id, i) ==>
              ApplyEvents(states, evs)[id].value == evs[i].body.value
    ensures id in states && (forall i :: 0 <= i < |evs| ==> !SetsValue(evs[i], id)) ==>
              ApplyEvents(states, evs)[id].value == states[id].value
  {
    EventsSetLastValue(states, evs, id);
    if id in states {
      LastValueIsLast(evs, id, states[id].value);
    }
  }

  /** The modulation the events set for the parameter last, or the given one. */
  ghost function LastModulation(evs: seq<HostEvent>, id: nat, modulation: real): real {
    if evs == [] then modulation
    else if SetsModulation(evs[|evs| - 1], id) then evs[|evs| - 1].body.amount
    else LastModulation(evs[..|evs| - 1], id, modulation)
  }

  lemma {:induction false} LastModulationIsLast(evs: seq<HostEvent>, id: nat, modulation: real)
    ensures forall i: nat :: IsLastModulation(evs, id, i) ==> LastModulation(evs, id, modulation) == evs[i].body.amount
    ensures (forall i :: 0 <= i < |evs| ==> !SetsModulation(evs[i], id)) ==>
              LastModulation(evs, id, modulation) == modulation
  {
    if evs != [] {
      var n := |evs| - 1;
      var earlier := evs[..n];
      LastModulationIsLast(earlier, id, modulation);
      assert forall i :: 0 <= i < n ==> earlier[i] == evs[i];
      forall i: nat | IsLastModulation(evs, id, i)
        ensures LastModulation(evs, id, modulation) == evs[i].body.amount
      {
        if i < n {
          assert IsLastModulation(earlier, id, i);
        }
      }
    }
  }

  lemma {:induction false} EventsSetLastModulation(states: States, evs: seq<HostEvent>, id: nat)
    ensures ApplyEvents(states, evs).Keys == states.Keys
    ensures id in states ==> ApplyEvents(states, evs)[id].modulation == LastModulation(evs, id, states[id].modulation)
  {
    if evs != [] {
      EventsSetLastModulation(states, evs[..|evs| - 1], id);
    }
  }

  /** Likewise its modulation is that of the last core modulation event naming it, or its own. */
  lemma ModulationIsLastSet(states: States, evs: seq<HostEvent>, id: nat)
    ensures ApplyEvents(states, evs).Keys == states.Keys
    ensures forall i: nat :: id in states && IsLastModulation(evs, id, i) ==>
              ApplyEvents(states, evs)[id].modulation == evs[i].body.amount
    ensures id in states && (forall i :: 0 <= i < |evs| ==> !SetsModulation(evs[i], id)) ==>
              ApplyEvents(states, evs)[id].modulation == states[id].modulation
  {
    EventsSetLastModulation(states, evs, id);
    if id in states {
      LastModulationIsLast(evs, id, states[id].modulation);
    }
  }

  /** What one event makes the plugin report. */
  function Reports(ids: set<nat>, e: HostEvent): seq<ServerEvent> {
    if !e.coreSpace then []
    else match e.body
      case ParamValue(id, _, v) => if id in ids then [ParamChanged(id, v)] else []
      case ParamMod(id, _, m) => if id in ids then [ParamModulated(id, m)] else []
      case NoteEvent(n) => [Noted(n)]
      case OtherBody => []
  }

  function ReportsOf(ids: set<nat>, evs: seq<HostEvent>): seq<ServerEvent> {
    if evs == [] then [] else ReportsOf(ids, evs[..|evs| - 1]) + Reports(ids, evs[|evs| - 1])
  }

  /** The report an event calls for: of core events, value and modulation changes of known parameters, and notes. */
  ghost predicate CallsFor(ids: set<nat>, e: HostEvent, report: ServerEvent) {
    && e.coreSpace
    && match report
       case ParamChanged(id, value) => id in ids && e.body.ParamValue? && e.body.id == id && e.body.value == value
       case ParamModulated(id, amount) => id in ids && e.body.ParamMod? && e.body.id == id && e.body.amount == amount
       case Noted(note) => e.body.NoteEvent? && e.body.note == note
  }

  /** How many of the events call for the report. */
  ghost function CallsCount(ids: set<nat>, evs: seq<HostEvent>, report: ServerEvent): nat {
    if evs == [] then 0
    else CallsCount(ids, evs[..|evs| - 1], report) + if CallsFor(ids, evs[|evs| - 1], report) then 1 else 0
  }

  lemma OneReportForEach(ids: set<nat>, e: HostEvent, report: ServerEvent)
    ensures multiset(Reports(ids, e))[report] == if CallsFor(ids, e, report) then 1 else 0
  {
  }

  lemma CountAppend<T>(first: seq<T>, second: seq<T>, x: T)
    ensures multiset(first + second)[x] == multiset(first)[x] + multiset(second)[x]
  {
  }

  /** Every report is made as often as events call for it, and there are no others. */
  lemma {:induction false} ReportsAreCalledFor(ids: set<nat>, evs: seq<HostEvent>, report: ServerEvent)
    ensures multiset(ReportsOf(ids, evs))[report] == CallsCount(ids, evs, report)
  {
    if evs != [] {
      var earlier, last := evs[..|evs| - 1], evs[|evs| - 1];
      ReportsAreCalledFor(ids, earlier, report);
      OneReportForEach(ids, last, report);
      CountAppend(ReportsOf(ids, earlier), Reports(ids, last), report);
    }
  }

  lemma Regroup<T>(a: seq<T>, b: seq<T>, c: seq<T>)
    ensures a + (b + c) == a + b + c
  {
  }

  /** And in the order of the events. */
  lemma {:induction false} ReportsKeepOrder(ids: set<nat>, evs: seq<HostEvent>, more: seq<HostEvent>)
    ensures ReportsOf(ids, evs + more) == ReportsOf(ids, evs) + ReportsOf(ids, more)
  {
    if more == [] {
      assert evs + more == evs;
    } else {
      var earlier, last := more[..|more| - 1], more[|more| - 1];
      var all := evs + more;
      assert all[..|all| - 1] == evs + earlier && all[|all| - 1] == last;
      ReportsKeepOrder(ids, evs, earlier);
      Regroup(ReportsOf(ids, evs), ReportsOf(ids, earlier), Reports(ids, last));
    }
  }

  /** The host is told of a client's change to a known parameter. */
  predicate IsEchoed(ids: set<nat>, w: Wrapper) {
    w.kind == Param && w.paramId in ids
  }

  function EchoesOf(ids: set<nat>, ws: seq<Wrapper>): seq<Wrapper> {
    if ws == [] then []
    else EchoesOf(ids, ws[..|ws| - 1]) + if IsEchoed(ids, ws[|ws| - 1]) then [ws[|ws| - 1]] else []
  }

  /** Every change of a known parameter is echoed as often as it was sent, and nothing else is. */
  lemma {:induction false} EchoesAreChanges(ids: set<nat>, ws: seq<Wrapper>, w: Wrapper)
    ensures multiset(EchoesOf(ids, ws))[w] == if w.kind == Param && w.paramId in ids then multiset(ws)[w] else 0
  {
    if ws != [] {
      var n := |ws| - 1;
      EchoesAreChanges(ids, ws[..n], w);
      assert ws == ws[..n] + [ws[n]];
    }
  }

  /** And in the order they were sent. */
  lemma {:induction false} EchoesKeepOrder(ids: set<nat>, ws: seq<Wrapper>, more: seq<Wrapper>)
    ensures EchoesOf(ids, ws + more) == EchoesOf(ids, ws) + EchoesOf(ids, more)
  {
    if more == [] {
      assert ws + more == ws;
    } else {
      var n := |more| - 1;
      EchoesKeepOrder(ids, ws, more[..n]);
      assert (ws + more)[..|ws + more| - 1] == ws + more[..n];
    }
  }

  // ----- which events a block handles, and when -----

  /** n is the length of the longest prefix with non-decreasing times that all lie in the block. */
  ghost predicate IsHandledPrefix(evs: seq<HostEvent>, frames: nat, n: nat) {
    && n <= |evs|
    && (forall i :: 0 <= i < n ==> evs[i].time < frames)
    && (forall i, j :: 0 <= i < j < n ==> evs[i].time <= evs[j].time)
    && (n < |evs| ==> evs[n].time >= frames || exists i :: 0 <= i < n && evs[n].time < evs[i].time)
  }

  /** m is the number of leading events of the first n whose time is at most f. */
  ghost predicate IsDueBy(evs: seq<HostEvent>, n: nat, f: nat, m: nat) {
    && m <= n <= |evs|
    && (forall i :: 0 <= i < m ==> evs[i].time <= f)
    && (forall i :: m <= i < n ==> evs[i].time > f)
  }

  lemma HandledPrefixIsUnique(evs: seq<HostEvent>, frames: nat, n: nat, m: nat)
    requires IsHandledPrefix(evs, frames, n) && IsHandledPrefix(evs, frames, m)
    ensures n == m
  {
  }

  /** No event is skipped exactly when the host keeps its promise of sorted times within the block. */
  lemma NothingSkippedExactlyWhen(evs: seq<HostEvent>, frames: nat, n: nat)
    requires IsHandledPrefix(evs, frames, n)
    ensures n == |evs| <==>
            && (forall i :: 0 <= i < |evs| ==> evs[i].time < frames)
            && (forall i, j :: 0 <= i < j < |evs| ==> evs[i].time <= evs[j].time)
  {
  }

  /** One event earlier than its predecessor blocks everything behind it, in this block. */
  lemma LateEventBlocksTheRest(evs: seq<HostEvent>, frames: nat, n: nat, k: nat)
    requires IsHandledPrefix(evs, frames, n)
    requires 0 < k < |evs| && evs[k].time < evs[k - 1].time
    ensures n <= k
  {
  }

  /** A call of the root module's `process`, with the parameters as it finds them and the status it returns. */
  datatype AudioCall = AudioCall(frame: nat, states: States, status: int)

  const CLAP_PROCESS_SLEEP: int := 4

  /** Events first to last, and no further, are at the frame. */
  ghost predicate IsRunAt(evs: seq<HostEvent>, frame: nat, first: nat, last: nat) {
    && first <= last <= |evs|
    && (forall i :: first <= i < last ==> evs[i].time == frame)
    && (last < |evs| ==> evs[last].time != frame)
  }

  /** Audio was called once per frame, each time with exactly the first n events due by then applied. */
  ghost predicate FramesAreAccurate(start: States, evs: seq<HostEvent>, n: nat, calls: seq<AudioCall>, due: seq<nat>) {
    && |calls| == |due|
    && forall f :: 0 <= f < |calls| ==>
         && IsDueBy(evs, n, f, due[f])
         && calls[f].frame == f && calls[f].states == ApplyEvents(start, evs[..due[f]])
  }

  class CorePlugin {
    var params: seq<Parameter>
    var paramsHashed: map<nat, Parameter>
    var clientsToPlugin: seq<Wrapper>
    // The calls of the root module's `process`, and the echoes offered to the host.
    ghost var audio: seq<AudioCall>
    ghost var echoes: seq<Wrapper>

    /** The table by id and the list by index hold the same parameters. */
    ghost predicate IndexAgrees()
      reads this`params, this`paramsHashed
    {
      && (forall i :: 0 <= i < |params| ==>
            params[i].index == i && params[i].id in paramsHashed && paramsHashed[params[i].id] == params[i])
      && (forall id :: id in paramsHashed ==> paramsHashed[id].id == id && paramsHashed[id] in params)
    }

    /** The state of every parameter, by id. */
    ghost function States(): States
      requires IndexAgrees()
      reads this`params, this`paramsHashed, params
    {
      map id | id in paramsHashed :: paramsHashed[id].State()
    }

    constructor ()
      ensures IndexAgrees() && params == [] && clientsToPlugin == [] && audio == [] && echoes == []
    {
      params, paramsHashed, clientsToPlugin := [], map[], [];
      audio, echoes := [], [];
    }

    /** None stands for the exception; by then the table has been overwritten. */
    method AddParameter(id: nat, defaultValue: real) returns (added: Parameter?)
      requires IndexAgrees()
      modifies this`params, this`paramsHashed
      ensures added != null <==> id !in old(paramsHashed)
      ensures IndexAgrees() <==> added != null
      ensures added != null ==>
                && fresh(added) && added.id == id && added.State() == ParamState(defaultValue, 0.0)
                && params == old(params) + [added] && paramsHashed == old(paramsHashed)[id := added]
      ensures added == null ==> params == old(params) && id in paramsHashed && paramsHashed[id] !in params
    {
      var copy := new Parameter(id, defaultValue, |params|);
      var inserted := id !in paramsHashed;
      paramsHashed := paramsHashed[id := copy];
      if !inserted {
        assert paramsHashed[id] !in params;
        return null;
      }
      params := params + [copy];
      return copy;
    }

    method GetParameterByIndex(index: nat) returns (param: Parameter?)
      ensures param == if index < |params| then params[index] else null
      ensures IndexAgrees() && param != null ==> param.index == index
    {
      if index >= |params| {
        return null;
      }
      return params[index];
    }

    method GetParameterById(id: nat) returns (param: Parameter?)
      ensures param == if id in paramsHashed then paramsHashed[id] else null
      ensures IndexAgrees() && param != null ==>
                param.id == id && param.index < |params| && params[param.index] == param
      ensures IndexAgrees() && param == null ==> forall p :: p in params ==> p.id != id
    {
      if id !in paramsHashed {
        return null;
      }
      return paramsHashed[id];
    }

    /** A cookie is null or the registered parameter the event names; anything else terminates the plugin. */
    ghost predicate CookieFits(e: HostEvent)
      reads this`paramsHashed
    {
      e.coreSpace ==>
        match e.body
        case ParamValue(id, cookie, _) => cookie != null ==> id in paramsHashed && paramsHashed[id] == cookie
        case ParamMod(id, cookie, _) => cookie != null ==> id in paramsHashed && paramsHashed[id] == cookie
        case _ => true
    }

    /** A setter of one registered parameter changes the state under its id and nothing else. */
    twostate lemma OneParameterChanged(param: Parameter)
      requires old(IndexAgrees()) && IndexAgrees()
      requires paramsHashed == old(paramsHashed) && param in params && param in old(params)
      requires forall p :: p in params && p != param ==> p.State() == old(p.State())
      ensures States() == old(States())[param.id := param.State()]
    {
    }

    /** The root module's `process`; what it computes is its own business. */
    method ProcessAudio(frame: nat) returns (status: int)
      requires IndexAgrees()
      modifies this`audio
      ensures audio == old(audio) + [AudioCall(frame, States(), status)]
    {
      status := *;
      audio := audio + [AudioCall(frame, States(), status)];
    }

    /** `try_push` of the host's output events: it takes the event or refuses it, as it pleases. */
    method TryPush(e: Wrapper) returns (ok: bool)
      modifies this`echoes
      ensures echoes == old(echoes) + [e]
    {
      ok := *;
      echoes := echoes + [e];
    }

    /** The `switch` of `processGuiEvents`; `ok` is false if the host refuses the echo. */
    method HandleClientEvent(clientEv: Wrapper) returns (ok: bool)
      requires IndexAgrees()
      modifies this`echoes, params
      ensures IndexAgrees()
      ensures States() == ApplyClient(old(States()), clientEv)
      ensures echoes == old(echoes) + EchoesOf(paramsHashed.Keys, [clientEv])
      ensures |echoes| == |old(echoes)| + if clientEv.kind == Param && clientEv.paramId in paramsHashed then 1 else 0
      ensures !ok ==> IsEchoed(paramsHashed.Keys, clientEv)
    {
      assert [clientEv][..0] == [];
      if clientEv.kind == Param {
        var param := GetParameterById(clientEv.paramId);
        if param != null {
          param.SetValue(clientEv.value);
          OneParameterChanged(param);
          ok := TryPush(clientEv);
          return;
        }
      }
      return true;
    }

    /** `drained` counts the events taken from the queue; after a refusal by the host the rest stays. */
    method ProcessGuiEvents() returns (drained: nat, refused: bool)
      requires IndexAgrees()
      modifies this`clientsToPlugin, this`echoes, params
      ensures IndexAgrees()
      ensures drained <= |old(clientsToPlugin)| && clientsToPlugin == old(clientsToPlugin)[drained..]
      ensures !refused ==> clientsToPlugin == []
      ensures refused ==> drained > 0 && IsEchoed(paramsHashed.Keys, old(clientsToPlugin)[drained - 1])
      ensures States() == ApplyClients(old(States()), old(clientsToPlugin)[..drained])
      ensures echoes == old(echoes) + EchoesOf(paramsHashed.Keys, old(clientsToPlugin)[..drained])
    {
      ghost var q, start := clientsToPlugin, States();
      drained, refused := 0, false;
      while clientsToPlugin != []
        invariant IndexAgrees() && drained <= |q| && clientsToPlugin == q[drained..]
        invariant States() == ApplyClients(start, q[..drained])
        invariant echoes == old(echoes) + EchoesOf(paramsHashed.Keys, q[..drained])
        decreases |clientsToPlugin|
      {
        var clientEv := clientsToPlugin[0];
        clientsToPlugin := clientsToPlugin[1..];
        ApplyClientsAppend(start, q, drained);
        EchoesAppend(paramsHashed.Keys, q, drained);
        var ok := HandleClientEvent(clientEv);
        drained := drained + 1;
        if !ok {
          return drained, true;
        }
      }
    }

    /** A parameter is looked up by its cookie first, then by its id. */
    method FindParameter(id: nat, cookie: Parameter?) returns (param: Parameter?)
      requires IndexAgrees()
      requires cookie != null ==> id in paramsHashed && paramsHashed[id] == cookie
      ensures param == if id in paramsHashed then paramsHashed[id] else null
    {
      param := cookie;
      if param == null {
        param := GetParameterById(id);
      }
    }

    /** `reports` is what the event makes the plugin push to the process queue, whether or not that has room. */
    method ProcessEvent(e: HostEvent) returns (reports: seq<ServerEvent>)
      requires IndexAgrees() && CookieFits(e)
      modifies params
      ensures IndexAgrees()
      ensures States() == ApplyEvent(old(States()), e)
      ensures reports == Reports(paramsHashed.Keys, e)
      ensures forall report :: report in reports <==> CallsFor(paramsHashed.Keys, e, report)
    {
      if !e.coreSpace {
        return [];
      }
      match e.body
      case ParamValue(id, cookie, value) =>
        var param := FindParameter(id, cookie);
        if param == null {
          return [];
        }
        param.SetValue(value);
        OneParameterChanged(param);
        return [ParamChanged(id, value)];
      case ParamMod(id, cookie, amount) =>
        var param := FindParameter(id, cookie);
        if param == null {
          return [];
        }
        param.SetModulation(amount);
        OneParameterChanged(param);
        return [ParamModulated(id, amount)];
      case NoteEvent(note) =>
        return [Noted(note)];
      case OtherBody =>
        return [];
    }

    /**
     The block loop. `due[f]` events precede the audio of frame f: at that call the parameters are what
     the drain and exactly those events make them.
     */
    method Process(evs: seq<HostEvent>, framesCount: nat)
      returns (status: int, reports: seq<ServerEvent>, refused: bool,
               ghost calls: seq<AudioCall>, ghost handled: nat, ghost due: seq<nat>, ghost drained: nat)
      requires IndexAgrees()
      requires forall i :: 0 <= i < |evs| ==> CookieFits(evs[i])
      modifies this`clientsToPlugin, this`audio, this`echoes, params
      ensures IndexAgrees()
      ensures drained <= |old(clientsToPlugin)| && clientsToPlugin == old(clientsToPlugin)[drained..]
      ensures !refused ==> clientsToPlugin == []
      ensures refused ==> drained > 0 && IsEchoed(paramsHashed.Keys, old(clientsToPlugin)[drained - 1])
      ensures echoes == old(echoes) + EchoesOf(paramsHashed.Keys, old(clientsToPlugin)[..drained])
      ensures IsHandledPrefix(evs, framesCount, handled)
      ensures audio == old(audio) + calls && |calls| == framesCount
      ensures status == if framesCount == 0 then CLAP_PROCESS_SLEEP else calls[framesCount - 1].status
      ensures var start := ApplyClients(old(States()), old(clientsToPlugin)[..drained]);
              && FramesAreAccurate(start, evs, handled, calls, due)
              && States() == ApplyEvents(start, evs[..handled])
      ensures reports == ReportsOf(paramsHashed.Keys, evs[..handled])
    {
      drained, refused := ProcessGuiEvents();
      status, reports, calls, handled, due := ProcessFrames(evs, framesCount);
    }

    /** The loop of `process` over the frames. */
    method ProcessFrames(evs: seq<HostEvent>, framesCount: nat)
      returns (status: int, reports: seq<ServerEvent>,
               ghost calls: seq<AudioCall>, ghost handled: nat, ghost due: seq<nat>)
      requires IndexAgrees()
      requires forall i :: 0 <= i < |evs| ==> CookieFits(evs[i])
      modifies this`audio, params
      ensures IndexAgrees()
      ensures IsHandledPrefix(evs, framesCount, handled)
      ensures audio == old(audio) + calls && |calls| == framesCount
      ensures status == if framesCount == 0 then CLAP_PROCESS_SLEEP else calls[framesCount - 1].status
      ensures FramesAreAccurate(old(States()), evs, handled, calls, due)
      ensures States() == ApplyEvents(old(States()), evs[..handled])
      ensures reports == ReportsOf(paramsHashed.Keys, evs[..handled])
    {
      ghost var start := States();
      status, reports := CLAP_PROCESS_SLEEP, [];
      calls, due := [], [];
      var evIdx := 0;
      var frame := 0;
      while frame < framesCount
        invariant IndexAgrees() && frame <= framesCount && |due| == |calls| == frame
        invariant IsHandledPrefix(evs, frame, evIdx)
        invariant FramesAreAccurate(start, evs, evIdx, calls, due)
        invariant States() == ApplyEvents(start, evs[..evIdx])
        invariant reports == ReportsOf(paramsHashed.Keys, evs[..evIdx])
        invariant audio == old(audio) + calls
        invariant status == if frame == 0 then CLAP_PROCESS_SLEEP else calls[frame - 1].status
      {
        ghost var first := evIdx;
        ghost var call: AudioCall;
        evIdx, reports, status, call := ProcessFrame(evs, evIdx, frame, start, reports);
        FrameExtendsPrefix(evs, frame, first, evIdx);
        FrameExtendsAccuracy(start, evs, first, evIdx, calls, due, call);
        calls, due := calls + [call], due + [evIdx];
        frame := frame + 1;
      }
      handled := evIdx;
    }

    /** One round of that loop: the events at the frame, then its audio. */
    method ProcessFrame(evs: seq<HostEvent>, first: nat, frame: nat, ghost start: States, before: seq<ServerEvent>)
      returns (evIdx: nat, reports: seq<ServerEvent>, status: int, ghost call: AudioCall)
      requires IndexAgrees()
      requires forall i :: 0 <= i < |evs| ==> CookieFits(evs[i])
      requires first <= |evs| && States() == ApplyEvents(start, evs[..first])
      requires before == ReportsOf(paramsHashed.Keys, evs[..first])
      modifies this`audio, params
      ensures IndexAgrees()
      ensures IsRunAt(evs, frame, first, evIdx)
      ensures States() == ApplyEvents(start, evs[..evIdx])
      ensures reports == ReportsOf(paramsHashed.Keys, evs[..evIdx])
      ensures audio == old(audio) + [call]
      ensures call == AudioCall(frame, ApplyEvents(start, evs[..evIdx]), status)
    {
      evIdx, reports := ProcessEventsAt(evs, first, frame, start, before);
      status := ProcessAudio(frame);
      call := audio[|audio| - 1];
    }

    /** The inner loop of `process`: the events at one frame. */
    method ProcessEventsAt(evs: seq<HostEvent>, first: nat, frame: nat, ghost start: States, before: seq<ServerEvent>)
      returns (evIdx: nat, reports: seq<ServerEvent>)
      requires IndexAgrees()
      requires forall i :: 0 <= i < |evs| ==> CookieFits(evs[i])
      requires first <= |evs| && States() == ApplyEvents(start, evs[..first])
      requires before == ReportsOf(paramsHashed.Keys, evs[..first])
      modifies params
      ensures IndexAgrees()
      ensures IsRunAt(evs, frame, first, evIdx)
      ensures States() == ApplyEvents(start, evs[..evIdx])
      ensures reports == ReportsOf(paramsHashed.Keys, evs[..evIdx])
    {
      evIdx, reports := first, before;
      while evIdx < |evs| && evs[evIdx].time == frame
        invariant IndexAgrees() && first <= evIdx <= |evs|
        invariant forall i :: first <= i < evIdx ==> evs[i].time == frame
        invariant States() == ApplyEvents(start, evs[..evIdx])
        invariant reports == ReportsOf(paramsHashed.Keys, evs[..evIdx])
      {
        ApplyEventsAppend(start, paramsHashed.Keys, evs, evIdx);
        var pushed := ProcessEvent(evs[evIdx]);
        reports := reports + pushed;
        evIdx := evIdx + 1;
      }
    }
  }

  /** Handling all events at a frame, as they come, extends the handled prefix by that frame. */
  lemma FrameExtendsPrefix(evs: seq<HostEvent>, frame: nat, first: nat, last: nat)
    requires IsHandledPrefix(evs, frame, first) && IsRunAt(evs, frame, first, last)
    ensures IsHandledPrefix(evs, frame + 1, last)
  {
    if last < |evs| && evs[last].time < frame && first < last {
      assert evs[last].time < evs[last - 1].time;
    }
  }

  lemma FrameExtendsAccuracy(
    start: States, evs: seq<HostEvent>, first: nat, last: nat, calls: seq<AudioCall>, due: seq<nat>, call: AudioCall)
    requires FramesAreAccurate(start, evs, first, calls, due)
    requires IsHandledPrefix(evs, |calls|, first) && IsRunAt(evs, |calls|, first, last)
    requires call.frame == |calls| && call.states == ApplyEvents(start, evs[..last])
    ensures FramesAreAccurate(start, evs, last, calls + [call], due + [last])
  {
    forall f | 0 <= f < |calls|
      ensures IsDueBy(evs, last, f, due[f])
    {
      assert IsDueBy(evs, first, f, due[f]);
    }
  }

  lemma ApplyClientsAppend(states: States, ws: seq<Wrapper>, n: nat)
    requires n < |ws|
    ensures ApplyClients(states, ws[..n + 1]) == ApplyClient(ApplyClients(states, ws[..n]), ws[n])
  {
    assert ws[..n + 1][..n] == ws[..n];
  }

  lemma EchoesAppend(ids: set<nat>, ws: seq<Wrapper>, n: nat)
    requires n < |ws|
    ensures EchoesOf(ids, ws[..n + 1]) == EchoesOf(ids, ws[..n]) + EchoesOf(ids, [ws[n]])
  {
    assert ws[..n + 1][..n] == ws[..n];
    assert [ws[n]][..0] == [];
  }

  lemma ApplyEventsAppend(states: States, ids: set<nat>, evs: seq<HostEvent>, n: nat)
    requires n < |evs|
    ensures ApplyEvents(states, evs[..n + 1]) == ApplyEvent(ApplyEvents(states, evs[..n]), evs[n])
    ensures ReportsOf(ids, evs[..n + 1]) == ReportsOf(ids, evs[..n]) + Reports(ids, evs[n])
  {
    assert evs[..n + 1][..n] == evs[..n];
  }

  /** The input that breaks the index: one id added twice. */
  method DuplicateBreaksIndex(id: nat, defaultValue: real) returns (plugin: CorePlugin, first: Parameter?)
    ensures fresh(plugin) && first != null && plugin.params == [first] && first.id == id
    ensures !plugin.IndexAgrees() && id in plugin.paramsHashed && plugin.paramsHashed[id] != first
  {
    plugin := new CorePlugin();
    first := plugin.AddParameter(id, defaultValue);
    var second := plugin.AddParameter(id, defaultValue);
  }
}
