/**
 The tags of the unary calls: `ClientEventCallHandler` and `ClientParamCall` with the table
 `pendingTags` of their `CqEventHandler`. A handler serves one call and spawns its successor; the
 completion queue returns raw pointers, so every completion still to be delivered must belong to a
 handler that is alive.
 */
module UnaryCalls {
  import opened Bits
  import opened Hash
  import opened TagTables

  datatype Kind = EventCall | ParamCall

  datatype Phase = Process | Finish

  datatype Handler = Handler(kind: Kind, phase: Phase)

  /**
   The handlers alive and the completions not delivered yet, by address. The log counts the handlers
   created and destroyed at each address, which may serve many in turn.
   */
  datatype Server = Server(
    tags: map<Word, Handler>, due: multiset<Word>, created: multiset<Word>, destroyed: multiset<Word>)

  /** `create<T>()`: the constructor requests a call, so a completion is due even if the table refuses the key. */
  function Create(s: Server, kind: Kind, address: Word): Server {
    var s' := s.(due := s.due + multiset{address}, created := s.created + multiset{address});
    if address in s.tags then s'.(destroyed := s.destroyed + multiset{address})
    else s'.(tags := s.tags[address := Handler(kind, Process)])
  }

  /** `kill` */
  function Kill(s: Server, address: Word): Server {
    s.(tags := s.tags - {address}, destroyed := s.destroyed + multiset{address})
  }

  /** The queue returns a tag: its completion is due no longer, and `process(ok)` of the handler runs. */
  function Deliver(s: Server, d: Delivery): Server
    requires d.address in s.tags
  {
    var delivered := s.(due := s.due - multiset{d.address});
    if d.ok && s.tags[d.address].phase == Process then Respawned(delivered, d.address, d.newcomer)
    else Kill(delivered, d.address)
  }

  /** The handler creates its successor, answers its call and finishes; that finish will complete. */
  function Respawned(s: Server, address: Word, newcomer: Word): Server
    requires address in s.tags
  {
    var spawned := Create(s, s.tags[address].kind, newcomer);
    spawned.(tags := spawned.tags[address := s.tags[address].(phase := Finish)],
             due := spawned.due + multiset{address})
  }

  /** A completion of the handler at the address; if that makes it create another, the newcomer. */
  datatype Delivery = Delivery(address: Word, ok: bool, newcomer: Word)

  /** A completion can be delivered when it is due; a new object gets an address no live object has. */
  ghost predicate Enabled(s: Server, d: Delivery) {
    d.address in s.due && d.newcomer !in s.tags
  }

  /** Every live handler has exactly one completion due, and nobody else has any. */
  ghost predicate CompletionsMatch(s: Server) {
    forall a: Word :: s.due[a] == if a in s.tags then 1 else 0
  }

  /** Every handler created is alive or has been destroyed, exactly once. */
  ghost predicate LivesMatch(s: Server) {
    forall a: Word :: s.created[a] == s.destroyed[a] + if a in s.tags then 1 else 0
  }

  ghost predicate Invariant(s: Server) {
    CompletionsMatch(s) && LivesMatch(s)
  }

  /** Among the live handlers of the kind, that at w, and it alone, waits for a call; the others await their finish. */
  ghost predicate WaitsAt(tags: map<Word, Handler>, kind: Kind, w: Word) {
    && w in tags && tags[w].kind == kind
    && (forall a :: a in tags && tags[a].kind == kind ==> (tags[a].phase == Process <==> a == w))
  }

  ghost predicate ExactlyOneWaits(s: Server, kind: Kind) {
    exists w :: WaitsAt(s.tags, kind, w)
  }

  ghost predicate NobodyWaits(s: Server, kind: Kind) {
    forall a :: a in s.tags && s.tags[a].kind == kind ==> s.tags[a].phase == Finish
  }

  /** `Server::start` creates one handler of each kind. */
  function Init(first: Word, second: Word): Server {
    Create(Create(Server(map[], multiset{}, multiset{}, multiset{}), EventCall, first), ParamCall, second)
  }

  lemma InitEstablishesInvariant(first: Word, second: Word, kind: Kind)
    requires first != second
    ensures Invariant(Init(first, second)) && ExactlyOneWaits(Init(first, second), kind)
  {
    assert WaitsAt(Init(first, second).tags, kind, if kind == EventCall then first else second);
  }

  /** A completion is only ever delivered to a handler that is alive. */
  lemma DeliveryFindsItsHandler(s: Server, d: Delivery)
    requires CompletionsMatch(s) && d.address in s.due
    ensures d.address in s.tags
  {
    assert s.due[d.address] > 0;
  }

  lemma DeliverKeepsInvariant(s: Server, d: Delivery)
    requires Invariant(s) && Enabled(s, d)
    ensures d.address in s.tags && Invariant(Deliver(s, d))
  {
    DeliveryFindsItsHandler(s, d);
    DeliverKeepsCompletions(s, d);
    DeliverKeepsLives(s, d);
  }

  lemma DeliverKeepsCompletions(s: Server, d: Delivery)
    requires CompletionsMatch(s) && Enabled(s, d) && d.address in s.tags
    ensures CompletionsMatch(Deliver(s, d))
  {
  }

  lemma DeliverKeepsLives(s: Server, d: Delivery)
    requires LivesMatch(s) && Enabled(s, d) && d.address in s.tags
    ensures LivesMatch(Deliver(s, d))
  {
  }

  /** The delivery that ends the respawning of a kind: a failed one, to its waiting handler. */
  ghost predicate FailsWaiting(s: Server, d: Delivery, kind: Kind)
    requires d.address in s.tags
  {
    !d.ok && s.tags[d.address] == Handler(kind, Process)
  }

  /** Any other delivery leaves one handler waiting: the same one, or the one it has created. */
  lemma DeliverMovesWaiting(s: Server, d: Delivery, kind: Kind)
    requires Enabled(s, d) && d.address in s.tags && ExactlyOneWaits(s, kind)
    ensures if FailsWaiting(s, d, kind) then NobodyWaits(Deliver(s, d), kind) else ExactlyOneWaits(Deliver(s, d), kind)
  {
    var w :| WaitsAt(s.tags, kind, w);
    if !FailsWaiting(s, d, kind) {
      assert WaitsAt(Deliver(s, d).tags, kind, if d.address == w then d.newcomer else w);
    }
  }

  /** Once nobody of a kind waits, nobody ever does again. */
  lemma DeliverKeepsNobody(s: Server, d: Delivery, kind: Kind)
    requires Enabled(s, d) && d.address in s.tags && NobodyWaits(s, kind)
    ensures NobodyWaits(Deliver(s, d), kind) && !FailsWaiting(s, d, kind)
  {
  }

  // ----- whole runs -----

  ghost predicate Runs(s: Server, ds: seq<Delivery>)
    decreases |ds|
  {
    ds == [] || (Enabled(s, ds[0]) && ds[0].address in s.tags && Runs(Deliver(s, ds[0]), ds[1..]))
  }

  ghost function Run(s: Server, ds: seq<Delivery>): Server
    requires Runs(s, ds)
    decreases |ds|
  {
    if ds == [] then s else Run(Deliver(s, ds[0]), ds[1..])
  }

  /** Some delivery of the run failed at the waiting handler of the kind. */
  ghost predicate FailedWaiting(s: Server, ds: seq<Delivery>, kind: Kind)
    requires Runs(s, ds)
    decreases |ds|
  {
    ds != [] && (FailsWaiting(s, ds[0], kind) || FailedWaiting(Deliver(s, ds[0]), ds[1..], kind))
  }

  lemma {:induction false} RunKeepsInvariant(s: Server, ds: seq<Delivery>)
    requires Invariant(s) && Runs(s, ds)
    ensures Invariant(Run(s, ds))
    decreases |ds|
  {
    if ds != [] {
      DeliverKeepsInvariant(s, ds[0]);
      RunKeepsInvariant(Deliver(s, ds[0]), ds[1..]);
    }
  }

  lemma RunsOneMore(s: Server, d: Delivery, rest: seq<Delivery>)
    requires Enabled(s, d) && d.address in s.tags && Runs(Deliver(s, d), rest)
    ensures Runs(s, [d] + rest)
  {
    assert ([d] + rest)[1..] == rest;
  }

  lemma {:induction false} RunsAppend(s: Server, ds: seq<Delivery>, d: Delivery)
    requires Runs(s, ds) && Enabled(Run(s, ds), d) && d.address in Run(s, ds).tags
    ensures Runs(s, ds + [d])
    decreases |ds|
  {
    if ds == [] {
      RunsOneMore(s, d, []);
      assert ds + [d] == [d] + [];
    } else {
      RunsAppend(Deliver(s, ds[0]), ds[1..], d);
      RunsOneMore(s, ds[0], ds[1..] + [d]);
      assert ds + [d] == [ds[0]] + (ds[1..] + [d]);
    }
  }

  /** Requiring the handler of every completion to be alive cuts off no run: whatever is due can be delivered. */
  lemma RunGoesOn(s: Server, ds: seq<Delivery>, d: Delivery)
    requires Invariant(s) && Runs(s, ds) && Enabled(Run(s, ds), d)
    ensures Runs(s, ds + [d])
  {
    RunKeepsInvariant(s, ds);
    DeliveryFindsItsHandler(Run(s, ds), d);
    RunsAppend(s, ds, d);
  }

  /**
   Over every run: the completions due are those of the live handlers, one each, so none reaches a
   destroyed handler; and every handler ever created is alive or has been destroyed exactly once.
   */
  lemma EveryCompletionHasItsHandler(first: Word, second: Word, ds: seq<Delivery>, next: Delivery)
    requires first != second && Runs(Init(first, second), ds)
    ensures CompletionsMatch(Run(Init(first, second), ds)) && LivesMatch(Run(Init(first, second), ds))
    ensures Enabled(Run(Init(first, second), ds), next) ==> Runs(Init(first, second), ds + [next])
  {
    InitEstablishesInvariant(first, second, EventCall);
    RunKeepsInvariant(Init(first, second), ds);
    if Enabled(Run(Init(first, second), ds), next) {
      RunGoesOn(Init(first, second), ds, next);
    }
  }

  lemma {:induction false} NobodyWaitsForGood(s: Server, ds: seq<Delivery>, kind: Kind)
    requires Runs(s, ds) && NobodyWaits(s, kind)
    ensures NobodyWaits(Run(s, ds), kind) && !FailedWaiting(s, ds, kind)
    decreases |ds|
  {
    if ds != [] {
      DeliverKeepsNobody(s, ds[0], kind);
      NobodyWaitsForGood(Deliver(s, ds[0]), ds[1..], kind);
    }
  }

  lemma {:induction false} RunMovesWaiting(s: Server, ds: seq<Delivery>, kind: Kind)
    requires Runs(s, ds) && ExactlyOneWaits(s, kind)
    ensures if FailedWaiting(s, ds, kind) then NobodyWaits(Run(s, ds), kind) else ExactlyOneWaits(Run(s, ds), kind)
    decreases |ds|
  {
    if ds != [] {
      DeliverMovesWaiting(s, ds[0], kind);
      if FailsWaiting(s, ds[0], kind) {
        NobodyWaitsForGood(Deliver(s, ds[0]), ds[1..], kind);
      } else {
        RunMovesWaiting(Deliver(s, ds[0]), ds[1..], kind);
      }
    }
  }

  /**
   After any run exactly one handler of the kind waits if and only if no failed delivery has met a
   waiting handler of that kind; failures of finish completions, or of the other kind, do no harm.
   Once one has, nobody waits any more.
   */
  lemma OneWaitsExactlyUntilFailure(first: Word, second: Word, ds: seq<Delivery>, kind: Kind)
    requires first != second && Runs(Init(first, second), ds)
    ensures ExactlyOneWaits(Run(Init(first, second), ds), kind) <==> !FailedWaiting(Init(first, second), ds, kind)
    ensures NobodyWaits(Run(Init(first, second), ds), kind) <==> FailedWaiting(Init(first, second), ds, kind)
  {
    InitEstablishesInvariant(first, second, kind);
    RunMovesWaiting(Init(first, second), ds, kind);
  }

  /** One failed delivery to the first handler, as a shutdown brings, and nobody of its kind waits any more. */
  lemma FirstFailureStopsKind(first: Word, second: Word, newcomer: Word)
    requires first != second && newcomer !in {first, second}
    ensures var ds := [Delivery(first, false, newcomer)];
            && Runs(Init(first, second), ds)
            && NobodyWaits(Run(Init(first, second), ds), EventCall)
            && ExactlyOneWaits(Run(Init(first, second), ds), ParamCall)
  {
    var s, d := Init(first, second), Delivery(first, false, newcomer);
    InitEstablishesInvariant(first, second, ParamCall);
    DeliverMovesWaiting(s, d, ParamCall);
    assert [d][1..] == [];
    assert Run(s, [d]) == Run(Deliver(s, d), []) == Deliver(s, d);
  }

  // ----- the table as an object -----

  class TagTable {
    var pendingTags: map<Word, Handler>
    // The same table by address, the completions due, and the log.
    ghost var server: Server

    ghost predicate Valid()
      reads this
    {
      pendingTags == Keyed(server.tags) && Invariant(server)
    }

    constructor ()
      ensures Valid() && pendingTags == map[]
      ensures server == Server(map[], multiset{}, multiset{}, multiset{})
    {
      pendingTags := map[];
      server := Server(map[], multiset{}, multiset{}, multiset{});
    }

    /** The part of `Server::start` that creates the handlers. */
    method Start(first: Word, second: Word)
      requires Valid() && server == Server(map[], multiset{}, multiset{}, multiset{}) && first != second
      modifies this
      ensures Valid() && server == Init(first, second)
    {
      InitEstablishesInvariant(first, second, EventCall);
      var ok := CreateHandler(EventCall, first);
      ok := CreateHandler(ParamCall, second);
    }

    /** `create<T>()` on a fresh address never fails. */
    method CreateHandler(kind: Kind, address: Word) returns (ok: bool)
      requires pendingTags == Keyed(server.tags)
      modifies this
      ensures ok <==> address !in old(server.tags)
      ensures server == Create(old(server), kind, address) && pendingTags == Keyed(server.tags)
    {
      KeyedLookup(server.tags, address);
      KeyedInsert(server.tags, address, Handler(kind, Process));
      server := Create(server, kind, address);
      var h := ToHash(address);
      if h in pendingTags {
        return false;
      }
      pendingTags := pendingTags[h := Handler(kind, Process)];
      return true;
    }

    method DestroyTag(hash: Word) returns (ok: bool)
      modifies this`pendingTags
      ensures ok <==> hash in old(pendingTags)
      ensures pendingTags == old(pendingTags) - {hash}
    {
      ok := hash in pendingTags;
      pendingTags := pendingTags - {hash};
    }

    /** `create<T>()`, then `state = FINISH` in the handler that has served its call. */
    method Respawn(address: Word, newcomer: Word)
      requires pendingTags == Keyed(server.tags)
      requires address in server.tags && newcomer !in server.tags
      modifies this
      ensures server == Respawned(old(server), address, newcomer) && pendingTags == Keyed(server.tags)
    {
      KeyedLookup(server.tags, address);
      var key := ToHash(address);
      var served := pendingTags[key];
      var created := CreateHandler(served.kind, newcomer);
      KeyedInsert(server.tags, address, served.(phase := Finish));
      pendingTags := pendingTags[key := served.(phase := Finish)];
      server := server.(tags := server.tags[address := served.(phase := Finish)]);
      server := server.(due := server.due + multiset{address});
    }

    /** `process(ok)` of the handler whose tag the queue returned. */
    method ProcessTag(d: Delivery)
      requires Valid() && Enabled(server, d)
      modifies this
      ensures d.address in old(server.tags)
      ensures Valid() && server == Deliver(old(server), d)
    {
      DeliverKeepsInvariant(server, d);
      KeyedLookup(server.tags, d.address);
      var key := ToHash(d.address);
      var handler := pendingTags[key];
      server := server.(due := server.due - multiset{d.address});
      if d.ok && handler.phase == Process {
        Respawn(d.address, d.newcomer);
      } else {
        KeyedErase(server.tags, d.address);
        server := Kill(server, d.address);
        var _ := DestroyTag(key);
      }
    }
  }
}
