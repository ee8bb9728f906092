/**
 The registry of plugin instances (serverctrl.cpp): each plugin's `SharedData` under the hash of its
 address, and in it the streams of its clients. A stream may leave with the hash of its plugin, which is
 looked up, or without, which searches every plugin in the order of the hashes.
 */
module Registries {
  import opened Bits
  import opened Hash
  import opened Options

  /** `SharedData`, as far as the registry sees it. */
  datatype Entry = Entry(plugin: Word, streams: set<nat>)

  type Registry = map<Word, Entry>

  ghost predicate Holds(r: Registry, hash: Word, stream: nat) {
    hash in r && stream in r[hash].streams
  }

  /** The first plugin a search in the order of the hashes meets that has the stream. */
  ghost predicate HoldsFirst(r: Registry, hash: Word, stream: nat) {
    Holds(r, hash, stream) && forall other: Word :: Holds(r, other, stream) ==> hash <= other
  }

  function Without(r: Registry, hash: Word, stream: nat): Registry
    requires hash in r
  {
    r[hash := r[hash].(streams := r[hash].streams - {stream})]
  }

  /** `connectClient`: the plugin must be registered and must not have the stream. */
  ghost predicate Connected(r: Registry, stream: nat, hash: Word, r': Registry, ok: bool) {
    && (ok <==> hash in r && stream !in r[hash].streams)
    && r' == if ok then r[hash := r[hash].(streams := r[hash].streams + {stream})] else r
  }

  /** `disconnectClient` with a hash. */
  ghost predicate DisconnectedFrom(r: Registry, stream: nat, hash: Word, r': Registry, ok: bool) {
    && (ok <==> Holds(r, hash, stream))
    && r' == if ok then Without(r, hash, stream) else r
  }

  /** `disconnectClient` without. */
  ghost predicate DisconnectedAnywhere(r: Registry, stream: nat, r': Registry, ok: bool) {
    && (ok ==> exists hash: Word :: HoldsFirst(r, hash, stream) && r' == Without(r, hash, stream))
    && (!ok ==> r' == r && forall hash: Word :: !Holds(r, hash, stream))
  }

  /**
   For a stream the plugin has, the search does what the lookup does exactly when no plugin with a
   smaller hash has the stream too.
   */
  lemma SearchIsLookupExactlyWhen(r: Registry, stream: nat, hash: Word, r': Registry, ok: bool)
    requires Holds(r, hash, stream) && DisconnectedAnywhere(r, stream, r', ok)
    ensures DisconnectedFrom(r, stream, hash, r', ok) <==> HoldsFirst(r, hash, stream)
  {
    assert ok;
    var first: Word :| HoldsFirst(r, first, stream) && r' == Without(r, first, stream);
    if first != hash {
      assert Holds(r', hash, stream);
    }
  }

  // ----- runs -----

  /** The registry, and the streams that have asked to be connected: each does so once in its life. */
  datatype State = State(registry: Registry, asked: set<nat>)

  datatype Action =
    | AddPlugin(plugin: Word)
    | RemovePlugin(hash: Word)
    | Connect(stream: nat, hash: Word)
    | Disconnect(stream: nat, hash: Word)

  ghost predicate Step(s: State, a: Action, s': State) {
    match a
    case AddPlugin(plugin) =>
      && plugin != 0
      && s' == (if ToHash(plugin) in s.registry then s
                else s.(registry := s.registry[ToHash(plugin) := Entry(plugin, {})]))
    case RemovePlugin(hash) =>
      s' == if hash == 0 then s else s.(registry := s.registry - {hash})
    case Connect(stream, hash) =>
      && stream !in s.asked && s'.asked == s.asked + {stream}
      && exists ok :: Connected(s.registry, stream, hash, s'.registry, ok)
    case Disconnect(stream, hash) =>
      && s'.asked == s.asked
      && exists ok ::
           if hash != 0 then DisconnectedFrom(s.registry, stream, hash, s'.registry, ok)
           else DisconnectedAnywhere(s.registry, stream, s'.registry, ok)
  }

  /** Every key is the hash of its own plugin, and never the value that stands for no hash. */
  ghost predicate KeysAreHashes(r: Registry) {
    forall hash: Word :: hash in r ==> hash != 0 && r[hash].plugin == FromHash(hash)
  }

  /** A stream sits with at most one plugin, and only if it has asked. */
  ghost predicate OneHolder(s: State) {
    && (forall hash: Word, stream :: Holds(s.registry, hash, stream) ==> stream in s.asked)
    && (forall hash: Word, other: Word, stream ::
          Holds(s.registry, hash, stream) && Holds(s.registry, other, stream) ==> hash == other)
  }

  lemma StepKeepsHolders(s: State, a: Action, s': State)
    requires OneHolder(s) && Step(s, a, s')
    ensures OneHolder(s')
  {
    forall hash: Word, stream | Holds(s'.registry, hash, stream)
      ensures Holds(s.registry, hash, stream) || (a.Connect? && stream == a.stream && hash == a.hash)
    {
    }
  }

  lemma PluginKey(plugin: Word)
    requires plugin != 0
    ensures ToHash(plugin) != 0 && FromHash(ToHash(plugin)) == plugin
  {
    ToHashZeroOnlyForNull(plugin);
    FromHashUndoesToHash(plugin);
  }

  lemma StepKeepsKeys(s: State, a: Action, s': State)
    requires KeysAreHashes(s.registry) && Step(s, a, s')
    ensures KeysAreHashes(s'.registry)
  {
    if a.AddPlugin? {
      PluginKey(a.plugin);
    }
  }

  ghost predicate Run(states: seq<State>, actions: seq<Action>) {
    && |states| == |actions| + 1 && states[0] == State(map[], {})
    && forall i :: 0 <= i < |actions| ==> Step(states[i], actions[i], states[i + 1])
  }

  lemma {:induction false} RunKeepsRegistry(states: seq<State>, actions: seq<Action>, n: nat)
    requires Run(states, actions) && n < |states|
    ensures KeysAreHashes(states[n].registry) && OneHolder(states[n])
  {
    if n > 0 {
      RunKeepsRegistry(states, actions, n - 1);
      StepKeepsKeys(states[n - 1], actions[n - 1], states[n]);
      StepKeepsHolders(states[n - 1], actions[n - 1], states[n]);
    }
  }

  /** Every key is the hash of the plugin stored under it. */
  lemma KeysNameTheirPlugins(states: seq<State>, actions: seq<Action>, n: nat, hash: Word)
    requires Run(states, actions) && n < |states| && hash in states[n].registry
    ensures hash == ToHash(states[n].registry[hash].plugin) && states[n].registry[hash].plugin != 0
  {
    RunKeepsRegistry(states, actions, n);
    ToHashUndoesFromHash(hash);
    ToHashZeroOnlyForNull(FromHash(hash));
  }

  lemma SearchWithOneHolder(s: State, stream: nat, hash: Word, r': Registry, ok: bool)
    requires OneHolder(s) && Holds(s.registry, hash, stream) && DisconnectedAnywhere(s.registry, stream, r', ok)
    ensures DisconnectedFrom(s.registry, stream, hash, r', ok) && ok
  {
    assert HoldsFirst(s.registry, hash, stream);
    SearchIsLookupExactlyWhen(s.registry, stream, hash, r', ok);
  }

  /**
   In every run, leaving without a hash does what leaving with the hash of the plugin that has the
   stream does; and it changes nothing exactly when no plugin has the stream.
   */
  lemma SearchFindsTheOwner(
      states: seq<State>, actions: seq<Action>, n: nat, stream: nat, r': Registry, ok: bool)
    requires Run(states, actions) && n < |states|
    requires DisconnectedAnywhere(states[n].registry, stream, r', ok)
    ensures forall hash: Word :: Holds(states[n].registry, hash, stream) ==>
              DisconnectedFrom(states[n].registry, stream, hash, r', ok)
    ensures ok <==> exists hash: Word :: Holds(states[n].registry, hash, stream)
  {
    RunKeepsRegistry(states, actions, n);
    forall hash: Word | Holds(states[n].registry, hash, stream)
      ensures DisconnectedFrom(states[n].registry, stream, hash, r', ok) && ok
    {
      SearchWithOneHolder(states[n], stream, hash, r', ok);
    }
    if ok {
      var first: Word :|
        HoldsFirst(states[n].registry, first, stream) && r' == Without(states[n].registry, first, stream);
      assert Holds(states[n].registry, first, stream);
    }
  }

  // ----- the registry as an object -----

  ghost predicate IsLeast(least: Word, keys: set<Word>) {
    least in keys && forall other: Word :: other in keys ==> least <= other
  }

  lemma LeastExists(keys: set<Word>, some: Word)
    requires some in keys
    ensures exists least: Word :: IsLeast(least, keys)
    decreases some
  {
    if !IsLeast(some, keys) {
      var smaller: Word :| smaller in keys && smaller < some;
      LeastExists(keys, smaller);
    }
  }

  class ServerCtrl {
    var mSharedData: Registry

    constructor ()
      ensures mSharedData == map[]
    {
      mSharedData := map[];
    }

    method AddPlugin(plugin: Word) returns (hash: Option<Word>)
      requires plugin != 0
      modifies this
      ensures hash == if ToHash(plugin) in old(mSharedData) then None else Some(ToHash(plugin))
      ensures hash.Some? ==> mSharedData == old(mSharedData)[hash.value := Entry(plugin, {})]
      ensures hash.None? ==> mSharedData == old(mSharedData)
      ensures Step(State(old(mSharedData), {}), Action.AddPlugin(plugin), State(mSharedData, {}))
    {
      var key := ToHash(plugin);
      if key in mSharedData {
        return None;
      }
      mSharedData := mSharedData[key := Entry(plugin, {})];
      return Some(key);
    }

    method RemovePlugin(hash: Word) returns (ok: bool)
      modifies this
      ensures ok <==> hash != 0 && hash in old(mSharedData)
      ensures ok ==> hash !in mSharedData
      ensures forall other: Word :: other in mSharedData <==> other in old(mSharedData) && !(ok && other == hash)
      ensures forall other: Word :: other in mSharedData ==> mSharedData[other] == old(mSharedData)[other]
      ensures Step(State(old(mSharedData), {}), Action.RemovePlugin(hash), State(mSharedData, {}))
    {
      if hash == 0 {
        return false;
      }
      ok := hash in mSharedData;
      mSharedData := mSharedData - {hash};
    }

    method ConnectClient(stream: nat, hash: Word) returns (ok: bool)
      modifies this
      ensures Connected(old(mSharedData), stream, hash, mSharedData, ok)
      ensures mSharedData.Keys == old(mSharedData.Keys) && (ok ==> Holds(mSharedData, hash, stream))
      ensures forall h: Word, t :: h in mSharedData && !(ok && h == hash && t == stream) ==>
                (Holds(mSharedData, h, t) <==> Holds(old(mSharedData), h, t))
    {
      if hash !in mSharedData || stream in mSharedData[hash].streams {
        return false;
      }
      mSharedData := mSharedData[hash := mSharedData[hash].(streams := mSharedData[hash].streams + {stream})];
      return true;
    }

    method DisconnectClient(stream: nat, hash: Word) returns (ok: bool)
      modifies this
      ensures hash != 0 ==> DisconnectedFrom(old(mSharedData), stream, hash, mSharedData, ok)
      ensures hash == 0 ==> DisconnectedAnywhere(old(mSharedData), stream, mSharedData, ok)
      ensures mSharedData.Keys == old(mSharedData.Keys)
      ensures hash != 0 ==> !Holds(mSharedData, hash, stream)
      ensures forall h: Word, t :: t != stream || (hash != 0 && h != hash) ==>
                (Holds(mSharedData, h, t) <==> Holds(old(mSharedData), h, t))
    {
      if hash != 0 {
        if hash !in mSharedData {
          return false;
        }
        ok := RemoveStream(hash, stream);
        return;
      }
      var rest := mSharedData.Keys;
      while rest != {}
        invariant rest <= mSharedData.Keys && mSharedData == old(mSharedData)
        invariant forall key: Word :: key in mSharedData && key !in rest ==> !Holds(mSharedData, key, stream)
        decreases rest
      {
        ghost var some: Word :| some in rest;
        LeastExists(rest, some);
        var it: Word :| it in rest && forall other: Word :: other in rest ==> it <= other;
        var removed := RemoveStream(it, stream);
        if removed {
          assert HoldsFirst(old(mSharedData), it, stream);
          return true;
        }
        rest := rest - {it};
      }
      return false;
    }

    /** `SharedData::removeStream` of the entry. */
    method RemoveStream(hash: Word, stream: nat) returns (ok: bool)
      requires hash in mSharedData
      modifies this
      ensures DisconnectedFrom(old(mSharedData), stream, hash, mSharedData, ok)
    {
      ok := stream in mSharedData[hash].streams;
      mSharedData := Without(mSharedData, hash, stream);
      if !ok {
        assert mSharedData[hash].streams == old(mSharedData)[hash].streams;
        assert mSharedData == old(mSharedData);
      }
    }
  }

  lemma SearchTakesFirstHolder(r: Registry, first: Word, second: Word, stream: nat, r': Registry, ok: bool)
    requires first < second && r.Keys == {first, second}
    requires Holds(r, first, stream) && Holds(r, second, stream) && DisconnectedAnywhere(r, stream, r', ok)
    ensures ok && r' == Without(r, first, stream) && !DisconnectedFrom(r, stream, second, r', ok)
  {
    SearchIsLookupExactlyWhen(r, stream, second, r', ok);
    assert HoldsFirst(r, first, stream);
    SearchIsLookupExactlyWhen(r, stream, first, r', ok);
  }

  /**
   A stream that asks twice is the input that fails: connected to two plugins, it leaves without a hash
   the one with the smaller hash, and stays with the other.
   */
  method SearchMissesSecondHolder(first: Word, second: Word, stream: nat)
    returns (before: Registry, after: Registry, ok: bool)
    requires 0 < first < second
    ensures KeysAreHashes(before) && before.Keys == {first, second}
    ensures Holds(before, first, stream) && Holds(before, second, stream)
    ensures ok && after == Without(before, first, stream)
    ensures !DisconnectedFrom(before, stream, second, after, ok)
  {
    var ctrl := new ServerCtrl();
    AddPluginAt(ctrl, first);
    AddPluginAt(ctrl, second);
    var connected := ctrl.ConnectClient(stream, first);
    connected := ctrl.ConnectClient(stream, second);
    before := ctrl.mSharedData;
    ok := ctrl.DisconnectClient(stream, 0);
    after := ctrl.mSharedData;
    SearchTakesFirstHolder(before, first, second, stream, after, ok);
  }

  /** The plugin whose address has the given hash is added. */
  method AddPluginAt(ctrl: ServerCtrl, hash: Word)
    requires hash != 0 && hash !in ctrl.mSharedData && KeysAreHashes(ctrl.mSharedData)
    modifies ctrl
    ensures ctrl.mSharedData.Keys == old(ctrl.mSharedData.Keys) + {hash}
    ensures KeysAreHashes(ctrl.mSharedData) && ctrl.mSharedData[hash].streams == {}
    ensures forall other: Word :: other in old(ctrl.mSharedData) ==>
              ctrl.mSharedData[other] == old(ctrl.mSharedData)[other]
  {
    ToHashUndoesFromHash(hash);
    ToHashZeroOnlyForNull(FromHash(hash));
    var added := ctrl.AddPlugin(FromHash(hash));
  }
}
