/**
 Parameter ids (modules/module.cpp): a module numbers its parameters from the offset `moduleId * 1024`, in
 32-bit arithmetic, and registers them with the plugin.
 */
module ModuleIds {
  import opened CorePlugins

  const UINT32_SIZE: nat := 0x1_0000_0000
  const PARAM_OFFSET: nat := 1024

  // The sizes CLAP gives the name and the module path of a parameter.
  const CLAP_NAME_SIZE: nat := 256
  const CLAP_PATH_SIZE: nat := 1024

  type Uint32 = n: nat | n < UINT32_SIZE

  function ParamId(moduleId: Uint32, id: Uint32): Uint32 {
    ((moduleId * PARAM_OFFSET) % UINT32_SIZE + id) % UINT32_SIZE
  }

  /** The id leads back to the module and the number in it. */
  ghost predicate Decodes(moduleId: Uint32, id: Uint32) {
    ParamId(moduleId, id) / PARAM_OFFSET == moduleId && ParamId(moduleId, id) % PARAM_OFFSET == id
  }

  lemma DecodesExactlyWhen(moduleId: Uint32, id: Uint32)
    ensures Decodes(moduleId, id) <==> moduleId < UINT32_SIZE / PARAM_OFFSET && id < PARAM_OFFSET
    ensures PARAM_OFFSET == 1024 && UINT32_SIZE / PARAM_OFFSET == 0x40_0000
  {
  }

  /** Number 1024 of a module is number 0 of the next. */
  lemma NumbersRunOver(moduleId: Uint32)
    requires moduleId + 1 < UINT32_SIZE
    ensures ParamId(moduleId, PARAM_OFFSET) == ParamId(moduleId + 1, 0)
  {
  }

  /** A parameter as its module describes it. */
  datatype Spec = Spec(moduleName: string, moduleId: Uint32, name: string, id: Uint32, defaultValue: real)

  /** Names up to the full size of their buffers pass the check. */
  predicate NamesFit(moduleName: string, name: string) {
    |name| <= CLAP_NAME_SIZE && |moduleName| <= CLAP_PATH_SIZE
  }

  ghost predicate InRange(s: Spec) {
    s.moduleId < UINT32_SIZE / PARAM_OFFSET && s.id < PARAM_OFFSET
  }

  /** Within the ranges, ids are distinct as soon as the modules or the numbers are. */
  lemma DistinctWithinRange(s: Spec, t: Spec)
    requires InRange(s) && InRange(t)
    ensures ParamId(s.moduleId, s.id) == ParamId(t.moduleId, t.id) <==> s.moduleId == t.moduleId && s.id == t.id
  {
    DecodesExactlyWhen(s.moduleId, s.id);
    DecodesExactlyWhen(t.moduleId, t.id);
  }

  ghost predicate AllDistinct(specs: seq<Spec>) {
    forall i, j :: 0 <= i < j < |specs| ==> specs[i].moduleId != specs[j].moduleId || specs[i].id != specs[j].id
  }

  /** The outcome of `Module::addParameter`; the last two stand for its exceptions. */
  datatype Outcome = Added(param: Parameter) | NamesTooLong | DuplicateId

  class Module {
    const name: string
    const moduleId: Uint32
    const paramOffset: Uint32
    const plugin: CorePlugin

    constructor (plugin: CorePlugin, name: string, moduleId: Uint32)
      ensures this.plugin == plugin && this.name == name && this.moduleId == moduleId
      ensures paramOffset == (moduleId * PARAM_OFFSET) % UINT32_SIZE
    {
      this.plugin := plugin;
      this.name, this.moduleId := name, moduleId;
      paramOffset := (moduleId * PARAM_OFFSET) % UINT32_SIZE;
    }

    /** Names that are too long are refused before the plugin is touched, a duplicate id only afterwards. */
    method AddParameter(id: Uint32, paramName: string, defaultValue: real) returns (outcome: Outcome)
      requires plugin.IndexAgrees()
      requires paramOffset == (moduleId * PARAM_OFFSET) % UINT32_SIZE
      modifies plugin`params, plugin`paramsHashed
      ensures outcome.NamesTooLong? <==> |paramName| > CLAP_NAME_SIZE || |name| > CLAP_PATH_SIZE
      ensures outcome.DuplicateId? <==> NamesFit(name, paramName) && ParamId(moduleId, id) in old(plugin.paramsHashed)
      ensures plugin.IndexAgrees() <==> !outcome.DuplicateId?
      ensures outcome.Added? ==>
                && fresh(outcome.param) && outcome.param.id == ParamId(moduleId, id)
                && plugin.params == old(plugin.params) + [outcome.param]
                && plugin.paramsHashed == old(plugin.paramsHashed)[ParamId(moduleId, id) := outcome.param]
      ensures !outcome.Added? ==> plugin.params == old(plugin.params)
      ensures outcome.NamesTooLong? ==> plugin.paramsHashed == old(plugin.paramsHashed)
    {
      if |paramName| > CLAP_NAME_SIZE || |name| > CLAP_PATH_SIZE {
        return NamesTooLong;
      }
      var added := plugin.AddParameter((paramOffset + id) % UINT32_SIZE, defaultValue);
      return if added == null then DuplicateId else Added(added);
    }
  }

  /** Modules that number their parameters within the ranges, and each number once, never meet a duplicate. */
  method RegisterAll(plugin: CorePlugin, specs: seq<Spec>)
    requires plugin.IndexAgrees() && plugin.params == [] && AllDistinct(specs)
    requires forall i :: 0 <= i < |specs| ==> InRange(specs[i]) && NamesFit(specs[i].moduleName, specs[i].name)
    modifies plugin`params, plugin`paramsHashed
    ensures plugin.IndexAgrees() && |plugin.params| == |specs|
    ensures forall i :: 0 <= i < |specs| ==> plugin.params[i].id == ParamId(specs[i].moduleId, specs[i].id)
  {
    for n := 0 to |specs|
      invariant plugin.IndexAgrees() && |plugin.params| == n
      invariant forall i :: 0 <= i < n ==> plugin.params[i].id == ParamId(specs[i].moduleId, specs[i].id)
    {
      var owner := new Module(plugin, specs[n].moduleName, specs[n].moduleId);
      forall i | 0 <= i < n
        ensures ParamId(specs[i].moduleId, specs[i].id) != ParamId(specs[n].moduleId, specs[n].id)
      {
        DistinctWithinRange(specs[i], specs[n]);
      }
      var outcome := owner.AddParameter(specs[n].id, specs[n].name, specs[n].defaultValue);
    }
  }
}
