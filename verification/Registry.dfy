/** From registered plugins to a runtime: the registry, the validator and the assembler. */
module Registry {
  import opened Prelude

  datatype Scope = Workflows | Tools | Providers | Stores | EventSinks

  /** A contribution's name; stores are named by type and backend, the others have no second part. */
  type Key = (string, string)

  /** What a factory does when it is called. */
  datatype Factory = Absent | Raises | ReturnsNothing | Creates(made: nat)

  datatype Contribution = Contribution(key: Key, hookAccepts: bool, factory: Factory)

  datatype Plugin = Plugin(
    name: string,
    workflows: seq<Contribution>, tools: seq<Contribution>, providers: seq<Contribution>,
    stores: seq<Contribution>, eventSinks: seq<Contribution>)

  type ContributionIndex = map<Key, Contribution>

  function Of(plugin: Plugin, scope: Scope): seq<Contribution> {
    match scope
    case Workflows => plugin.workflows
    case Tools => plugin.tools
    case Providers => plugin.providers
    case Stores => plugin.stores
    case EventSinks => plugin.eventSinks
  }

  datatype RegistrationError = DuplicateName(name: string) | Conflict(scope: Scope, key: Key)

  // ----- one scope -----

  ghost predicate Fresh(list: seq<Contribution>, index: ContributionIndex) {
    && (forall i :: 0 <= i < |list| ==> list[i].key !in index)
    && (forall i, j :: 0 <= i < j < |list| ==> list[i].key != list[j].key)
  }

  function Added(index: ContributionIndex, list: seq<Contribution>): ContributionIndex {
    if list == [] then index else Added(index, Front(list))[Last(list).key := Last(list)]
  }

  lemma {:induction false} AddedHolds(index: ContributionIndex, list: seq<Contribution>)
    ensures forall key :: key in Added(index, list) <==>
                            key in index || exists i :: 0 <= i < |list| && list[i].key == key
    ensures forall key :: key in Added(index, list) ==>
              || (key in index && Added(index, list)[key] == index[key])
              || exists i :: 0 <= i < |list| && list[i].key == key && Added(index, list)[key] == list[i]
  {
    if list != [] {
      AddedHolds(index, Front(list));
      assert forall i :: 0 <= i < |list| - 1 ==> Front(list)[i] == list[i];
      forall key | key in index || exists i :: 0 <= i < |list| && list[i].key == key
        ensures key in Added(index, list)
      {
        if i :| 0 <= i < |list| && list[i].key == key {
          if i < |list| - 1 { assert Front(list)[i].key == key; }
        }
      }
    }
  }

  /** Adding a fresh list: what was there stays, and each contribution is under its own key. */
  lemma {:induction false} AddedFresh(index: ContributionIndex, list: seq<Contribution>)
    requires Fresh(list, index)
    ensures forall key :: key in index ==> key in Added(index, list) && Added(index, list)[key] == index[key]
    ensures forall i :: 0 <= i < |list| ==>
                          list[i].key in Added(index, list) && Added(index, list)[list[i].key] == list[i]
  {
    if list != [] {
      assert forall i :: 0 <= i < |list| - 1 ==> Front(list)[i] == list[i];
      AddedFresh(index, Front(list));
      forall i | 0 <= i < |list|
        ensures list[i].key in Added(index, list) && Added(index, list)[list[i].key] == list[i]
      {
        if i < |list| - 1 { assert Front(list)[i] == list[i] && list[i].key != list[|list| - 1].key; }
      }
    }
  }

  /** The index is the disjoint union of what the plugins contribute in one scope. */
  ghost predicate DisjointUnion(plugins: map<string, Plugin>, scope: Scope, index: ContributionIndex) {
    && Covers(plugins, scope, index)
    && Sourced(plugins, scope, index)
    && NoneShared(plugins, scope)
  }

  /** Every contribution is in the index under its own key. */
  ghost predicate Covers(plugins: map<string, Plugin>, scope: Scope, index: ContributionIndex) {
    forall name :: name in plugins ==> AllIndexed(Of(plugins[name], scope), index)
  }

  ghost predicate AllIndexed(list: seq<Contribution>, index: ContributionIndex) {
    forall i :: 0 <= i < |list| ==> list[i].key in index && index[list[i].key] == list[i]
  }

  /** Every entry of the index is some plugin's contribution. */
  ghost predicate Sourced(plugins: map<string, Plugin>, scope: Scope, index: ContributionIndex) {
    forall key :: key in index ==> index[key].key == key && Source(plugins, scope, index[key])
  }

  ghost predicate Source(plugins: map<string, Plugin>, scope: Scope, c: Contribution) {
    exists name :: name in plugins && Contributes(plugins[name], scope, c)
  }

  ghost predicate Contributes(plugin: Plugin, scope: Scope, c: Contribution) {
    c in Of(plugin, scope)
  }

  /** No key is contributed twice. */
  ghost predicate NoneShared(plugins: map<string, Plugin>, scope: Scope) {
    && (forall a, b :: a in plugins && b in plugins && a != b ==> Apart(Of(plugins[a], scope), Of(plugins[b], scope)))
    && (forall name :: name in plugins ==> Unrepeated(Of(plugins[name], scope)))
  }

  ghost predicate Apart(a: seq<Contribution>, b: seq<Contribution>) {
    forall i, j :: 0 <= i < |a| && 0 <= j < |b| ==> a[i].key != b[j].key
  }

  ghost predicate Unrepeated(list: seq<Contribution>) {
    forall i, j :: 0 <= i < j < |list| ==> list[i].key != list[j].key
  }

  lemma {:induction false} CoverGrows(plugins: map<string, Plugin>, scope: Scope, index: ContributionIndex,
                                      plugin: Plugin)
    requires Covers(plugins, scope, index) && plugin.name !in plugins && Fresh(Of(plugin, scope), index)
    ensures Covers(plugins[plugin.name := plugin], scope, Added(index, Of(plugin, scope)))
  {
    var plugins', index' := plugins[plugin.name := plugin], Added(index, Of(plugin, scope));
    AddedFresh(index, Of(plugin, scope));
    hide Added, Fresh;
    forall name | name in plugins' ensures AllIndexed(Of(plugins'[name], scope), index') {
      if name != plugin.name { assert AllIndexed(Of(plugins[name], scope), index); }
    }
  }

  lemma {:induction false} SourceGrows(plugins: map<string, Plugin>, scope: Scope, index: ContributionIndex,
                                       plugin: Plugin)
    requires Sourced(plugins, scope, index) && plugin.name !in plugins && Fresh(Of(plugin, scope), index)
    ensures Sourced(plugins[plugin.name := plugin], scope, Added(index, Of(plugin, scope)))
  {
    var plugins', list := plugins[plugin.name := plugin], Of(plugin, scope);
    var index' := Added(index, list);
    AddedHolds(index, list);
    AddedFresh(index, list);
    hide Added, Fresh, Source;
    forall key | key in index' ensures index'[key].key == key && Source(plugins', scope, index'[key]) {
      if key in index {
        SourceStays(plugins, scope, plugin, index[key]);
      } else {
        OwnSource(plugins, scope, plugin, index'[key]);
      }
    }
  }

  lemma SourceStays(plugins: map<string, Plugin>, scope: Scope, plugin: Plugin, c: Contribution)
    requires Source(plugins, scope, c) && plugin.name !in plugins
    ensures Source(plugins[plugin.name := plugin], scope, c)
  {
    var name :| name in plugins && Contributes(plugins[name], scope, c);
    assert plugins[plugin.name := plugin][name] == plugins[name];
  }

  lemma OwnSource(plugins: map<string, Plugin>, scope: Scope, plugin: Plugin, c: Contribution)
    requires c in Of(plugin, scope)
    ensures Source(plugins[plugin.name := plugin], scope, c)
  {
    assert Contributes(plugins[plugin.name := plugin][plugin.name], scope, c);
  }

  lemma {:induction false} SharingStaysOut(
      plugins: map<string, Plugin>, scope: Scope, index: ContributionIndex, plugin: Plugin)
    requires Covers(plugins, scope, index) && NoneShared(plugins, scope) && plugin.name !in plugins
    requires Fresh(Of(plugin, scope), index)
    ensures NoneShared(plugins[plugin.name := plugin], scope)
  {
    var plugins' := plugins[plugin.name := plugin];
    forall name | name in plugins
      ensures Apart(Of(plugins[name], scope), Of(plugin, scope)) && Apart(Of(plugin, scope), Of(plugins[name], scope))
    {
      assert AllIndexed(Of(plugins[name], scope), index);
    }
    hide Apart, Covers;
    assert Unrepeated(Of(plugin, scope));
    forall a, b | a in plugins' && b in plugins' && a != b
      ensures Apart(Of(plugins'[a], scope), Of(plugins'[b], scope))
    {
      if a != plugin.name && b != plugin.name { assert plugins'[a] == plugins[a] && plugins'[b] == plugins[b]; }
    }
  }

  lemma {:induction false} UnionGrows(plugins: map<string, Plugin>, scope: Scope, index: ContributionIndex,
                                      plugin: Plugin)
    requires DisjointUnion(plugins, scope, index) && plugin.name !in plugins && Fresh(Of(plugin, scope), index)
    ensures DisjointUnion(plugins[plugin.name := plugin], scope, Added(index, Of(plugin, scope)))
  {
    hide Covers, Sourced, NoneShared, Fresh, Added;
    CoverGrows(plugins, scope, index, plugin);
    SourceGrows(plugins, scope, index, plugin);
    SharingStaysOut(plugins, scope, index, plugin);
  }

  // ----- the registry -----

  ghost predicate Accepts(registry: PluginRegistry, plugin: Plugin)
    reads registry
  {
    && plugin.name !in registry.plugins
    && forall scope :: Fresh(Of(plugin, scope), registry.Index(scope))
  }

  class PluginRegistry {
    var plugins: map<string, Plugin>
    var workflows: ContributionIndex
    var tools: ContributionIndex
    var providers: ContributionIndex
    var stores: ContributionIndex
    var eventSinks: ContributionIndex

    function Index(scope: Scope): ContributionIndex
      reads this
    {
      match scope
      case Workflows => workflows
      case Tools => tools
      case Providers => providers
      case Stores => stores
      case EventSinks => eventSinks
    }

    ghost predicate Valid()
      reads this
    {
      && (forall name :: name in plugins ==> plugins[name].name == name)
      && forall scope :: DisjointUnion(plugins, scope, Index(scope))
    }

    constructor ()
      ensures Valid() && plugins == map[] && forall scope :: Index(scope) == map[]
    {
      plugins, workflows, tools, providers, stores, eventSinks := map[], map[], map[], map[], map[], map[];
    }

    /** The duplicate check of one scope: the first key already seen or already registered. */
    method FindConflict(list: seq<Contribution>, index: ContributionIndex) returns (conflict: Option<Key>)
      ensures conflict.None? <==> Fresh(list, index)
      ensures conflict.Some? ==>
                exists i :: 0 <= i < |list| && list[i].key == conflict.value && Fresh(list[..i], index)
                            && (conflict.value in index || exists j :: 0 <= j < i && list[j].key == conflict.value)
    {
      var seen: set<Key> := {};
      for i := 0 to |list|
        invariant Fresh(list[..i], index)
        invariant forall key :: key in seen <==> exists j :: 0 <= j < i && list[j].key == key
      {
        if list[i].key in seen || list[i].key in index {
          return Some(list[i].key);
        }
        seen := seen + {list[i].key};
        assert forall j :: 0 <= j < i ==> list[j].key in seen;
      }
      assert list[..|list|] == list;
      return None;
    }

    method IndexAll(index: ContributionIndex, list: seq<Contribution>) returns (grown: ContributionIndex)
      ensures grown == Added(index, list)
    {
      grown := index;
      for i := 0 to |list|
        invariant grown == Added(index, list[..i])
      {
        assert Front(list[..i + 1]) == list[..i] && Last(list[..i + 1]) == list[i];
        grown := grown[list[i].key := list[i]];
      }
      assert list[..|list|] == list;
    }

    /** A plugin is registered whole or not at all. */
    method Register(plugin: Plugin) returns (error: Option<RegistrationError>)
      requires Valid()
      modifies this
      ensures Valid()
      ensures error.None? <==> old(Accepts(this, plugin))
      ensures error.None? ==>
                && plugins == old(plugins)[plugin.name := plugin]
                && forall scope :: Index(scope) == Added(old(Index(scope)), Of(plugin, scope))
      ensures error.Some? ==> plugins == old(plugins) && forall scope :: Index(scope) == old(Index(scope))
      ensures error.Some? && error.value.Conflict? ==>
                !Fresh(Of(plugin, error.value.scope), old(Index(error.value.scope)))
    {
      hide Fresh, DisjointUnion, Added;
      if plugin.name in plugins {
        return Some(DuplicateName(plugin.name));
      }
      error := FirstConflict(plugin);
      if error.Some? {
        return;
      }
      forall scope
        ensures DisjointUnion(plugins[plugin.name := plugin], scope, Added(Index(scope), Of(plugin, scope)))
      {
        UnionGrows(plugins, scope, Index(scope), plugin);
      }
      plugins := plugins[plugin.name := plugin];
      workflows := IndexAll(workflows, plugin.workflows);
      tools := IndexAll(tools, plugin.tools);
      providers := IndexAll(providers, plugin.providers);
      stores := IndexAll(stores, plugin.stores);
      eventSinks := IndexAll(eventSinks, plugin.eventSinks);
      forall scope ensures Index(scope) == Added(old(Index(scope)), Of(plugin, scope)) {
        match scope {
          case Workflows => case Tools => case Providers => case Stores => case EventSinks =>
        }
      }
    }

    /** Registering plugins one after the other, up to the first that is refused. */
    method RegisterAll(list: seq<Plugin>) returns (error: Option<RegistrationError>, taken: nat)
      requires Valid()
      modifies this
      ensures Valid()
      ensures taken <= |list| && (error.None? <==> taken == |list|)
      ensures error.Some? ==> !Accepts(this, list[taken])
      ensures forall name :: name in plugins <==>
                name in old(plugins) || exists i :: 0 <= i < taken && list[i].name == name
      ensures forall name :: name in old(plugins) ==> plugins[name] == old(plugins)[name]
      ensures forall i :: 0 <= i < taken ==> list[i].name in plugins && plugins[list[i].name] == list[i]
    {
      hide DisjointUnion, Fresh, Added;
      ghost var before := plugins;
      taken := 0;
      while taken < |list|
        invariant 0 <= taken <= |list| && Valid()
        invariant forall name :: name in plugins <==>
                    name in before || exists i :: 0 <= i < taken && list[i].name == name
        invariant forall name :: name in before ==> plugins[name] == before[name]
        invariant forall i :: 0 <= i < taken ==> list[i].name in plugins && plugins[list[i].name] == list[i]
      {
        error := Register(list[taken]);
        if error.Some? {
          return;
        }
        assert forall i :: 0 <= i < taken ==> list[i].name != list[taken].name;
        taken := taken + 1;
      }
      error := None;
    }

    method FirstConflict(plugin: Plugin) returns (error: Option<RegistrationError>)
      ensures error.None? <==> forall scope :: Fresh(Of(plugin, scope), Index(scope))
      ensures error.Some? ==> error.value.Conflict? && !Fresh(Of(plugin, error.value.scope), Index(error.value.scope))
    {
      hide Fresh;
      var conflict := FindConflict(plugin.workflows, workflows);
      assert Fresh(Of(plugin, Workflows), Index(Workflows)) <==> conflict.None?;
      if conflict.Some? {
        return Some(Conflict(Workflows, conflict.value));
      }
      conflict := FindConflict(plugin.tools, tools);
      assert Fresh(Of(plugin, Tools), Index(Tools)) <==> conflict.None?;
      if conflict.Some? {
        return Some(Conflict(Tools, conflict.value));
      }
      conflict := FindConflict(plugin.providers, providers);
      assert Fresh(Of(plugin, Providers), Index(Providers)) <==> conflict.None?;
      if conflict.Some? {
        return Some(Conflict(Providers, conflict.value));
      }
      conflict := FindConflict(plugin.stores, stores);
      assert Fresh(Of(plugin, Stores), Index(Stores)) <==> conflict.None?;
      if conflict.Some? {
        return Some(Conflict(Stores, conflict.value));
      }
      conflict := FindConflict(plugin.eventSinks, eventSinks);
      assert Fresh(Of(plugin, EventSinks), Index(EventSinks)) <==> conflict.None?;
      if conflict.Some? {
        return Some(Conflict(EventSinks, conflict.value));
      }
      error := None;
    }
  }

  // ----- the effective plugin set -----

  datatype Effective = Effective(tools: ContributionIndex, providers: ContributionIndex,
                                 stores: ContributionIndex, eventSinks: ContributionIndex)

  datatype ConfigError =
    | UnknownPlugin(name: string) | ToolNotAllowed(name: string)
    | Unresolved(key: Key) | BadToolConfig(key: Key) | HookRefused(key: Key)

  predicate AllKnown(plugins: map<string, Plugin>, enabled: seq<string>) {
    forall name :: name in enabled ==> name in plugins
  }

  /** The contributions of the enabled plugins in one scope, a later one replacing an earlier. */
  function EffectiveIndex(plugins: map<string, Plugin>, enabled: seq<string>, scope: Scope): ContributionIndex
    requires AllKnown(plugins, enabled)
  {
    if enabled == [] then map[]
    else Added(EffectiveIndex(plugins, Front(enabled), scope), Of(plugins[Last(enabled)], scope))
  }

  /** What is effective: the registered contributions of the enabled plugins, and nothing else. */
  lemma {:induction false} EffectiveAt(
      plugins: map<string, Plugin>, enabled: seq<string>, scope: Scope, index: ContributionIndex, key: Key)
    requires AllKnown(plugins, enabled) && DisjointUnion(plugins, scope, index)
    ensures key in EffectiveIndex(plugins, enabled, scope) <==> Offered(plugins, enabled, scope, key)
    ensures key in EffectiveIndex(plugins, enabled, scope) ==>
              key in index && EffectiveIndex(plugins, enabled, scope)[key] == index[key]
  {
    if enabled != [] {
      var front, list := Front(enabled), Of(plugins[Last(enabled)], scope);
      EffectiveAt(plugins, front, scope, index, key);
      OfferedSplit(plugins, enabled, scope, key);
      assert AllIndexed(list, index);
      hide Added, DisjointUnion, Of, Offered;
      AddedAgrees(EffectiveIndex(plugins, front, scope), list, index, key);
    }
  }

  /** Adding registered contributions to part of the index gives part of the index. */
  lemma {:induction false} AddedAgrees(
      before: ContributionIndex, list: seq<Contribution>, index: ContributionIndex, key: Key)
    requires AllIndexed(list, index) && (key in before ==> key in index && before[key] == index[key])
    ensures key in Added(before, list) <==> key in before || Offers(list, key)
    ensures key in Added(before, list) ==> key in index && Added(before, list)[key] == index[key]
  {
    AddedHolds(before, list);
    hide Added;
    var after := Added(before, list);
    if i :| 0 <= i < |list| && list[i].key == key && key in after && after[key] == list[i] {
      assert list[i].key in index;
    }
  }

  lemma {:induction false} EffectiveIs(
      plugins: map<string, Plugin>, enabled: seq<string>, scope: Scope, index: ContributionIndex)
    requires AllKnown(plugins, enabled) && DisjointUnion(plugins, scope, index)
    ensures forall key :: key in EffectiveIndex(plugins, enabled, scope) ==>
              key in index && EffectiveIndex(plugins, enabled, scope)[key] == index[key]
    ensures forall key :: key in EffectiveIndex(plugins, enabled, scope) <==> Offered(plugins, enabled, scope, key)
  {
    hide EffectiveIndex, DisjointUnion, Offered;
    forall key
      ensures key in EffectiveIndex(plugins, enabled, scope) <==> Offered(plugins, enabled, scope, key)
      ensures key in EffectiveIndex(plugins, enabled, scope) ==>
                key in index && EffectiveIndex(plugins, enabled, scope)[key] == index[key]
    {
      EffectiveAt(plugins, enabled, scope, index, key);
    }
  }

  ghost predicate Offered(plugins: map<string, Plugin>, enabled: seq<string>, scope: Scope, key: Key)
    requires AllKnown(plugins, enabled)
  {
    exists name :: name in enabled && Offers(Of(plugins[name], scope), key)
  }

  ghost predicate Offers(list: seq<Contribution>, key: Key) {
    exists i :: 0 <= i < |list| && list[i].key == key
  }

  lemma OfferedSplit(plugins: map<string, Plugin>, enabled: seq<string>, scope: Scope, key: Key)
    requires AllKnown(plugins, enabled) && enabled != []
    ensures AllKnown(plugins, Front(enabled))
    ensures Offered(plugins, enabled, scope, key) <==>
              Offered(plugins, Front(enabled), scope, key) || Offers(Of(plugins[Last(enabled)], scope), key)
  {
    assert enabled == Front(enabled) + [Last(enabled)];
  }

  /** The effective index does not depend on the order in which plugins are enabled. */
  lemma {:induction false} EffectiveOrderFree(
      plugins: map<string, Plugin>, enabled: seq<string>, enabled': seq<string>, scope: Scope, index: ContributionIndex)
    requires AllKnown(plugins, enabled) && AllKnown(plugins, enabled') && DisjointUnion(plugins, scope, index)
    requires forall name :: name in enabled <==> name in enabled'
    ensures EffectiveIndex(plugins, enabled, scope) == EffectiveIndex(plugins, enabled', scope)
  {
    EffectiveIs(plugins, enabled, scope, index);
    EffectiveIs(plugins, enabled', scope, index);
    hide EffectiveIndex, DisjointUnion;
    assert forall key :: Offered(plugins, enabled, scope, key) <==> Offered(plugins, enabled', scope, key);
  }

  function BuildEffective(plugins: map<string, Plugin>, enabled: seq<string>): Effective
    requires AllKnown(plugins, enabled)
  {
    Effective(EffectiveIndex(plugins, enabled, Tools), EffectiveIndex(plugins, enabled, Providers),
              EffectiveIndex(plugins, enabled, Stores), EffectiveIndex(plugins, enabled, EventSinks))
  }

  /** The effective tools are those that an enabled plugin offers as tools, and so on for each kind. */
  lemma {:induction false} EffectiveKinds(registry: PluginRegistry, enabled: seq<string>, key: Key)
    requires registry.Valid() && AllKnown(registry.plugins, enabled)
    ensures var plugins, effective := registry.plugins, BuildEffective(registry.plugins, enabled);
            && (key in effective.tools <==> exists n :: n in enabled && Offers(plugins[n].tools, key))
            && (key in effective.providers <==> exists n :: n in enabled && Offers(plugins[n].providers, key))
            && (key in effective.stores <==> exists n :: n in enabled && Offers(plugins[n].stores, key))
            && (key in effective.eventSinks <==> exists n :: n in enabled && Offers(plugins[n].eventSinks, key))
  {
    hide EffectiveIndex, DisjointUnion, Offers;
    EffectiveAt(registry.plugins, enabled, Tools, registry.Index(Tools), key);
    EffectiveAt(registry.plugins, enabled, Providers, registry.Index(Providers), key);
    EffectiveAt(registry.plugins, enabled, Stores, registry.Index(Stores), key);
    EffectiveAt(registry.plugins, enabled, EventSinks, registry.Index(EventSinks), key);
  }

  method BuildEffectivePluginSet(registry: PluginRegistry, enabled: seq<string>)
    returns (result: Result<Effective, ConfigError>)
    ensures result.Ok? <==> AllKnown(registry.plugins, enabled)
    ensures result.Ok? ==> result.value == BuildEffective(registry.plugins, enabled)
    ensures result.Err? ==> exists i :: 0 <= i < |enabled| && result.error == UnknownPlugin(enabled[i])
                                        && enabled[i] !in registry.plugins && AllKnown(registry.plugins, enabled[..i])
  {
    hide Added;
    var tools, providers, stores, eventSinks := map[], map[], map[], map[];
    for i := 0 to |enabled|
      invariant AllKnown(registry.plugins, enabled[..i])
      invariant Effective(tools, providers, stores, eventSinks) == BuildEffective(registry.plugins, enabled[..i])
    {
      if enabled[i] !in registry.plugins {
        return Err(UnknownPlugin(enabled[i]));
      }
      assert Front(enabled[..i + 1]) == enabled[..i] && Last(enabled[..i + 1]) == enabled[i];
      var plugin := registry.plugins[enabled[i]];
      tools := registry.IndexAll(tools, plugin.tools);
      providers := registry.IndexAll(providers, plugin.providers);
      stores := registry.IndexAll(stores, plugin.stores);
      eventSinks := registry.IndexAll(eventSinks, plugin.eventSinks);
    }
    assert enabled[..|enabled|] == enabled;
    return Ok(Effective(tools, providers, stores, eventSinks));
  }

  // ----- configuration -----

  datatype ToolConfig = NoConfig | MappingConfig | OtherConfig

  /** One entry of a configuration: its name in the configuration and the contribution it names. */
  datatype Need = Need(entry: string, key: Key, config: ToolConfig)

  datatype Config = Config(
    enabled: seq<string>,
    allowlist: seq<string>,
    toolConfigs: seq<(string, ToolConfig)>,
    providers: seq<(string, string)>,
    stores: seq<(string, string)>,
    eventSinks: seq<(string, string)>)

  function ConfigFor(configs: seq<(string, ToolConfig)>, name: string): ToolConfig {
    if configs == [] then NoConfig
    else if configs[0].0 == name then configs[0].1
    else ConfigFor(configs[1..], name)
  }

  function ToolNeeds(config: Config): seq<Need> {
    seq(|config.allowlist|, i requires 0 <= i < |config.allowlist| =>
      Need(config.allowlist[i], (config.allowlist[i], ""), ConfigFor(config.toolConfigs, config.allowlist[i])))
  }

  function NamedNeeds(entries: seq<(string, string)>): seq<Need> {
    seq(|entries|, i requires 0 <= i < |entries| => Need(entries[i].0, (entries[i].1, ""), MappingConfig))
  }

  /** The artifact and checkpoint stores are built elsewhere. */
  function StoreNeeds(entries: seq<(string, string)>): seq<Need> {
    if entries == [] then []
    else (if entries[0].0 == "artifact" || entries[0].0 == "checkpoint" then []
          else [Need(entries[0].0, entries[0], MappingConfig)])
         + StoreNeeds(entries[1..])
  }

  /** What a configuration needs: each allowed tool and each named entry in order, the tools with the
      first configuration of their name; of the stores all but the two that are built elsewhere. */
  lemma {:induction false} NeedsAre(config: Config, entries: seq<(string, string)>, i: nat)
    ensures |ToolNeeds(config)| == |config.allowlist| && |NamedNeeds(entries)| == |entries|
    ensures i < |config.allowlist| ==>
              var need := ToolNeeds(config)[i];
              && need.entry == config.allowlist[i] && need.key == (config.allowlist[i], "")
              && (need.config == NoConfig || (need.entry, need.config) in config.toolConfigs)
              && forall k :: 0 <= k < |config.toolConfigs| && config.toolConfigs[k].0 == need.entry
                             && (forall l :: 0 <= l < k ==> config.toolConfigs[l].0 != need.entry) ==>
                   need.config == config.toolConfigs[k].1
    ensures i < |entries| ==> NamedNeeds(entries)[i] == Need(entries[i].0, (entries[i].1, ""), MappingConfig)
    ensures forall need :: need in StoreNeeds(entries) <==>
              && need.config == MappingConfig && need.key in entries && need.entry == need.key.0
              && need.entry != "artifact" && need.entry != "checkpoint"
  {
    if i < |config.allowlist| { ConfigIsFirst(config.toolConfigs, config.allowlist[i]); }
    StoresNeeded(entries);
  }

  lemma {:induction false} ConfigIsFirst(configs: seq<(string, ToolConfig)>, name: string)
    ensures ConfigFor(configs, name) == NoConfig || (name, ConfigFor(configs, name)) in configs
    ensures forall k :: 0 <= k < |configs| && configs[k].0 == name
                        && (forall l :: 0 <= l < k ==> configs[l].0 != name) ==>
              ConfigFor(configs, name) == configs[k].1
  {
    if configs != [] {
      ConfigIsFirst(configs[1..], name);
      forall k | 0 <= k < |configs| && configs[k].0 == name && (forall l :: 0 <= l < k ==> configs[l].0 != name)
        ensures ConfigFor(configs, name) == configs[k].1
      {
        if k > 0 {
          assert configs[0].0 != name;
          assert configs[1..][k - 1] == configs[k] && forall l :: 0 <= l < k - 1 ==> configs[1..][l] == configs[l + 1];
        }
      }
      if configs[0].0 == name { assert configs[0] == (name, configs[0].1); }
    }
  }

  lemma {:induction false} StoresNeeded(entries: seq<(string, string)>)
    ensures forall need :: need in StoreNeeds(entries) <==>
              && need.config == MappingConfig && need.key in entries && need.entry == need.key.0
              && need.entry != "artifact" && need.entry != "checkpoint"
  {
    if entries != [] {
      StoresNeeded(entries[1..]);
      assert entries == [entries[0]] + entries[1..];
    }
  }

  // ----- validation -----

  function CheckNeed(index: ContributionIndex, need: Need): Option<ConfigError> {
    if need.key !in index then Some(Unresolved(need.key))
    else if need.config.OtherConfig? then Some(BadToolConfig(need.key))
    else if !index[need.key].hookAccepts then Some(HookRefused(need.key))
    else None
  }

  function CheckNeeds(index: ContributionIndex, needs: seq<Need>): Option<ConfigError> {
    if needs == [] then None
    else if CheckNeed(index, needs[0]).Some? then CheckNeed(index, needs[0])
    else CheckNeeds(index, needs[1..])
  }

  function StrayConfig(configs: seq<(string, ToolConfig)>, allowlist: seq<string>): Option<ConfigError> {
    if configs == [] then None
    else if configs[0].0 !in allowlist then Some(ToolNotAllowed(configs[0].0))
    else StrayConfig(configs[1..], allowlist)
  }

  function OrElse(first: Option<ConfigError>, second: Option<ConfigError>): Option<ConfigError> {
    if first.Some? then first else second
  }

  function Check(effective: Effective, config: Config): Option<ConfigError> {
    OrElse(StrayConfig(config.toolConfigs, config.allowlist),
    OrElse(CheckNeeds(effective.tools, ToolNeeds(config)),
    OrElse(CheckNeeds(effective.providers, NamedNeeds(config.providers)),
    OrElse(CheckNeeds(effective.stores, StoreNeeds(config.stores)),
           CheckNeeds(effective.eventSinks, NamedNeeds(config.eventSinks))))))
  }

  method ValidateNeeds(index: ContributionIndex, needs: seq<Need>) returns (error: Option<ConfigError>)
    ensures error == CheckNeeds(index, needs)
  {
    for i := 0 to |needs|
      invariant CheckNeeds(index, needs) == CheckNeeds(index, needs[i..])
    {
      assert needs[i..][0] == needs[i] && needs[i..][1..] == needs[i + 1..];
      if needs[i].key !in index {
        return Some(Unresolved(needs[i].key));
      }
      if needs[i].config.OtherConfig? {
        return Some(BadToolConfig(needs[i].key));
      }
      if !index[needs[i].key].hookAccepts {
        return Some(HookRefused(needs[i].key));
      }
    }
    error := None;
  }

  method Validate(registry: PluginRegistry, config: Config) returns (result: Result<Effective, ConfigError>)
    ensures AllKnown(registry.plugins, config.enabled) ==>
              var effective := BuildEffective(registry.plugins, config.enabled);
              result == match Check(effective, config) case None => Ok(effective) case Some(e) => Err(e)
    ensures !AllKnown(registry.plugins, config.enabled) ==> result.Err? && result.error.UnknownPlugin?
  {
    var built := BuildEffectivePluginSet(registry, config.enabled);
    if built.Err? {
      return built;
    }
    hide CheckNeeds, BuildEffective, StoreNeeds, StrayConfig;
    var effective := built.value;
    var stray := StrayConfig(config.toolConfigs, config.allowlist);
    if stray.Some? {
      return Err(stray.value);
    }
    var error := ValidateNeeds(effective.tools, ToolNeeds(config));
    if error.Some? {
      return Err(error.value);
    }
    error := ValidateNeeds(effective.providers, NamedNeeds(config.providers));
    if error.Some? {
      return Err(error.value);
    }
    error := ValidateNeeds(effective.stores, StoreNeeds(config.stores));
    if error.Some? {
      return Err(error.value);
    }
    error := ValidateNeeds(effective.eventSinks, NamedNeeds(config.eventSinks));
    if error.Some? {
      return Err(error.value);
    }
    return Ok(effective);
  }

  // ----- assembly -----

  datatype AssemblyError =
    | MissingContribution(key: Key) | InvalidConfig(key: Key)
    | FactoryMissing(key: Key) | FactoryFailed(key: Key) | InvalidResult(key: Key)

  datatype Runtime = Runtime(providers: map<string, nat>, tools: map<string, nat>, eventSinks: map<string, nat>)

  function AssembleNeed(index: ContributionIndex, need: Need): Result<nat, AssemblyError> {
    if need.key !in index then Err(MissingContribution(need.key))
    else if need.config.OtherConfig? then Err(InvalidConfig(need.key))
    else
      match index[need.key].factory
      case Absent => Err(FactoryMissing(need.key))
      case Raises => Err(FactoryFailed(need.key))
      case ReturnsNothing => Err(InvalidResult(need.key))
      case Creates(made) => Ok(made)
  }

  /** The objects built so far, or the first error. */
  function AssembleNeeds(index: ContributionIndex, needs: seq<Need>): Result<map<string, nat>, AssemblyError> {
    if needs == [] then Ok(map[])
    else
      match AssembleNeeds(index, Front(needs))
      case Err(e) => Err(e)
      case Ok(assembled) =>
        match AssembleNeed(index, Last(needs))
        case Err(e) => Err(e)
        case Ok(made) => Ok(assembled[Last(needs).entry := made])
  }

  lemma {:induction false} FirstErrorStays(index: ContributionIndex, needs: seq<Need>, n: nat)
    requires n <= |needs| && AssembleNeeds(index, needs[..n]).Err?
    ensures AssembleNeeds(index, needs) == AssembleNeeds(index, needs[..n])
  {
    if n == |needs| {
      assert needs[..n] == needs;
    } else {
      assert Front(needs)[..n] == needs[..n];
      FirstErrorStays(index, Front(needs), n);
    }
  }

  method AssembleAll(index: ContributionIndex, needs: seq<Need>)
    returns (result: Result<map<string, nat>, AssemblyError>)
    ensures result == AssembleNeeds(index, needs)
  {
    var assembled: map<string, nat> := map[];
    for i := 0 to |needs|
      invariant AssembleNeeds(index, needs[..i]) == Ok(assembled)
    {
      assert Front(needs[..i + 1]) == needs[..i] && Last(needs[..i + 1]) == needs[i];
      var made := AssembleNeed(index, needs[i]);
      if made.Err? {
        FirstErrorStays(index, needs, i + 1);
        return Err(made.error);
      }
      assembled := assembled[needs[i].entry := made.value];
    }
    assert needs[..|needs|] == needs;
    return Ok(assembled);
  }

  function AssembleRuntime(effective: Effective, config: Config): Result<Runtime, AssemblyError> {
    match AssembleNeeds(effective.providers, NamedNeeds(config.providers))
    case Err(e) => Err(e)
    case Ok(providers) =>
      match AssembleNeeds(effective.tools, ToolNeeds(config))
      case Err(e) => Err(e)
      case Ok(tools) =>
        match AssembleNeeds(effective.stores, StoreNeeds(config.stores))
        case Err(e) => Err(e)
        case Ok(_) =>
          match AssembleNeeds(effective.eventSinks, NamedNeeds(config.eventSinks))
          case Err(e) => Err(e)
          case Ok(eventSinks) => Ok(Runtime(providers, tools, eventSinks))
  }

  method Assemble(effective: Effective, config: Config) returns (result: Result<Runtime, AssemblyError>)
    ensures result == AssembleRuntime(effective, config)
  {
    hide AssembleNeeds, StoreNeeds;
    var providers := AssembleAll(effective.providers, NamedNeeds(config.providers));
    if providers.Err? {
      return Err(providers.error);
    }
    var tools := AssembleAll(effective.tools, ToolNeeds(config));
    if tools.Err? {
      return Err(tools.error);
    }
    var stores := AssembleAll(effective.stores, StoreNeeds(config.stores));
    if stores.Err? {
      return Err(stores.error);
    }
    var eventSinks := AssembleAll(effective.eventSinks, NamedNeeds(config.eventSinks));
    if eventSinks.Err? {
      return Err(eventSinks.error);
    }
    return Ok(Runtime(providers.value, tools.value, eventSinks.value));
  }

  // ----- validation suffices for assembly -----

  lemma {:induction false} CheckedNeeds(index: ContributionIndex, needs: seq<Need>)
    ensures CheckNeeds(index, needs).None? <==> forall i :: 0 <= i < |needs| ==> CheckNeed(index, needs[i]).None?
  {
    if needs != [] {
      CheckedNeeds(index, needs[1..]);
      forall i | 0 <= i < |needs| ensures needs[i] == if i == 0 then needs[0] else needs[1..][i - 1] {}
    }
  }

  /** Every need names a contribution that is there and whose hook accepts its configuration. */
  ghost predicate NeedsMet(index: ContributionIndex, needs: seq<Need>) {
    forall i :: 0 <= i < |needs| ==>
      needs[i].key in index && needs[i].config != OtherConfig && index[needs[i].key].hookAccepts
  }

  lemma {:induction false} StraysNone(configs: seq<(string, ToolConfig)>, allowlist: seq<string>)
    ensures StrayConfig(configs, allowlist).None? <==> forall i :: 0 <= i < |configs| ==> configs[i].0 in allowlist
  {
    if configs != [] {
      StraysNone(configs[1..], allowlist);
      forall i | 0 <= i < |configs| ensures configs[i] == if i == 0 then configs[0] else configs[1..][i - 1] {}
    }
  }

  lemma {:induction false} NeedsChecked(index: ContributionIndex, needs: seq<Need>)
    ensures CheckNeeds(index, needs).None? <==> NeedsMet(index, needs)
  {
    CheckedNeeds(index, needs);
  }

  /** A configuration checks exactly when every configured tool is allowed and all that it needs of tools,
      providers, stores and event sinks is met. */
  lemma {:induction false} ChecksIff(effective: Effective, config: Config)
    ensures Check(effective, config).None? <==>
              && (forall i :: 0 <= i < |config.toolConfigs| ==> config.toolConfigs[i].0 in config.allowlist)
              && NeedsMet(effective.tools, ToolNeeds(config))
              && NeedsMet(effective.providers, NamedNeeds(config.providers))
              && NeedsMet(effective.stores, StoreNeeds(config.stores))
              && NeedsMet(effective.eventSinks, NamedNeeds(config.eventSinks))
  {
    hide NeedsMet, CheckNeeds, StrayConfig, ToolNeeds, NamedNeeds, StoreNeeds;
    StraysNone(config.toolConfigs, config.allowlist);
    NeedsChecked(effective.tools, ToolNeeds(config));
    NeedsChecked(effective.providers, NamedNeeds(config.providers));
    NeedsChecked(effective.stores, StoreNeeds(config.stores));
    NeedsChecked(effective.eventSinks, NamedNeeds(config.eventSinks));
  }

  ghost predicate Buildable(index: ContributionIndex, needs: seq<Need>) {
    forall i :: 0 <= i < |needs| ==> needs[i].key in index && index[needs[i].key].factory.Creates?
  }

  /** Over checked needs, assembly fails only for what a factory does. */
  lemma {:induction false} CheckedNeedsAssemble(index: ContributionIndex, needs: seq<Need>)
    requires forall i :: 0 <= i < |needs| ==> CheckNeed(index, needs[i]).None?
    ensures var r := AssembleNeeds(index, needs);
            && (r.Ok? <==> Buildable(index, needs))
            && (r.Err? ==> !r.error.MissingContribution? && !r.error.InvalidConfig?)
  {
    if needs != [] {
      var front := Front(needs);
      assert forall i :: 0 <= i < |front| ==> front[i] == needs[i];
      CheckedNeedsAssemble(index, front);
      assert CheckNeed(index, needs[|needs| - 1]).None?;
      assert Buildable(index, needs) <==> Buildable(index, front) && index[Last(needs).key].factory.Creates?;
    }
  }

  /** No later entry has the same name. */
  ghost predicate LastOfName(needs: seq<Need>, i: nat)
    requires i < |needs|
  {
    forall j :: i < j < |needs| ==> needs[j].entry != needs[i].entry
  }

  lemma {:induction false} BuiltFrom(index: ContributionIndex, needs: seq<Need>, i: nat)
    requires AssembleNeeds(index, needs).Ok? && i < |needs| && LastOfName(needs, i)
    ensures needs[i].entry in AssembleNeeds(index, needs).value && needs[i].key in index
    ensures Creates(AssembleNeeds(index, needs).value[needs[i].entry]) == index[needs[i].key].factory
  {
    if i < |needs| - 1 {
      assert needs[|needs| - 1].entry != needs[i].entry;
      forall j | i < j < |Front(needs)| ensures Front(needs)[j].entry != Front(needs)[i].entry {
        assert needs[j].entry != needs[i].entry;
      }
      BuiltFrom(index, Front(needs), i);
    }
  }

  /** A validated configuration never meets a missing contribution or a malformed tool configuration
      in assembly, and assembles exactly when every factory it needs creates an object. */
  lemma {:induction false} ValidatedConfigsAssemble(effective: Effective, config: Config)
    requires Check(effective, config).None?
    ensures var r := AssembleRuntime(effective, config);
            && (r.Err? ==> !r.error.MissingContribution? && !r.error.InvalidConfig?)
            && (r.Ok? <==>
                  && Buildable(effective.providers, NamedNeeds(config.providers))
                  && Buildable(effective.tools, ToolNeeds(config))
                  && Buildable(effective.stores, StoreNeeds(config.stores))
                  && Buildable(effective.eventSinks, NamedNeeds(config.eventSinks)))
  {
    hide CheckNeeds, CheckNeed, AssembleNeeds, StoreNeeds, ToolNeeds, NamedNeeds, StrayConfig, Buildable;
    CheckedNeeds(effective.providers, NamedNeeds(config.providers));
    CheckedNeeds(effective.tools, ToolNeeds(config));
    CheckedNeeds(effective.stores, StoreNeeds(config.stores));
    CheckedNeeds(effective.eventSinks, NamedNeeds(config.eventSinks));
    CheckedNeedsAssemble(effective.providers, NamedNeeds(config.providers));
    CheckedNeedsAssemble(effective.tools, ToolNeeds(config));
    CheckedNeedsAssemble(effective.stores, StoreNeeds(config.stores));
    CheckedNeedsAssemble(effective.eventSinks, NamedNeeds(config.eventSinks));
  }

  /** And each entry of the runtime was made by the contribution its configuration names. */
  lemma {:induction false} RuntimeIsAsConfigured(effective: Effective, config: Config, i: nat)
    requires AssembleRuntime(effective, config).Ok?
    ensures var runtime, needs := AssembleRuntime(effective, config).value, NamedNeeds(config.providers);
            i < |needs| && LastOfName(needs, i) ==>
              && needs[i].entry in runtime.providers && needs[i].key in effective.providers
              && Creates(runtime.providers[needs[i].entry]) == effective.providers[needs[i].key].factory
    ensures var runtime, needs := AssembleRuntime(effective, config).value, ToolNeeds(config);
            i < |needs| && LastOfName(needs, i) ==>
              && needs[i].entry in runtime.tools && needs[i].key in effective.tools
              && Creates(runtime.tools[needs[i].entry]) == effective.tools[needs[i].key].factory
    ensures var runtime, needs := AssembleRuntime(effective, config).value, NamedNeeds(config.eventSinks);
            i < |needs| && LastOfName(needs, i) ==>
              && needs[i].entry in runtime.eventSinks && needs[i].key in effective.eventSinks
              && Creates(runtime.eventSinks[needs[i].entry]) == effective.eventSinks[needs[i].key].factory
  {
    hide AssembleNeeds, NamedNeeds, ToolNeeds, StoreNeeds, LastOfName;
    var providers, tools, eventSinks := NamedNeeds(config.providers), ToolNeeds(config), NamedNeeds(config.eventSinks);
    if i < |providers| && LastOfName(providers, i) { BuiltFrom(effective.providers, providers, i); }
    if i < |tools| && LastOfName(tools, i) { BuiltFrom(effective.tools, tools, i); }
    if i < |eventSinks| && LastOfName(eventSinks, i) { BuiltFrom(effective.eventSinks, eventSinks, i); }
  }
}
