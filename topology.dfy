/** Cluster topology (`pike::cluster::Topology`) and the transformer of
    `picotest_helpers/src/topology.rs` that collapses it onto one single-node
    tier named `default`. */
module Topology {
  import opened Wrappers
  import opened Migration

  const DefaultTier := "default"

  datatype Tier = Tier(replicasets: nat, replicationFactor: nat)

  datatype Service = Service(tiers: seq<string>)

  datatype Plugin = Plugin(
    services: map<string, Service>,
    migrationContext: seq<ContextVar>,
    version: Option<string>)

  /** The topology fields the core reads or rewrites; `enviroment` keeps the
      source's spelling. */
  datatype Topology = Topology(
    tiers: map<string, Tier>,
    plugins: map<string, Plugin>,
    enviroment: map<string, string>)

  /** The plugin as `transform` leaves it. */
  function SingleNodePlugin(name: string, plugin: Plugin, provider: ContextProvider): Plugin {
    plugin.(
      migrationContext := GetMigrationContext(provider, name),
      services := map s | s in plugin.services :: plugin.services[s].(tiers := [DefaultTier]))
  }

  /** The topology `transform` returns. */
  function SingleNode(source: Topology, provider: ContextProvider): Topology {
    source.(
      tiers := map[DefaultTier := Tier(1, 1)],
      plugins := map name | name in source.plugins :: SingleNodePlugin(name, source.plugins[name], provider))
  }

  /** What the transform promises: a single `default` tier of one replica set
      with one replica; every plugin and service kept under its key; every
      service on `default` only; each plugin's context taken from the provider;
      the version and the environment untouched. */
  lemma SingleNodeShape(source: Topology, provider: ContextProvider)
    ensures var t := SingleNode(source, provider);
      t.tiers.Keys == {DefaultTier} && t.tiers[DefaultTier] == Tier(1, 1)
      && t.plugins.Keys == source.plugins.Keys
      && t.enviroment == source.enviroment
      && (forall name :: name in t.plugins ==>
            t.plugins[name].services.Keys == source.plugins[name].services.Keys
            && t.plugins[name].migrationContext == GetMigrationContext(provider, name)
            && t.plugins[name].version == source.plugins[name].version
            && (forall s :: s in t.plugins[name].services ==> t.plugins[name].services[s].tiers == [DefaultTier]))
  {
  }

  /** Collapsing an already collapsed topology changes nothing. */
  lemma SingleNodeIdempotent(source: Topology, provider: ContextProvider)
    ensures SingleNode(SingleNode(source, provider), provider) == SingleNode(source, provider)
  {
    var once := SingleNode(source, provider);
    var twice := SingleNode(once, provider);
    forall name | name in once.plugins
      ensures twice.plugins[name] == once.plugins[name]
    {
      assert twice.plugins[name].services == once.plugins[name].services;
    }
    assert twice.plugins == once.plugins;
  }

  /** With the default provider every plugin gets an empty context. */
  lemma DefaultProviderEmptyContext(source: Topology)
    ensures forall name :: name in SingleNode(source, VecProvider([])).plugins ==>
      SingleNode(source, VecProvider([])).plugins[name].migrationContext == []
  {
  }

  /** `SingleNodeTopologyTransformer`: the migration-context provider it hands
      each plugin's name to. */
  class SingleNodeTopologyTransformer {
    var provider: ContextProvider

    /** `Default`: a provider that gives every plugin an empty list. */
    constructor ()
      ensures provider == VecProvider([])
    {
      provider := VecProvider([]);
    }

    method SetMigrationContextProvider(p: ContextProvider)
      modifies this
      ensures provider == p
    {
      provider := p;
    }

    /** `transform`: clear the tiers and insert `default`, then for every plugin
        set its context and put each of its services on `default`. */
    method Transform(source: Topology) returns (topology: Topology)
      ensures topology == SingleNode(source, provider)
    {
      topology := source;
      topology := topology.(tiers := map[DefaultTier := Tier(1, 1)]);
      var plugins := topology.plugins;
      var pending := plugins.Keys;
      while pending != {}
        invariant pending <= source.plugins.Keys && plugins.Keys == source.plugins.Keys
        invariant forall name :: name in plugins && name !in pending ==>
          plugins[name] == SingleNodePlugin(name, source.plugins[name], provider)
        invariant forall name :: name in pending ==> plugins[name] == source.plugins[name]
        decreases pending
      {
        var name :| name in pending;
        var plugin := plugins[name];
        plugin := plugin.(migrationContext := GetMigrationContext(provider, name));
        var services := plugin.services;
        var todo := services.Keys;
        while todo != {}
          invariant todo <= services.Keys && services.Keys == plugin.services.Keys
          invariant forall s :: s in services && s !in todo ==> services[s] == Service([DefaultTier])
          decreases todo
        {
          var s :| s in todo;
          services := services[s := services[s].(tiers := [DefaultTier])];
          todo := todo - {s};
        }
        plugin := plugin.(services := services);
        assert plugin == SingleNodePlugin(name, source.plugins[name], provider);
        plugins := plugins[name := plugin];
        pending := pending - {name};
      }
      topology := topology.(plugins := plugins);
    }
  }
}
