/** The plugin-manifest helpers of `picotest_helpers/src/lib.rs`: where the
    manifest of the plugin under test lives, and the in-place replacement of
    its services' default configurations by the values of a plugin
    configuration.

    A YAML document is the small value type `Yaml`; a mapping keeps its
    entries in order and is looked up by the first entry with an equal key. */
module Manifest {
  import opened Wrappers
  import Topology

  type Path = seq<string>

  // ---------------------------------------------------------------------------
  // Manifest location.

  /** The order of `String` keys in a `BTreeMap`: lexicographic by character. */
  predicate LexLeq(a: string, b: string) {
    a == [] || (b != [] && (a[0] < b[0] || (a[0] == b[0] && LexLeq(a[1..], b[1..]))))
  }

  lemma LexLeqTotal(a: string, b: string)
    ensures LexLeq(a, b) || LexLeq(b, a)
  {
  }

  lemma LexLeqAntisymmetric(a: string, b: string)
    requires LexLeq(a, b) && LexLeq(b, a)
    ensures a == b
  {
    if a != [] && b != [] {
      LexLeqAntisymmetric(a[1..], b[1..]);
      assert a == [a[0]] + a[1..] && b == [b[0]] + b[1..];
    }
  }

  lemma LexLeqTransitive(a: string, b: string, c: string)
    requires LexLeq(a, b) && LexLeq(b, c)
    ensures LexLeq(a, c)
  {
  }

  /** The lesser of `x` and the least of `rest` is the least of both. */
  lemma LeastOfInsert(x: string, rest: set<string>, m: string)
    requires m in rest && forall k :: k in rest ==> LexLeq(m, k)
    ensures var least := if LexLeq(x, m) then x else m;
      forall k :: k in rest + {x} ==> LexLeq(least, k)
  {
    LexLeqReflexive(x);
    LexLeqTotal(x, m);
    forall k | k in rest + {x}
      ensures LexLeq(if LexLeq(x, m) then x else m, k)
    {
      if LexLeq(x, m) && k != x {
        LexLeqTransitive(x, m, k);
      }
    }
  }

  /** Every non-empty set of keys has a least one. */
  lemma {:induction false} LeastKeyExists(keys: set<string>)
    requires keys != {}
    ensures exists m :: m in keys && forall k :: k in keys ==> LexLeq(m, k)
    decreases keys
  {
    var x :| x in keys;
    var rest := keys - {x};
    assert keys == rest + {x};
    if rest != {} {
      LeastKeyExists(rest);
      var m :| m in rest && forall k :: k in rest ==> LexLeq(m, k);
      LeastOfInsert(x, rest, m);
      var least := if LexLeq(x, m) then x else m;
      assert least in keys;
    } else {
      LexLeqReflexive(x);
      assert forall k :: k in keys ==> LexLeq(x, k);
    }
  }

  lemma LexLeqReflexive(a: string)
    ensures LexLeq(a, a)
  {
  }

  /** `first_key_value` of a non-empty `BTreeMap`: its least key. */
  function FirstKey(keys: set<string>): (r: string)
    requires keys != {}
    ensures r in keys && forall k :: k in keys ==> LexLeq(r, k)
  {
    LeastKeyExists(keys);
    assert forall m, m' :: m in keys && m' in keys && LexLeq(m, m') && LexLeq(m', m) ==> m == m' by {
      forall m, m' | m in keys && m' in keys && LexLeq(m, m') && LexLeq(m', m) ensures m == m' {
        LexLeqAntisymmetric(m, m');
      }
    }
    var m :| m in keys && forall k :: k in keys ==> LexLeq(m, k);
    m
  }

  const TargetDir: Path := ["target", "debug"]
  const DefaultPluginVersion := "0.1.0"
  const ManifestFileName := "manifest.yaml"
  const ManifestBackupFileName := "manifest.backup.yaml"
  const NoPlugins := "Topology should define at least 1 plugin"

  /** `plugin_manifest_dir`: the debug build directory, then the first plugin's
      name, then its version or `0.1.0`; a topology without plugins panics. */
  function PluginManifestDir(pluginPath: Path, plugins: map<string, Topology.Plugin>): (r: Result<Path>)
    ensures r.Err? ==> false
    ensures r.Panic? <==> plugins == map[]
    ensures r.Panic? ==> r.reason == NoPlugins
    ensures r.Ok? ==>
      exists name :: (name in plugins
        && (forall k :: k in plugins ==> LexLeq(name, k))
        && r.value == pluginPath + TargetDir + [name, plugins[name].version.GetOr(DefaultPluginVersion)])
  {
    if plugins == map[] then Panic(NoPlugins)
    else
      assert plugins.Keys != {} by {
        var k :| k in plugins;
      }
      var name := FirstKey(plugins.Keys);
      Ok(pluginPath + TargetDir + [name, plugins[name].version.GetOr(DefaultPluginVersion)])
  }

  function PluginManifestPath(pluginPath: Path, plugins: map<string, Topology.Plugin>): (r: Result<Path>)
    ensures r.Ok? <==> PluginManifestDir(pluginPath, plugins).Ok?
    ensures r.Ok? ==> r.value == PluginManifestDir(pluginPath, plugins).value + [ManifestFileName]
  {
    match PluginManifestDir(pluginPath, plugins)
    case Ok(dir) => Ok(dir + [ManifestFileName])
    case Err(e) => Err(e)
    case Panic(p) => Panic(p)
  }

  function PluginManifestBackupPath(pluginPath: Path, plugins: map<string, Topology.Plugin>): (r: Result<Path>) {
    match PluginManifestDir(pluginPath, plugins)
    case Ok(dir) => Ok(dir + [ManifestBackupFileName])
    case Err(e) => Err(e)
    case Panic(p) => Panic(p)
  }

  /** The manifest and its backup sit side by side in the manifest directory,
      under different names, and both panic exactly when there is no plugin. */
  lemma ManifestAndBackupSideBySide(pluginPath: Path, plugins: map<string, Topology.Plugin>)
    ensures PluginManifestPath(pluginPath, plugins).Panic? <==> plugins == map[]
    ensures PluginManifestBackupPath(pluginPath, plugins).Panic? <==> plugins == map[]
    ensures plugins != map[] ==>
      var dir := PluginManifestDir(pluginPath, plugins).value;
      var m, b := PluginManifestPath(pluginPath, plugins).value, PluginManifestBackupPath(pluginPath, plugins).value;
      m[..|dir|] == dir && b[..|dir|] == dir && |m| == |b| == |dir| + 1 && m != b
  {
    if plugins != map[] {
      var dir := PluginManifestDir(pluginPath, plugins).value;
      var m, b := PluginManifestPath(pluginPath, plugins).value, PluginManifestBackupPath(pluginPath, plugins).value;
      assert m[|dir|] == ManifestFileName && b[|dir|] == ManifestBackupFileName;
      assert |ManifestFileName| != |ManifestBackupFileName|;
    }
  }

  // ---------------------------------------------------------------------------
  // YAML documents.

  /** The `serde_yaml::Value`s the replacement looks at (numbers are integers). */
  datatype Yaml =
    | Null
    | Bool(b: bool)
    | Number(n: int)
    | Str(s: string)
    | Sequence(items: seq<Yaml>)
    | Mapping(entries: seq<(Yaml, Yaml)>)

  /** The position of the first entry whose key is `key`. */
  function Lookup(entries: seq<(Yaml, Yaml)>, key: Yaml): (r: Option<nat>)
    ensures r.Some? ==>
      (r.value < |entries| && entries[r.value].0 == key
       && forall j :: 0 <= j < r.value ==> entries[j].0 != key)
    ensures r.None? ==> forall j :: 0 <= j < |entries| ==> entries[j].0 != key
  {
    if entries == [] then None
    else if entries[0].0 == key then Some(0)
    else match Lookup(entries[1..], key)
      case None => None
      case Some(i) => Some(i + 1)
  }

  /** `Value::get` with a key: the value under `key` in a mapping, `None` for
      anything else. */
  function Get(v: Yaml, key: Yaml): Option<Yaml> {
    if v.Mapping? then
      match Lookup(v.entries, key)
      case Some(i) => Some(v.entries[i].1)
      case None => None
    else None
  }

  /** Writing through `get_mut(key)`: the value under `key` becomes `x`; nothing
      else changes. */
  function Put(v: Yaml, key: Yaml, x: Yaml): Yaml {
    if v.Mapping? then
      match Lookup(v.entries, key)
      case Some(i) => Mapping(v.entries[i := (key, x)])
      case None => v
    else v
  }

  /** A lookup depends only on the keys. */
  lemma {:induction false} LookupKeysOnly(a: seq<(Yaml, Yaml)>, b: seq<(Yaml, Yaml)>, key: Yaml)
    requires |a| == |b| && forall j :: 0 <= j < |a| ==> a[j].0 == b[j].0
    ensures Lookup(a, key) == Lookup(b, key)
    decreases |a|
  {
    if a != [] {
      LookupKeysOnly(a[1..], b[1..], key);
    }
  }

  /** `Put` is read back by `Get` under its key, and leaves every other key alone. */
  lemma PutGet(v: Yaml, key: Yaml, x: Yaml, other: Yaml)
    requires Get(v, key).Some?
    ensures Get(Put(v, key, x), key) == Some(x)
    ensures other != key ==> Get(Put(v, key, x), other) == Get(v, other)
    ensures Put(v, key, x).Mapping? && |Put(v, key, x).entries| == |v.entries|
  {
    var i := Lookup(v.entries, key).value;
    var e := v.entries[i := (key, x)];
    LookupKeysOnly(v.entries, e, key);
    LookupKeysOnly(v.entries, e, other);
  }

  /** Writing back the value already there changes nothing. */
  lemma PutSame(v: Yaml, key: Yaml)
    requires Get(v, key).Some?
    ensures Put(v, key, Get(v, key).value) == v
  {
    var i := Lookup(v.entries, key).value;
    assert v.entries[i := (key, v.entries[i].1)] == v.entries;
  }

  // ---------------------------------------------------------------------------
  // Replacing the services' configuration.

  const ServicesKey := Str("services")
  const NameKey := Str("name")
  const DefaultConfigurationKey := Str("default_configuration")

  const NoServices := "Failed to get services mapping from plugin manifest"
  const NotASequence := "Should be a sequence of services"
  const NoServiceName := "Failed to get name of the service from plugin manifest"
  const NoDefaultConfiguration := "Failed to get service default configuration from plugin manifest"

  /** One pass of the loop: a service without a name is an error; a service
      the configuration does not name is kept; otherwise its
      `default_configuration`, which must exist, gets the configured value. */
  function ReplaceService(config: Yaml, service: Yaml): Result<Yaml> {
    match Get(service, NameKey)
    case None => Err(NoServiceName)
    case Some(name) =>
      match Get(config, name)
      case None => Ok(service)
      case Some(value) =>
        if Get(service, DefaultConfigurationKey).None? then Err(NoDefaultConfiguration)
        else Ok(Put(service, DefaultConfigurationKey, value))
  }

  /** What one service becomes, stated by `Get`: the configured value under
      `default_configuration` and every other key as it was. */
  lemma ReplaceServiceEffect(config: Yaml, service: Yaml, key: Yaml)
    ensures Get(service, NameKey).None? ==> ReplaceService(config, service) == Err(NoServiceName)
    ensures Get(service, NameKey).Some? && Get(config, Get(service, NameKey).value).None? ==>
      ReplaceService(config, service) == Ok(service)
    ensures (Get(service, NameKey).Some? && Get(config, Get(service, NameKey).value).Some?
             && Get(service, DefaultConfigurationKey).None?) ==>
      ReplaceService(config, service) == Err(NoDefaultConfiguration)
    ensures (Get(service, NameKey).Some? && Get(config, Get(service, NameKey).value).Some?
             && Get(service, DefaultConfigurationKey).Some?) ==>
      ReplaceService(config, service).Ok?
      && Get(ReplaceService(config, service).value, DefaultConfigurationKey) == Get(config, Get(service, NameKey).value)
      && (key != DefaultConfigurationKey ==> Get(ReplaceService(config, service).value, key) == Get(service, key))
  {
    if Get(service, NameKey).Some? && Get(config, Get(service, NameKey).value).Some?
      && Get(service, DefaultConfigurationKey).Some? {
      PutGet(service, DefaultConfigurationKey, Get(config, Get(service, NameKey).value).value, key);
    }
  }

  /** A service's outcome without its value. */
  function Unit(r: Result<Yaml>): Result<()> {
    match r
    case Ok(_) => Ok(())
    case Err(m) => Err(m)
    case Panic(m) => Panic(m)
  }

  /** The loop over the services with `step` as its body: the outcome and the
      services as they stand when it ends; the first error stops it, and the
      services before that one stay rewritten. */
  function RewriteAll(step: Yaml -> Result<Yaml>, services: seq<Yaml>): (Result<()>, seq<Yaml>)
    decreases |services|
  {
    if services == [] then (Ok(()), [])
    else
      var (r, done) := RewriteAll(step, services[..|services| - 1]);
      var last := services[|services| - 1];
      if !r.Ok? then (r, done + [last])
      else (Unit(step(last)), done + [if step(last).Ok? then step(last).value else last])
  }

  /** The loop of `replace_services_configuration`. */
  function ReplaceAll(config: Yaml, services: seq<Yaml>): (Result<()>, seq<Yaml>) {
    RewriteAll(Replacer(config), services)
  }

  /** The loop's body as a function of one service. */
  function Replacer(config: Yaml): Yaml -> Result<Yaml> {
    s => ReplaceService(config, s)
  }

  /** The loop's step: one more service after `s`. */
  lemma RewriteAllSnoc(step: Yaml -> Result<Yaml>, s: seq<Yaml>, x: Yaml)
    ensures RewriteAll(step, s + [x]) ==
      if !RewriteAll(step, s).0.Ok? then (RewriteAll(step, s).0, RewriteAll(step, s).1 + [x])
      else (Unit(step(x)), RewriteAll(step, s).1 + [if step(x).Ok? then step(x).value else x])
  {
    assert (s + [x])[..|s|] == s;
  }

  /** The number and order of the services never change. */
  lemma {:induction false} RewriteAllLength(step: Yaml -> Result<Yaml>, services: seq<Yaml>)
    ensures |RewriteAll(step, services).1| == |services|
    decreases |services|
  {
    if services != [] {
      RewriteAllLength(step, services[..|services| - 1]);
    }
  }

  /** The first `f` services are each rewritten on their own. */
  predicate RewrittenUpTo(step: Yaml -> Result<Yaml>, services: seq<Yaml>, after: seq<Yaml>, f: nat)
    requires f <= |services| && f <= |after|
  {
    forall j :: 0 <= j < f ==> step(services[j]).Ok? && after[j] == step(services[j]).value
  }

  /** The loop succeeds exactly when every service can be rewritten, and then
      every service is rewritten on its own. */
  lemma {:induction false} RewriteAllSucceeds(step: Yaml -> Result<Yaml>, services: seq<Yaml>)
    ensures RewriteAll(step, services).0.Ok? <==> forall j :: 0 <= j < |services| ==> step(services[j]).Ok?
    ensures RewriteAll(step, services).0.Ok? ==>
      |RewriteAll(step, services).1| == |services|
      && RewrittenUpTo(step, services, RewriteAll(step, services).1, |services|)
    decreases |services|
  {
    if services != [] {
      var n := |services| - 1;
      var init, x := services[..n], services[n];
      assert services == init + [x];
      RewriteAllSucceeds(step, init);
      RewriteAllSnoc(step, init, x);
      assert forall j :: 0 <= j < n ==> init[j] == services[j];
    }
  }

  /** Appending a service keeps the services already rewritten. */
  lemma RewrittenUpToSnoc(step: Yaml -> Result<Yaml>, init: seq<Yaml>, done: seq<Yaml>, x: Yaml, y: Yaml, f: nat)
    requires f <= |init| == |done| && RewrittenUpTo(step, init, done, f)
    ensures RewrittenUpTo(step, init + [x], done + [y], f)
  {
    forall j | 0 <= j < f
      ensures step((init + [x])[j]).Ok? && (done + [y])[j] == step((init + [x])[j]).value
    {
      assert (init + [x])[j] == init[j] && (done + [y])[j] == done[j];
    }
  }

  lemma SuffixSnoc(done: seq<Yaml>, init: seq<Yaml>, x: Yaml, f: nat)
    requires f <= |init| == |done| && done[f..] == init[f..]
    ensures (done + [x])[f..] == (init + [x])[f..]
  {
    assert (done + [x])[f..] == done[f..] + [x];
    assert (init + [x])[f..] == init[f..] + [x];
  }

  /** On an error there is a first failing service, whose error is the
      result; the services before it are rewritten and it and the rest are
      left as they were. */
  lemma {:induction false} RewriteAllFails(step: Yaml -> Result<Yaml>, services: seq<Yaml>)
    requires !RewriteAll(step, services).0.Ok?
    ensures |RewriteAll(step, services).1| == |services|
    ensures exists f :: (0 <= f < |services|
      && RewriteAll(step, services).0 == Unit(step(services[f]))
      && RewrittenUpTo(step, services, RewriteAll(step, services).1, f)
      && RewriteAll(step, services).1[f..] == services[f..])
    decreases |services|
  {
    RewriteAllLength(step, services);
    var n := |services| - 1;
    var init, x := services[..n], services[n];
    assert services == init + [x];
    RewriteAllSnoc(step, init, x);
    var (r0, done) := RewriteAll(step, init);
    RewriteAllLength(step, init);
    var after := RewriteAll(step, services).1;
    assert after == done + [x];
    if !r0.Ok? {
      RewriteAllFails(step, init);
      var f :| 0 <= f < n && r0 == Unit(step(init[f]))
        && RewrittenUpTo(step, init, done, f) && done[f..] == init[f..];
      assert init[f] == services[f];
      SuffixSnoc(done, init, x, f);
      RewrittenUpToSnoc(step, init, done, x, x, f);
    } else {
      RewriteAllSucceeds(step, init);
      RewrittenUpToSnoc(step, init, done, x, x, n);
      assert after[n..] == [x] == services[n..];
    }
  }

  /** Once the loop has stopped on an error, the services after the failing
      one are left as they are. */
  lemma {:induction false} RewriteAllStops(step: Yaml -> Result<Yaml>, services: seq<Yaml>, k: nat)
    requires k <= |services| && !RewriteAll(step, services[..k]).0.Ok?
    ensures RewriteAll(step, services) ==
      (RewriteAll(step, services[..k]).0, RewriteAll(step, services[..k]).1 + services[k..])
    decreases |services| - k
  {
    if k == |services| {
      assert services[..k] == services && services[k..] == [];
      assert RewriteAll(step, services[..k]).1 + services[k..] == RewriteAll(step, services[..k]).1;
    } else {
      var n := |services| - 1;
      var init, x := services[..n], services[n];
      assert init[..k] == services[..k];
      RewriteAllStops(step, init, k);
      assert services == init + [x];
      RewriteAllSnoc(step, init, x);
      var done := RewriteAll(step, services[..k]).1;
      assert done + init[k..] + [x] == done + services[k..];
    }
  }

  /** The loop only looks at what `step` does to the services it is given. */
  lemma {:induction false} RewriteAllCongruent(step1: Yaml -> Result<Yaml>, step2: Yaml -> Result<Yaml>, services: seq<Yaml>)
    requires forall j :: 0 <= j < |services| ==> step1(services[j]) == step2(services[j])
    ensures RewriteAll(step1, services) == RewriteAll(step2, services)
    decreases |services|
  {
    if services != [] {
      var n := |services| - 1;
      assert forall j :: 0 <= j < n ==> services[..n][j] == services[j];
      RewriteAllCongruent(step1, step2, services[..n]);
    }
  }

  /** On success every service is replaced on its own; on an error there is a
      first failing service, whose error is the result, with the services
      before it replaced and it and the rest untouched. */
  lemma ReplaceAllOutcome(config: Yaml, services: seq<Yaml>)
    ensures |ReplaceAll(config, services).1| == |services|
    ensures ReplaceAll(config, services).0.Ok? <==>
      forall j :: 0 <= j < |services| ==> ReplaceService(config, services[j]).Ok?
    ensures ReplaceAll(config, services).0.Ok? ==>
      forall j :: 0 <= j < |services| ==>
        ReplaceAll(config, services).1[j] == ReplaceService(config, services[j]).value
    ensures !ReplaceAll(config, services).0.Ok? ==>
      exists f :: (0 <= f < |services|
        && ReplaceAll(config, services).0 == Unit(ReplaceService(config, services[f]))
        && (forall j :: 0 <= j < f ==>
              ReplaceService(config, services[j]).Ok?
              && ReplaceAll(config, services).1[j] == ReplaceService(config, services[j]).value)
        && ReplaceAll(config, services).1[f..] == services[f..])
  {
    var step := Replacer(config);
    RewriteAllLength(step, services);
    RewriteAllSucceeds(step, services);
    if !ReplaceAll(config, services).0.Ok? {
      RewriteAllFails(step, services);
    }
  }

  /** Entries of the configuration that name no service are ignored: two
      configurations that agree on every service's name give the same result. */
  lemma ReplaceAllIgnoresOtherEntries(c1: Yaml, c2: Yaml, services: seq<Yaml>)
    requires forall j :: 0 <= j < |services| && Get(services[j], NameKey).Some? ==>
      Get(c1, Get(services[j], NameKey).value) == Get(c2, Get(services[j], NameKey).value)
    ensures ReplaceAll(c1, services) == ReplaceAll(c2, services)
  {
    RewriteAllCongruent(Replacer(c1), Replacer(c2), services);
  }

  /** `replace_services_configuration` on a whole manifest: the outcome and the
      manifest as it is left. */
  function ReplaceServicesConfiguration(config: Yaml, manifest: Yaml): (Result<()>, Yaml) {
    match Get(manifest, ServicesKey)
    case None => (Err(NoServices), manifest)
    case Some(services) =>
      if !services.Sequence? then (Panic(NotASequence), manifest)
      else
        var (r, after) := ReplaceAll(config, services.items);
        (r, Put(manifest, ServicesKey, Sequence(after)))
  }

  /** The manifest's other keys are never touched, and its `services` stay a
      sequence of the same length. */
  lemma ReplaceKeepsOtherKeys(config: Yaml, manifest: Yaml, key: Yaml)
    requires key != ServicesKey
    ensures Get(ReplaceServicesConfiguration(config, manifest).1, key) == Get(manifest, key)
    ensures Get(manifest, ServicesKey).Some? && Get(manifest, ServicesKey).value.Sequence? ==>
      var s := Get(ReplaceServicesConfiguration(config, manifest).1, ServicesKey);
      s.Some? && s.value.Sequence? && |s.value.items| == |Get(manifest, ServicesKey).value.items|
  {
    match Get(manifest, ServicesKey)
    case None =>
    case Some(services) =>
      if services.Sequence? {
        var after := ReplaceAll(config, services.items).1;
        RewriteAllLength(Replacer(config), services.items);
        PutGet(manifest, ServicesKey, Sequence(after), key);
      }
  }

  /** The manifest the function rewrites in place. */
  class ManifestDocument {
    var root: Yaml

    constructor(doc: Yaml)
      ensures root == doc
    {
      root := doc;
    }

    /** `replace_services_configuration`: each service is rewritten in the
        document as the loop reaches it, so an error leaves the earlier ones
        rewritten. */
    method ReplaceServicesConfigurationInPlace(config: Yaml) returns (r: Result<()>)
      modifies this
      ensures (r, root) == ReplaceServicesConfiguration(config, old(root))
    {
      var found := Get(root, ServicesKey);
      if found.None? {
        return Err(NoServices);
      }
      if !found.value.Sequence? {
        return Panic(NotASequence);
      }
      r := RewriteServices(Replacer(config), found.value.items);
    }

    /** The loop of `replace_services_configuration`, writing each rewritten
        service back into the document's `services`. */
    method RewriteServices(step: Yaml -> Result<Yaml>, services: seq<Yaml>) returns (r: Result<()>)
      requires Get(root, ServicesKey) == Some(Sequence(services))
      modifies this
      ensures r == RewriteAll(step, services).0
      ensures root == Put(old(root), ServicesKey, Sequence(RewriteAll(step, services).1))
    {
      var items := services;
      var start := root;
      PutSame(start, ServicesKey);
      var i := 0;
      while i < |services|
        invariant LoopState(step, services, items, i)
        invariant root == Put(start, ServicesKey, Sequence(items))
      {
        var service := step(services[i]);
        if !service.Ok? {
          LoopStops(step, services, items, i);
          return Unit(service);
        }
        LoopAdvances(step, services, items, i);
        items := items[i := service.value];
        root := Put(start, ServicesKey, Sequence(items));
        i := i + 1;
      }
      assert services[..i] == services && items[..i] == items;
      r := Ok(());
    }
  }

  /** The state of the loop of `replace_services_configuration` before the
      service at `i`: the first `i` are rewritten without error, the rest are as given. */
  predicate LoopState(step: Yaml -> Result<Yaml>, services: seq<Yaml>, items: seq<Yaml>, i: nat) {
    i <= |services| && |items| == |services|
    && RewriteAll(step, services[..i]) == (Ok(()), items[..i])
    && items[i..] == services[i..]
  }

  /** A failing service ends the loop with its error, the services as they stand. */
  lemma LoopStops(step: Yaml -> Result<Yaml>, services: seq<Yaml>, items: seq<Yaml>, i: nat)
    requires LoopState(step, services, items, i) && i < |services| && !step(services[i]).Ok?
    ensures RewriteAll(step, services) == (Unit(step(services[i])), items)
  {
    assert services[..i + 1] == services[..i] + [services[i]];
    RewriteAllSnoc(step, services[..i], services[i]);
    assert items[..i + 1] == items[..i] + [services[i]];
    RewriteAllStops(step, services, i + 1);
    assert items[..i + 1] + services[i + 1..] == items;
  }

  /** A service rewritten without error is stored and the loop moves on. */
  lemma LoopAdvances(step: Yaml -> Result<Yaml>, services: seq<Yaml>, items: seq<Yaml>, i: nat)
    requires LoopState(step, services, items, i) && i < |services| && step(services[i]).Ok?
    ensures LoopState(step, services, items[i := step(services[i]).value], i + 1)
  {
    var next := items[i := step(services[i]).value];
    assert services[..i + 1] == services[..i] + [services[i]];
    RewriteAllSnoc(step, services[..i], services[i]);
    assert next[..i + 1] == items[..i] + [step(services[i]).value];
    assert next[i + 1..] == items[i + 1..];
  }
}
