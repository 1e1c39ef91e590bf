/** The helpers of `picotest/src/internal.rs` that the generated tests call:
    where the plugin's files are, the Lua script that calls one unit test over
    FFI, how the console output of such a call is judged, and the single-node
    topology unit tests run on.

    A file-system path is the sequence of its components; `join` with a plain
    name appends one. The file system is the set of paths that exist. */
module Internal {
  import opened Wrappers
  import opened Strings
  import opened Migration
  import opened Topology

  type Path = seq<string>

  /** The two targets `LIB_EXT` is defined for. */
  datatype TargetOs = Linux | MacOs

  function LibExt(os: TargetOs): string {
    match os
    case Linux => "so"
    case MacOs => "dylib"
  }

  const TopologyFileName := "topology.toml"
  const PicodataFileName := "picodata.yaml"
  const CargoFileName := "Cargo.toml"

  /** `lib<cluster name with '-' replaced by '_'>.<LIB_EXT>`. */
  function DylibFileName(clusterName: string, os: TargetOs): (r: string)
    ensures |r| == |"lib"| + |clusterName| + 1 + |LibExt(os)|
    ensures StartsWith(r, "lib") && EndsWith(r, "." + LibExt(os))
    ensures '-' !in r
    ensures forall k :: 0 <= k < |clusterName| ==>
      r[3 + k] == (if clusterName[k] == '-' then '_' else clusterName[k])
  {
    var r := "lib" + ReplaceChar(clusterName, '-', '_') + "." + LibExt(os);
    assert r[|r| - |"." + LibExt(os)|..] == "." + LibExt(os);
    r
  }

  /** What reading `picodata.yaml` gave: no file, text that is not a valid
      configuration, or the cluster name it declares. */
  datatype PicodataConf = ConfMissing | ConfInvalid | ClusterName(name: string)

  /** `plugin_dylib_filename`, once `picodata.yaml` of the plugin root has been read. */
  function PluginDylibFileName(conf: PicodataConf, os: TargetOs): (r: Result<string>)
    ensures r.Err? ==> false
    ensures conf.ConfMissing? ==> r == Panic("Plugin picodata configuration is not found")
    ensures conf.ConfInvalid? ==> r == Panic("Plugin picodata configuration is not valid")
    ensures conf.ClusterName? ==> r == Ok(DylibFileName(conf.name, os))
  {
    match conf
    case ConfMissing => Panic("Plugin picodata configuration is not found")
    case ConfInvalid => Panic("Plugin picodata configuration is not valid")
    case ClusterName(name) => Ok(DylibFileName(name, os))
  }

  function PluginProfileBuildPath(pluginPath: Path): (r: Path)
    ensures r == pluginPath + ["target", "debug"]
  {
    pluginPath + ["target"] + ["debug"]
  }

  /** `plugin_dylib_path`: the library inside the debug build directory. */
  function PluginDylibPath(pluginPath: Path, conf: PicodataConf, os: TargetOs): (r: Result<Path>)
    ensures r.Ok? <==> conf.ClusterName?
    ensures r.Ok? ==> r.value == pluginPath + ["target", "debug", DylibFileName(conf.name, os)]
  {
    match PluginDylibFileName(conf, os)
    case Ok(name) => Ok(PluginProfileBuildPath(pluginPath) + [name])
    case Err(e) => Err(e)
    case Panic(p) => Panic(p)
  }

  function PluginTopologyPath(pluginPath: Path): Path {
    pluginPath + [TopologyFileName]
  }

  function PluginPicodataPath(pluginPath: Path): Path {
    pluginPath + [PicodataFileName]
  }

  /** `Path::ancestors` walked from the directory itself up to the root: the
      first one holding `topology.toml`. */
  function Nearest(dir: Path, existing: set<Path>): (r: Option<Path>)
    ensures r.Some? ==>
      exists k :: 0 <= k <= |dir| && r.value == dir[..k] + [TopologyFileName] && r.value in existing
        && forall k' :: k < k' <= |dir| ==> dir[..k'] + [TopologyFileName] !in existing
    ensures r.None? ==> forall k :: 0 <= k <= |dir| ==> dir[..k] + [TopologyFileName] !in existing
  {
    if PluginTopologyPath(dir) in existing then
      assert dir[..|dir|] == dir;
      Some(PluginTopologyPath(dir))
    else if dir == [] then None
    else
      var parent := dir[..|dir| - 1];
      assert forall k :: 0 <= k <= |parent| ==> parent[..k] == dir[..k];
      assert dir[..|dir|] == dir;
      Nearest(parent, existing)
  }

  const EnvVarNotFound := "environment variable not found"

  /** `find_plugin_topology_path`: an error when `CARGO_MANIFEST_DIR` is not
      set, else the nearest ancestor's `topology.toml`, if any. */
  method FindPluginTopologyPath(manifestDir: Option<Path>, existing: set<Path>) returns (r: Result<Option<Path>>)
    ensures manifestDir.None? ==> r == Err(EnvVarNotFound)
    ensures manifestDir.Some? ==> r == Ok(Nearest(manifestDir.value, existing))
  {
    if manifestDir.None? {
      return Err(EnvVarNotFound);
    }
    var dir := manifestDir.value;
    var k := |dir|;
    assert dir[..k] == dir;
    while k >= 0
      invariant -1 <= k <= |dir|
      invariant k >= 0 ==> Nearest(dir, existing) == Nearest(dir[..k], existing)
      invariant k < 0 ==> Nearest(dir, existing) == None
      decreases k
    {
      var topologyPath := PluginTopologyPath(dir[..k]);
      if topologyPath in existing {
        return Ok(Some(topologyPath));
      }
      if k > 0 {
        assert dir[..k][..k - 1] == dir[..k - 1];
      }
      k := k - 1;
    }
    return Ok(None);
  }

  /** `plugin_root_dir`: the directory of the topology file found, which must
      hold `Cargo.toml`; every other outcome panics. */
  function PluginRootDir(found: Result<Option<Path>>, existing: set<Path>): (r: Result<Path>)
    ensures r.Err? ==> false
    ensures r.Ok? ==>
      found.Ok? && found.value.Some? && |found.value.value| > 0
      && r.value == found.value.value[..|found.value.value| - 1]
      && r.value + [CargoFileName] in existing
  {
    match found
    case Err(_) => Panic("Error occurred while searching for plugin topology configuration")
    case Panic(p) => Panic(p)
    case Ok(None) => Panic("Plugin topology configuration is not found")
    case Ok(Some(topologyPath)) =>
      if topologyPath == [] then Panic("Failed to obtain parent directory of plugin topology file")
      else
        var root := topologyPath[..|topologyPath| - 1];
        if root + [CargoFileName] !in existing then Panic("broken plugin directory?")
        else Ok(root)
  }

  /** The root found from a manifest directory is the nearest ancestor holding
      `topology.toml`, and it holds `Cargo.toml` too. */
  lemma PluginRootDirIsNearest(dir: Path, existing: set<Path>)
    requires PluginRootDir(Ok(Nearest(dir, existing)), existing).Ok?
    ensures var root := PluginRootDir(Ok(Nearest(dir, existing)), existing).value;
      root + [TopologyFileName] in existing && root + [CargoFileName] in existing
      && |root| <= |dir| && root == dir[..|root|]
      && forall k' :: |root| < k' <= |dir| ==> dir[..k'] + [TopologyFileName] !in existing
  {
    var k :| 0 <= k <= |dir| && Nearest(dir, existing).value == dir[..k] + [TopologyFileName]
      && forall k' :: k < k' <= |dir| ==> dir[..k'] + [TopologyFileName] !in existing;
    assert (dir[..k] + [TopologyFileName])[..k] == dir[..k];
  }

  // ---------------------------------------------------------------------------
  // The FFI call script and the judgement of its output.

  /** `lua_ffi_call_unit_test`: announce, declare the symbol, load the library,
      call the symbol, announce the end, and end with the literal `true`. */
  function LuaFfiCallUnitTest(testFnName: string, pluginDylibPath: string): string {
    LuaAnnounce(testFnName) + LuaDeclare(testFnName) + LuaLoad(pluginDylibPath)
    + LuaCall(testFnName) + LuaFinish(testFnName)
  }

  function LuaAnnounce(testFnName: string): string {
    "\n\"[*] Running unit-test '" + testFnName + "'\"\n\nffi = require(\"ffi\")\n"
  }

  function LuaDeclare(testFnName: string): string {
    "ffi.cdef[[void " + testFnName + "();]]\n"
  }

  function LuaLoad(pluginDylibPath: string): string {
    "dylib = \"" + pluginDylibPath + "\"\n"
  }

  function LuaCall(testFnName: string): string {
    "ffi.load(dylib)." + testFnName + "()\n"
  }

  function LuaFinish(testFnName: string): (r: string)
    ensures EndsWith(r, "\ntrue")
  {
    var r := "\n\"[*] Test '" + testFnName + "' has been finished\"" + "\ntrue";
    assert r[|r| - 5..] == "\ntrue";
    r
  }

  /** The script declares the test function. */
  lemma LuaScriptDeclares(testFnName: string, pluginDylibPath: string)
    ensures Contains(LuaFfiCallUnitTest(testFnName, pluginDylibPath), LuaDeclare(testFnName))
  {
    var a, d, l, c, f := LuaAnnounce(testFnName), LuaDeclare(testFnName), LuaLoad(pluginDylibPath),
      LuaCall(testFnName), LuaFinish(testFnName);
    assert a + d + l + c + f == a + d + (l + c + f);
    ContainsMiddle(a, d, l + c + f);
  }

  /** The script loads the library from the given path. */
  lemma LuaScriptLoads(testFnName: string, pluginDylibPath: string)
    ensures Contains(LuaFfiCallUnitTest(testFnName, pluginDylibPath), LuaLoad(pluginDylibPath))
  {
    var a, d, l, c, f := LuaAnnounce(testFnName), LuaDeclare(testFnName), LuaLoad(pluginDylibPath),
      LuaCall(testFnName), LuaFinish(testFnName);
    assert a + d + l + c + f == (a + d) + l + (c + f);
    ContainsMiddle(a + d, l, c + f);
  }

  /** The script calls the test function from the loaded library. */
  lemma LuaScriptCalls(testFnName: string, pluginDylibPath: string)
    ensures Contains(LuaFfiCallUnitTest(testFnName, pluginDylibPath), LuaCall(testFnName))
  {
    var a, d, l, c, f := LuaAnnounce(testFnName), LuaDeclare(testFnName), LuaLoad(pluginDylibPath),
      LuaCall(testFnName), LuaFinish(testFnName);
    ContainsMiddle(a + d + l, c, f);
  }

  /** The script's last line is `true`. */
  lemma LuaScriptEndsWithTrue(testFnName: string, pluginDylibPath: string)
    ensures EndsWith(LuaFfiCallUnitTest(testFnName, pluginDylibPath), "\ntrue")
  {
    var s, f := LuaFfiCallUnitTest(testFnName, pluginDylibPath), LuaFinish(testFnName);
    assert s[|s| - 5..] == f[|f| - 5..];
  }

  const LibOpenMarker := "cannot open shared object file"
  const MissingDeclarationMarker := "missing declaration"
  const UndefinedSymbolMarker := "undefined symbol"
  const Sentinel := "true"

  const LibOpenError := "failed to open plugin shared library"
  const MissingSymbolError := "failed to call unit-test routine: missing symbol in plugin shared library"
  const UnexpectedEndError := "test has finished unexpectedly"

  /** `verify_unit_test_output`: the checks run in a fixed order and the first
      that fires decides the error. */
  function VerifyUnitTestOutput(output: string): (r: Result<()>)
    ensures r.Panic? ==> false
    ensures r == Err(LibOpenError) <==> Contains(output, LibOpenMarker)
    ensures r == Err(MissingSymbolError) <==>
      !Contains(output, LibOpenMarker)
      && (Contains(output, MissingDeclarationMarker) || Contains(output, UndefinedSymbolMarker))
    ensures r == Err(UnexpectedEndError) <==>
      !Contains(output, LibOpenMarker)
      && !Contains(output, MissingDeclarationMarker) && !Contains(output, UndefinedSymbolMarker)
      && !Contains(output, Sentinel)
    ensures r.Ok? <==>
      !Contains(output, LibOpenMarker)
      && !Contains(output, MissingDeclarationMarker) && !Contains(output, UndefinedSymbolMarker)
      && Contains(output, Sentinel)
  {
    if Contains(output, LibOpenMarker) then Err(LibOpenError)
    else if Contains(output, MissingDeclarationMarker) || Contains(output, UndefinedSymbolMarker) then Err(MissingSymbolError)
    else if !Contains(output, Sentinel) then Err(UnexpectedEndError)
    else Ok(())
  }

  /** Output that ends with the script's `true` and carries no error marker is
      accepted, whatever else it holds. */
  lemma OutputEndingInTrueAccepted(output: string)
    requires EndsWith(output, Sentinel)
    requires !Contains(output, LibOpenMarker)
    requires !Contains(output, MissingDeclarationMarker) && !Contains(output, UndefinedSymbolMarker)
    ensures VerifyUnitTestOutput(output) == Ok(())
  {
    assert OccursAt(output, Sentinel, |output| - |Sentinel|);
  }

  // ---------------------------------------------------------------------------
  // The unit-test topology.

  /** The map `get_or_create_unit_test_topology` builds: for each plugin, the
      overrides of its migrations on `default`; a later entry for the same
      plugin replaces an earlier one, as `HashMap::insert` does. */
  function ContextVarsMap(found: seq<(string, seq<Migration>)>): map<string, seq<ContextVar>> {
    if found == [] then map[]
    else
      var last := found[|found| - 1];
      ContextVarsMap(found[..|found| - 1])[last.0 := Overrides(MigrationsVars(last.1), DefaultTier)]
  }

  /** Every context variable the map holds targets the `default` tier. */
  lemma {:induction false} ContextVarsAllDefault(found: seq<(string, seq<Migration>)>)
    ensures forall name, k :: name in ContextVarsMap(found) && 0 <= k < |ContextVarsMap(found)[name]| ==>
      ContextVarsMap(found)[name][k].value == DefaultTier
  {
    if found != [] {
      ContextVarsAllDefault(found[..|found| - 1]);
      var last := found[|found| - 1];
      OverridesElements(MigrationsVars(last.1), DefaultTier);
    }
  }

  /** The body of the initialiser of `get_or_create_unit_test_topology`, given
      the parsed topology and, for each plugin with migrations, its migrations
      as `parse_migrations` returns them. */
  method UnitTestTopology(source: Topology, found: seq<(string, seq<Migration>)>) returns (t: Topology)
    ensures t == SingleNode(source, MapProvider(ContextVarsMap(found)))
  {
    var contextVarsMap: map<string, seq<ContextVar>> := map[];
    var i := 0;
    while i < |found|
      invariant 0 <= i <= |found|
      invariant contextVarsMap == ContextVarsMap(found[..i])
    {
      var (pluginName, pluginMigrations) := found[i];
      var ctxVars := MakeDdlTierOverrides(pluginMigrations, DefaultTier);
      contextVarsMap := contextVarsMap[pluginName := ctxVars];
      assert found[..i + 1][..i] == found[..i];
      i := i + 1;
    }
    assert found[..i] == found;
    var transformer := new SingleNodeTopologyTransformer();
    transformer.SetMigrationContextProvider(MapProvider(contextVarsMap));
    t := transformer.Transform(source);
  }

  /** In the unit-test topology every context variable of every plugin is set
      to `default`. */
  lemma UnitTestContextIsDefault(source: Topology, found: seq<(string, seq<Migration>)>)
    ensures var t := SingleNode(source, MapProvider(ContextVarsMap(found)));
      forall name, k :: name in t.plugins && 0 <= k < |t.plugins[name].migrationContext| ==>
        t.plugins[name].migrationContext[k].value == DefaultTier
  {
    ContextVarsAllDefault(found);
  }

  /** `get_or_create_unit_test_topology` builds the topology on its first call
      only; later calls return it as it is. */
  class UnitTestTopologyCell {
    var topology: Option<Topology>

    constructor ()
      ensures topology.None?
    {
      topology := None;
    }

    method GetOrCreate(source: Topology, found: seq<(string, seq<Migration>)>) returns (t: Topology)
      modifies this
      ensures old(topology).Some? ==> t == old(topology).value && topology == old(topology)
      ensures old(topology).None? ==>
        t == SingleNode(source, MapProvider(ContextVarsMap(found))) && topology == Some(t)
    {
      if topology.None? {
        var created := UnitTestTopology(source, found);
        topology := Some(created);
      }
      t := topology.value;
    }
  }
}
