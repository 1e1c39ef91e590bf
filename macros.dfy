/** The attribute macros of `picotest_macros`: `#[picotest]`, which turns each
    `test_` function of an item into an `rstest` test that receives the
    session cluster, and `#[picotest_unit]`, which exports a unit test through
    the C ABI under a fresh name and puts a `#[test]` runner in its place.

    A `syn` item is the record of the parts the rewrites touch; the token text
    of quoted code is named, not spelt out. */
module Macros {
  import opened Wrappers
  import opened Strings

  /** The attributes the rewrites add; any other is kept as its text. */
  datatype Attr = Rstest | Test | AllowDeadCode | NoMangle | OtherAttr(text: string)

  /** `#[with(path, timeout)] cluster: &Cluster`, or an argument of the test. */
  datatype Input = ClusterInput(path: Option<string>, timeout: nat) | OtherInput(text: string)

  /** The statements the rewrite produces, or one of the test's own. */
  datatype Stmt =
    | CatchUnwind(block: seq<Stmt>)
    | ResumeUnwindOnErr
    | OtherStmt(text: string)

  datatype Visibility = Inherited | Pub | Restricted(text: string)

  /** `syn::ItemFn`: `abi` is the string of an `extern` qualifier. */
  datatype ItemFn = ItemFn(
    name: string,
    attrs: seq<Attr>,
    inputs: seq<Input>,
    body: seq<Stmt>,
    vis: Visibility,
    abi: Option<string>)

  /** `syn::Item`: a function, a module (with inline content or none), a `use`
      of a path, or anything else. */
  datatype Item =
    | Fn(f: ItemFn)
    | Mod(modName: string, content: Option<seq<Item>>)
    | Use(path: string)
    | OtherItem(text: string)

  const TestPrefix := "test_"

  // ---------------------------------------------------------------------------
  // `process_test_function`.

  /** The rewritten test: `#[rstest]` first, the cluster argument first, and
      the body run under `catch_unwind` and resumed on error; a function whose
      name does not start with `test_` is left alone. */
  function ProcessedTestFunction(func: ItemFn, path: Option<string>, timeout: nat): ItemFn {
    if !StartsWith(func.name, TestPrefix) then func
    else func.(
      attrs := [Rstest] + func.attrs,
      inputs := [ClusterInput(path, timeout)] + func.inputs,
      body := [CatchUnwind(func.body), ResumeUnwindOnErr])
  }

  /** What the rewrite adds, taken back off: the inverse of the rewrite on
      `test_` functions. */
  function Unprocessed(func: ItemFn): ItemFn
    requires |func.attrs| >= 1 && |func.inputs| >= 1 && |func.body| >= 1 && func.body[0].CatchUnwind?
  {
    func.(attrs := func.attrs[1..], inputs := func.inputs[1..], body := func.body[0].block)
  }

  /** The rewrite keeps the name, visibility and ABI; on a `test_` function it
      only adds `#[rstest]` and the cluster argument in front of the originals,
      and the original body is recoverable from the two new statements. */
  lemma ProcessedTestFunctionShape(func: ItemFn, path: Option<string>, timeout: nat)
    ensures var r := ProcessedTestFunction(func, path, timeout);
      r.name == func.name && r.vis == func.vis && r.abi == func.abi
      && (!StartsWith(func.name, TestPrefix) ==> r == func)
      && (StartsWith(func.name, TestPrefix) ==>
            r.attrs[0] == Rstest && r.attrs[1..] == func.attrs
            && r.inputs[0] == ClusterInput(path, timeout) && r.inputs[1..] == func.inputs
            && |r.body| == 2 && r.body[0] == CatchUnwind(func.body) && r.body[1] == ResumeUnwindOnErr
            && Unprocessed(r) == func)
  {
    var r := ProcessedTestFunction(func, path, timeout);
    if StartsWith(func.name, TestPrefix) {
      assert r.attrs[1..] == func.attrs;
      assert r.inputs[1..] == func.inputs;
    }
  }

  /** `process_test_function`, inserting at the front of the attributes and
      inputs and replacing the statements, as the source does. */
  method ProcessTestFunction(func: ItemFn, path: Option<string>, timeout: nat) returns (r: ItemFn)
    ensures r == ProcessedTestFunction(func, path, timeout)
  {
    r := func;
    if !StartsWith(r.name, TestPrefix) {
      return;
    }
    r := r.(attrs := [Rstest] + r.attrs);
    r := r.(inputs := [ClusterInput(path, timeout)] + r.inputs);
    var block := r.body;
    r := r.(body := [CatchUnwind(block), ResumeUnwindOnErr]);
  }

  // ---------------------------------------------------------------------------
  // `#[picotest]`.

  /** `plugin_timeout_secs_default`. */
  const DefaultTimeoutSecs: nat := 5

  /** `PluginCfg` after `darling` has read the attribute's arguments. */
  datatype PluginCfg = PluginCfg(path: Option<string>, timeout: nat)

  /** The configuration from the arguments given: a missing `timeout` is 5. */
  function PluginCfgOf(path: Option<string>, timeout: Option<nat>): (r: PluginCfg)
    ensures r.path == path
    ensures timeout.None? ==> r.timeout == 5
    ensures timeout.Some? ==> r.timeout == timeout.value
  {
    PluginCfg(path, timeout.GetOr(DefaultTimeoutSecs))
  }

  const NotFnOrMod := "The #[picotest] macro is only valid when called on a function or module."
  const NoModContent := "called `Option::unwrap()` on a `None` value"

  /** The module items after the rewrite: functions rewritten, the rest kept. */
  function ProcessItems(items: seq<Item>, cfg: PluginCfg): (r: seq<Item>)
    ensures |r| == |items|
    ensures forall k :: 0 <= k < |items| ==>
      r[k] == (if items[k].Fn? then Fn(ProcessedTestFunction(items[k].f, cfg.path, cfg.timeout)) else items[k])
  {
    seq(|items|, k requires 0 <= k < |items| =>
      if items[k].Fn? then Fn(ProcessedTestFunction(items[k].f, cfg.path, cfg.timeout)) else items[k])
  }

  /** `picotest`: an argument error is returned as the expansion; a function is
      rewritten; a module gets `use picotest::*;` and `use std::panic;` in front
      of its rewritten items, and one without inline content panics; anything
      else panics. */
  function Picotest(cfg: Result<PluginCfg>, item: Item): Result<Item> {
    match cfg
    case Err(m) => Err(m)
    case Panic(m) => Panic(m)
    case Ok(c) =>
      match item
      case Fn(f) => Ok(Fn(ProcessedTestFunction(f, c.path, c.timeout)))
      case Mod(name, content) =>
        if content.None? then Panic(NoModContent)
        else Ok(Mod(name, Some([Use("picotest::*"), Use("std::panic")] + ProcessItems(content.value, c))))
      case Use(_) => Panic(NotFnOrMod)
      case OtherItem(_) => Panic(NotFnOrMod)
  }

  /** On a module, the two `use` items come first and the original items
      follow in order, each function rewritten and every other item kept as
      it was; the module's name is kept. */
  lemma PicotestOnModule(c: PluginCfg, name: string, items: seq<Item>)
    ensures var r := Picotest(Ok(c), Mod(name, Some(items)));
      r.Ok? && r.value.Mod? && r.value.modName == name && r.value.content.Some?
      && var content := r.value.content.value;
      |content| == |items| + 2
      && content[0] == Use("picotest::*") && content[1] == Use("std::panic")
      && (forall k :: 0 <= k < |items| && !items[k].Fn? ==> content[k + 2] == items[k])
      && (forall k :: 0 <= k < |items| && items[k].Fn? ==>
            content[k + 2].Fn? && content[k + 2].f.name == items[k].f.name
            && content[k + 2].f == ProcessedTestFunction(items[k].f, c.path, c.timeout))
  {
    var rewritten := ProcessItems(items, c);
    var content := [Use("picotest::*"), Use("std::panic")] + rewritten;
    assert Picotest(Ok(c), Mod(name, Some(items))) == Ok(Mod(name, Some(content)));
    forall k | 0 <= k < |items| && !items[k].Fn?
      ensures content[k + 2] == items[k]
    {
      assert content[k + 2] == rewritten[k];
    }
    forall k | 0 <= k < |items| && items[k].Fn?
      ensures content[k + 2] == Fn(ProcessedTestFunction(items[k].f, c.path, c.timeout))
      ensures content[k + 2].f.name == items[k].f.name
    {
      assert content[k + 2] == rewritten[k];
      ProcessedKeepsName(items[k].f, c.path, c.timeout);
    }
  }

  lemma ProcessedKeepsName(func: ItemFn, path: Option<string>, timeout: nat)
    ensures ProcessedTestFunction(func, path, timeout).name == func.name
  {
  }

  /** Only functions and modules with content expand; everything else panics. */
  lemma PicotestExpandsOnlyFnAndMod(c: PluginCfg, item: Item)
    ensures Picotest(Ok(c), item).Ok? <==> item.Fn? || (item.Mod? && item.content.Some?)
    ensures !Picotest(Ok(c), item).Ok? ==> Picotest(Ok(c), item).Panic?
  {
  }

  /** The expansion of `picotest`, building the module content by pushing the
      two `use` items and appending the rewritten ones. */
  method PicotestExpand(cfg: Result<PluginCfg>, item: Item) returns (r: Result<Item>)
    ensures r == Picotest(cfg, item)
  {
    if !cfg.Ok? {
      return if cfg.Err? then Err(cfg.message) else Panic(cfg.reason);
    }
    var c := cfg.value;
    match item {
      case Fn(f) =>
        var g := ProcessTestFunction(f, c.path, c.timeout);
        return Ok(Fn(g));
      case Mod(name, content) =>
        if content.None? {
          return Panic(NoModContent);
        }
        var items := content.value;
        var rewritten: seq<Item> := [];
        var i := 0;
        while i < |items|
          invariant 0 <= i <= |items|
          invariant rewritten == ProcessItems(items[..i], c)
        {
          var it := items[i];
          if it.Fn? {
            var g := ProcessTestFunction(it.f, c.path, c.timeout);
            it := Fn(g);
          }
          rewritten := rewritten + [it];
          i := i + 1;
        }
        assert items[..i] == items;
        var out := [Use("picotest::*")];
        out := out + [Use("std::panic")];
        out := out + rewritten;
        assert out == [Use("picotest::*"), Use("std::panic")] + ProcessItems(items, c);
        return Ok(Mod(name, Some(out)));
      case Use(_) =>
        return Panic(NotFnOrMod);
      case OtherItem(_) =>
        return Panic(NotFnOrMod);
    }
  }

  // ---------------------------------------------------------------------------
  // `#[picotest_unit]`.

  const NotFn := "The #[picotest_unit] macro is only valid when called on a function."

  /** `test_impl_<idx>_<name>`: the symbol the unit test is exported under. */
  function FfiCallableName(idx: nat, name: string): string {
    "test_impl_" + NatToString(idx) + "_" + name
  }

  /** Different counter values give different symbols, whatever the names; the
      same value gives different symbols for different names. */
  lemma FfiCallableNamesDistinct(i: nat, n1: string, j: nat, n2: string)
    requires FfiCallableName(i, n1) == FfiCallableName(j, n2)
    ensures i == j && n1 == n2
  {
    var s1, s2 := FfiCallableName(i, n1), FfiCallableName(j, n2);
    var d1, d2 := NatToString(i), NatToString(j);
    assert s1[10..] == d1 + ['_'] + n1;
    assert s2[10..] == d2 + ['_'] + n2;
    assert '_' !in d1 && '_' !in d2;
    SplitOnceAt(d1, n1, '_');
    SplitOnceAt(d2, n2, '_');
    NatToStringInjective(i, j);
  }

  /** The `#[test]` function put in the original's place: it keeps the
      original name and runs the exported symbol through the Lua console. */
  datatype UnitRunner = UnitRunner(name: string, attrs: seq<Attr>, ffiCallable: string)

  /** The exported unit test: public, `extern "C"`, with exactly
      `allow(dead_code)` and `no_mangle`, under the new name; the runner keeps
      the original name. */
  function UnitExpansion(f: ItemFn, idx: nat): (ItemFn, UnitRunner) {
    (f.(vis := Pub, abi := Some("C"), attrs := [AllowDeadCode, NoMangle], name := FfiCallableName(idx, f.name)),
     UnitRunner(f.name, [Test], FfiCallableName(idx, f.name)))
  }

  /** The exported function keeps the inputs and the body; the runner keeps
      the name, and calls the exported symbol, which starts with `test_`. */
  lemma UnitExpansionShape(f: ItemFn, idx: nat)
    ensures var (g, runner) := UnitExpansion(f, idx);
      g.inputs == f.inputs && g.body == f.body
      && runner.name == f.name && runner.ffiCallable == g.name
      && StartsWith(g.name, TestPrefix) && EndsWith(g.name, "_" + f.name)
  {
    var g := UnitExpansion(f, idx).0;
    assert g.name[..5] == TestPrefix;
    assert g.name[|g.name| - |"_" + f.name|..] == "_" + f.name;
  }

  /** `UNIT_COUNTER`, the only state the macros keep between expansions. */
  class UnitCounter {
    var next: nat

    /** The counter starts at 1. */
    constructor()
      ensures next == 1
    {
      next := 1;
    }

    /** `picotest_unit`: a function is exported under the counter's current
        value, which is then bumped; anything else panics before the counter
        is touched. */
    method PicotestUnit(item: Item) returns (r: Result<(ItemFn, UnitRunner)>)
      modifies this
      ensures item.Fn? ==> r == Ok(UnitExpansion(item.f, old(next))) && next == old(next) + 1
      ensures !item.Fn? ==> r == Panic(NotFn) && next == old(next)
    {
      if !item.Fn? {
        return Panic(NotFn);
      }
      var f := item.f;
      var name := f.name;
      f := f.(vis := Pub);
      f := f.(abi := Some("C"));
      f := f.(attrs := [AllowDeadCode, NoMangle]);
      var idx := next;
      next := next + 1;
      f := f.(name := FfiCallableName(idx, name));
      return Ok((f, UnitRunner(name, [Test], FfiCallableName(idx, name))));
    }
  }

  /** Expansions under different counter values export different symbols,
      even for functions of the same name (in different modules). */
  lemma UnitExpansionsDistinct(f1: ItemFn, i: nat, f2: ItemFn, j: nat)
    requires i != j
    ensures UnitExpansion(f1, i).0.name != UnitExpansion(f2, j).0.name
  {
    if FfiCallableName(i, f1.name) == FfiCallableName(j, f2.name) {
      FfiCallableNamesDistinct(i, f1.name, j, f2.name);
    }
  }
}
