/** The client side of a remote unit test (`picotest/src/runner/client.rs`):
    the Lua chunk sent to the cluster's admin console, the scan of the console's
    answer for the `fail=` and `data=` lines the chunk prints, and the verdict.

    The cluster is a parameter: a function from the chunk sent to the console's
    answer, `None` when the query itself fails. */
module Client {
  import opened Wrappers
  import opened Strings
  import Server
  import Internal

  type byte = Server.byte

  // ---------------------------------------------------------------------------
  // The Lua chunk.

  /** The runner's fields that `execute_unit` reads; the dylib path is its
      UTF-8 text. */
  datatype RemoteRunner = RemoteRunner(packageName: string, pluginDylibPath: string)

  /** The chunk `execute_unit` formats: announce, declare the C ABI once per
      console, load the plugin library once per package, call
      `picotest_execute_unit`, print the `fail=` and `data=` lines, free the
      record and end with `true`. */
  function Script(packageName: string, dylibPath: string, name: string, locatorName: string): string {
    Announce(name) + Prelude + Load(packageName, dylibPath)
    + Execute(packageName, name, locatorName) + Report(name) + Free(packageName) + "true"
  }

  function Announce(name: string): string {
    "\n\"[*] Running unit-test '" + name + "'\"\n\n"
  }

  const Prelude: string :=
    "ffi = require(\"ffi\")\n"
    + "_G.__picotest = _G.__picotest or { }\n"
    + "_G.__picotest_result = _G.__picotest_result or ffi.cdef[[ typedef struct { uint8_t fail; char* data; size_t len; size_t cap; } picounit_result; ]]\n"
    + "_G.__picotest_exec_unit = _G.__picotest_exec_unit or ffi.cdef[[ picounit_result (picotest_execute_unit)(const char*, const char*, const char*); ]]\n"
    + "_G.__picotest_free_unit = _G.__picotest_free_unit or ffi.cdef[[ void (picotest_free_unit_result)(picounit_result); ]]\n"

  /** The library handle is kept per package and only loaded when absent. */
  function Load(packageName: string, dylibPath: string): string {
    "_G.__picotest[\"" + packageName + "\"] = _G.__picotest[\"" + packageName
    + "\"] or { lib = ffi.load(\"" + dylibPath + "\") }\n\n"
  }

  function Execute(packageName: string, name: string, locatorName: string): string {
    "result = _G.__picotest[\"" + packageName + "\"].lib.picotest_execute_unit(\""
    + packageName + "\",\"" + name + "\",\"" + locatorName + "\")\n\n"
  }

  function Report(name: string): string {
    "\"[*] Test '" + name + "' has been finished\"\n"
    + "(\"picotest_unit|" + name + "|fail=%s\"):format(result.fail)\n"
    + "(\"picotest_unit|" + name + "|data=%s\"):format(ffi.string(result.data,result.len))\n\n"
  }

  function Free(packageName: string): string {
    "_G.__picotest[\"" + packageName + "\"].lib.picotest_free_unit_result(result)\n"
  }

  /** The ways the chunk's seven parts regroup, for any element type. */
  lemma Regroup<T>(a: seq<T>, p: seq<T>, l: seq<T>, e: seq<T>, r: seq<T>, f: seq<T>, t: seq<T>)
    ensures a + p + l + e + r + f + t == (a + p) + l + (e + r + f + t)
    ensures a + p + l + e + r + f + t == (a + p + l) + e + (r + f + t)
    ensures a + p + l + e + r + f + t == (a + p + l + e) + r + (f + t)
    ensures a + p + l + e + r + f + t == (a + p + l + e + r) + (f + t)
  {
  }

  /** The chunk loads the package's library only when it is not loaded yet. */
  lemma ScriptLoadsOnce(packageName: string, dylibPath: string, name: string, locatorName: string)
    ensures Contains(Script(packageName, dylibPath, name, locatorName), Load(packageName, dylibPath))
  {
    var a, p, l := Announce(name), Prelude, Load(packageName, dylibPath);
    var e, r, f := Execute(packageName, name, locatorName), Report(name), Free(packageName);
    Regroup(a, p, l, e, r, f, "true");
    ContainsMiddle(a + p, l, e + r + f + "true");
  }

  /** The chunk calls the entry point with the package, the test and the locator. */
  lemma ScriptExecutes(packageName: string, dylibPath: string, name: string, locatorName: string)
    ensures Contains(Script(packageName, dylibPath, name, locatorName), Execute(packageName, name, locatorName))
  {
    var a, p, l := Announce(name), Prelude, Load(packageName, dylibPath);
    var e, r, f := Execute(packageName, name, locatorName), Report(name), Free(packageName);
    Regroup(a, p, l, e, r, f, "true");
    ContainsMiddle(a + p + l, e, r + f + "true");
  }

  /** The chunk prints the verdict lines the scan below looks for. */
  lemma ScriptReports(packageName: string, dylibPath: string, name: string, locatorName: string)
    ensures Contains(Script(packageName, dylibPath, name, locatorName), Report(name))
  {
    var a, p, l := Announce(name), Prelude, Load(packageName, dylibPath);
    var e, r, f := Execute(packageName, name, locatorName), Report(name), Free(packageName);
    Regroup(a, p, l, e, r, f, "true");
    ContainsMiddle(a + p + l + e, r, f + "true");
  }

  /** The chunk frees the record after reporting it, and its last line is `true`. */
  lemma ScriptFreesThenEndsWithTrue(packageName: string, dylibPath: string, name: string, locatorName: string)
    ensures EndsWith(Script(packageName, dylibPath, name, locatorName), Free(packageName) + "true")
  {
    var a, p, l := Announce(name), Prelude, Load(packageName, dylibPath);
    var e, r, f := Execute(packageName, name, locatorName), Report(name), Free(packageName);
    Regroup(a, p, l, e, r, f, "true");
    EndsWithAppended(a + p + l + e + r, f + "true");
  }

  // ---------------------------------------------------------------------------
  // Scanning the console's answer.

  /** The console echoes each printed value as a YAML list item. */
  function TestPrefix(name: string): string {
    "- picotest_unit|" + name + "|"
  }

  /** The loop's variables: the sticky `fail` flag and the last decoded fields. */
  datatype ScanState = ScanState(fail: bool, fields: Server.Decoded)

  const Initial := ScanState(false, Server.Decoded([], None, None))

  /** One pass of the loop: lines without the prefix or without `=` are skipped;
      `fail=1` sets the flag; every `data=` value is decoded, and a decoder
      panic ends the test. */
  function ScanLine(st: ScanState, prefix: string, line: string): Result<ScanState> {
    if !StartsWith(line, prefix) then Ok(st)
    else
      match SplitOnce(line[|prefix|..], '=')
      case None => Ok(st)
      case Some((key, value)) =>
        var fail := st.fail || (key == "fail" && value == "1");
        if key == "data" then
          match Server.DecodeFields(value)
          case Ok(d) => Ok(ScanState(fail, d))
          case Err(m) => Err(m)
          case Panic(m) => Panic(m)
        else Ok(ScanState(fail, st.fields))
  }

  function Continue(r: Result<ScanState>, prefix: string, line: string): Result<ScanState> {
    match r
    case Ok(st) => ScanLine(st, prefix, line)
    case Err(m) => Err(m)
    case Panic(m) => Panic(m)
  }

  /** The loop over the lines, from state `st`. */
  function ScanFrom(st: ScanState, prefix: string, lines: seq<string>): Result<ScanState>
    decreases |lines|
  {
    if lines == [] then Ok(st)
    else Continue(ScanFrom(st, prefix, lines[..|lines| - 1]), prefix, lines[|lines| - 1])
  }

  /** A line that reports the test as failed. */
  predicate IsFailLine(prefix: string, line: string) {
    StartsWith(line, prefix) && SplitOnce(line[|prefix|..], '=') == Some(("fail", "1"))
  }

  /** The value of a `data=` line, if `line` is one. */
  function DataValue(prefix: string, line: string): (r: Option<string>)
    ensures r.Some? ==> StartsWith(line, prefix) && line[|prefix|..] == "data=" + r.value
  {
    if !StartsWith(line, prefix) then None
    else
      match SplitOnce(line[|prefix|..], '=')
      case Some((key, value)) =>
        if key == "data" then
          assert line[|prefix|..] == "data=" + value;
          Some(value)
        else None
      case None => None
  }

  /** The value of the last `data=` line: a reference definition of what the
      loop keeps. */
  function LastData(prefix: string, lines: seq<string>): Option<string>
    decreases |lines|
  {
    if lines == [] then None
    else if DataValue(prefix, lines[|lines| - 1]).Some? then DataValue(prefix, lines[|lines| - 1])
    else LastData(prefix, lines[..|lines| - 1])
  }

  /** Whether every `data=` line carries a record the decoder accepts. */
  predicate AllDataDecodes(prefix: string, lines: seq<string>) {
    forall k :: 0 <= k < |lines| ==> DataDecodes(prefix, lines[k])
  }

  /** A line that is not a `data=` line, or whose value decodes. */
  predicate DataDecodes(prefix: string, line: string) {
    DataValue(prefix, line).None? || Server.DecodeFields(DataValue(prefix, line).value).Ok?
  }

  /** What one line does, in terms of `IsFailLine` and `DataValue`. */
  lemma ScanLineEffect(st: ScanState, prefix: string, line: string)
    ensures ScanLine(st, prefix, line).Ok? <==>
      DataValue(prefix, line).None? || Server.DecodeFields(DataValue(prefix, line).value).Ok?
    ensures ScanLine(st, prefix, line).Ok? ==>
      ScanLine(st, prefix, line).value.fail == (st.fail || IsFailLine(prefix, line))
      && ScanLine(st, prefix, line).value.fields ==
        (if DataValue(prefix, line).Some? then Server.DecodeFields(DataValue(prefix, line).value).value
         else st.fields)
    ensures !ScanLine(st, prefix, line).Ok? ==> ScanLine(st, prefix, line).Panic?
  {
  }

  /** The flag is sticky: it ends up set exactly when it started set or some
      line reports `fail=1`, whatever comes after that line. */
  lemma {:induction false} ScanFailSticky(st: ScanState, prefix: string, lines: seq<string>)
    ensures ScanFrom(st, prefix, lines).Ok? ==>
      (ScanFrom(st, prefix, lines).value.fail <==>
        st.fail || exists k :: 0 <= k < |lines| && IsFailLine(prefix, lines[k]))
    decreases |lines|
  {
    if lines != [] {
      var init, last := lines[..|lines| - 1], lines[|lines| - 1];
      ScanFailSticky(st, prefix, init);
      assert forall k :: 0 <= k < |init| ==> init[k] == lines[k];
      match ScanFrom(st, prefix, init)
      case Ok(s) => ScanLineEffect(s, prefix, last);
      case Err(_) =>
      case Panic(_) =>
    }
  }

  /** The last `data=` line wins: the fields are the decoding of its value, or
      the starting fields when there is none. */
  lemma {:induction false} ScanLastDataWins(st: ScanState, prefix: string, lines: seq<string>)
    ensures ScanFrom(st, prefix, lines).Ok? && LastData(prefix, lines).None? ==>
      ScanFrom(st, prefix, lines).value.fields == st.fields
    ensures ScanFrom(st, prefix, lines).Ok? && LastData(prefix, lines).Some? ==>
      Server.DecodeFields(LastData(prefix, lines).value) == Ok(ScanFrom(st, prefix, lines).value.fields)
    decreases |lines|
  {
    if lines != [] {
      var init, last := lines[..|lines| - 1], lines[|lines| - 1];
      ScanLastDataWins(st, prefix, init);
      match ScanFrom(st, prefix, init)
      case Ok(s) => ScanLineEffect(s, prefix, last);
      case Err(_) =>
      case Panic(_) =>
    }
  }

  /** The scan completes exactly when every `data=` line decodes; otherwise
      the decoder's panic ends the test. */
  lemma {:induction false} ScanOkIffAllDataDecodes(st: ScanState, prefix: string, lines: seq<string>)
    ensures ScanFrom(st, prefix, lines).Ok? <==> AllDataDecodes(prefix, lines)
    ensures !ScanFrom(st, prefix, lines).Ok? ==> ScanFrom(st, prefix, lines).Panic?
    decreases |lines|
  {
    if lines != [] {
      var init, last := lines[..|lines| - 1], lines[|lines| - 1];
      ScanOkIffAllDataDecodes(st, prefix, init);
      AllDataDecodesSnoc(prefix, lines);
      match ScanFrom(st, prefix, init)
      case Ok(s) => ScanLineEffect(s, prefix, last);
      case Err(_) =>
      case Panic(_) =>
    }
  }

  /** Every `data=` line decodes exactly when it holds for all but the last
      line and for the last. */
  lemma AllDataDecodesSnoc(prefix: string, lines: seq<string>)
    requires lines != []
    ensures var init, last := lines[..|lines| - 1], lines[|lines| - 1];
      AllDataDecodes(prefix, lines) <==> AllDataDecodes(prefix, init) && DataDecodes(prefix, last)
  {
    var init, last := lines[..|lines| - 1], lines[|lines| - 1];
    assert lines == init + [last];
    AllSnoc(line => DataDecodes(prefix, line), init, last);
  }

  /** A property holds of every element exactly when it holds of every
      element but the last, and of the last. */
  lemma AllSnoc<T>(p: T -> bool, init: seq<T>, last: T)
    ensures (forall k :: 0 <= k < |init + [last]| ==> p((init + [last])[k])) <==>
      (forall k :: 0 <= k < |init| ==> p(init[k])) && p(last)
  {
    var xs := init + [last];
    assert forall k :: 0 <= k < |init| ==> xs[k] == init[k];
    assert xs[|init|] == last;
  }

  /** A `data=` line with an empty value, which the decoder's first assertion
      rejects, makes the scan panic. */
  lemma EmptyDataPanics(st: ScanState, prefix: string, lines: seq<string>, k: nat)
    requires k < |lines| && lines[k] == prefix + "data="
    ensures ScanFrom(st, prefix, lines).Panic?
  {
    var line := lines[k];
    assert line[..|prefix|] == prefix;
    assert line[|prefix|..] == "data" + ['='] + "";
    SplitOnceAt("data", "", '=');
    assert DataValue(prefix, line) == Some("");
    assert !Server.DecodeFields("").Ok?;
    ScanOkIffAllDataDecodes(st, prefix, lines);
  }

  function ScanAll(r: Result<ScanState>, prefix: string, lines: seq<string>): Result<ScanState> {
    match r
    case Ok(st) => ScanFrom(st, prefix, lines)
    case Err(m) => Err(m)
    case Panic(m) => Panic(m)
  }

  /** Scanning two blocks of lines is scanning the first and then the second. */
  lemma {:induction false} ScanFromAppend(st: ScanState, prefix: string, a: seq<string>, b: seq<string>)
    ensures ScanFrom(st, prefix, a + b) == ScanAll(ScanFrom(st, prefix, a), prefix, b)
    decreases |b|
  {
    if b == [] {
      assert a + b == a;
    } else {
      var init := b[..|b| - 1];
      assert (a + b)[..|a + b| - 1] == a + init;
      assert (a + b)[|a + b| - 1] == b[|b| - 1];
      ScanFromAppend(st, prefix, a, init);
    }
  }

  /** Lines without the prefix leave the state alone. */
  lemma {:induction false} ScanIgnoresOtherLines(st: ScanState, prefix: string, lines: seq<string>)
    requires forall k :: 0 <= k < |lines| ==> !StartsWith(lines[k], prefix)
    ensures ScanFrom(st, prefix, lines) == Ok(st)
    decreases |lines|
  {
    if lines != [] {
      ScanIgnoresOtherLines(st, prefix, lines[..|lines| - 1]);
    }
  }

  // ---------------------------------------------------------------------------
  // The verdict.

  /** How `execute_unit` ends: it returns `Success`, or it panics with the
      remote panic's report, with the output check's error, or on a failure of
      its own (the query or the decoder). */
  datatype TestOutcome =
    | Success
    | RemotePanic(report: seq<byte>)
    | ExitedWithFailure(message: string)
    | Aborted(reason: string)

  const QueryFailed := "Failed to execute query"

  /** The text of the panic that reports a remote failure: the location (or
      `<?>`), the payload, and the backtrace when there is one. */
  function FailureMessage(d: Server.Decoded): seq<byte> {
    Server.AsciiBytes("remote fiber panicked at ") + d.location.GetOr(Server.AsciiBytes("<?>"))
    + Server.AsciiBytes(":\n") + d.payload
    + (if d.backtrace.Some? then Server.AsciiBytes("\nremote stack backtrace:\n") + d.backtrace.value else [])
  }

  function ExitMessage(name: string, err: string): string {
    "Test '" + name + "' exited with failure: " + err
  }

  /** The verdict on the console's answer: a remote failure is reported before
      the output is checked for library or symbol errors. */
  function Judge(name: string, output: Option<string>): TestOutcome {
    match output
    case None => Aborted(QueryFailed)
    case Some(out) =>
      match ScanFrom(Initial, TestPrefix(name), Split(out, '\n'))
      case Err(m) => Aborted(m)
      case Panic(m) => Aborted(m)
      case Ok(st) =>
        if st.fail then RemotePanic(FailureMessage(st.fields))
        else
          match Internal.VerifyUnitTestOutput(out)
          case Ok(_) => Success
          case Err(e) => ExitedWithFailure(ExitMessage(name, e))
          case Panic(m) => Aborted(m)
  }

  /** The body of the scan loop for one line: skip a line without the prefix
      or without `=`, set the flag on `fail=1`, decode a `data=` value. */
  method ScanOne(fail: bool, fields: Server.Decoded, prefix: string, line: string) returns (r: Result<ScanState>)
    ensures r == ScanLine(ScanState(fail, fields), prefix, line)
  {
    if !StartsWith(line, prefix) {
      return Ok(ScanState(fail, fields));
    }
    var rest := line[|prefix|..];
    var split := SplitOnce(rest, '=');
    if split.None? {
      return Ok(ScanState(fail, fields));
    }
    var key, value := split.value.0, split.value.1;
    var failed := fail;
    if key == "fail" && value == "1" {
      failed := true;
    }
    if key == "data" {
      var d := Server.DecodeWithBase64(value);
      if d.Panic? {
        return Panic(d.reason);
      }
      return Ok(ScanState(failed, d.value));
    }
    return Ok(ScanState(failed, fields));
  }

  /** The scan loop of `execute_unit`, with its mutable `fail` flag and
      payload, location and backtrace; a decoder panic ends it. */
  method ScanOutput(output: string, prefix: string) returns (r: Result<ScanState>)
    ensures r == ScanFrom(Initial, prefix, Split(output, '\n'))
  {
    var fail := false;
    var payload: seq<byte>, location: Option<seq<byte>>, backtrace: Option<seq<byte>> := [], None, None;
    var lines := Split(output, '\n');
    var i := 0;
    while i < |lines|
      invariant 0 <= i <= |lines|
      invariant ScanFrom(Initial, prefix, lines[..i]) == Ok(ScanState(fail, Server.Decoded(payload, location, backtrace)))
    {
      TakeOfTake(lines, i);
      ScanLineEffect(ScanState(fail, Server.Decoded(payload, location, backtrace)), prefix, lines[i]);
      var next := ScanOne(fail, Server.Decoded(payload, location, backtrace), prefix, lines[i]);
      if next.Panic? {
        ScanFromAppend(Initial, prefix, lines[..i + 1], lines[i + 1..]);
        TakeDrop(lines, i + 1);
        return next;
      }
      fail := next.value.fail;
      payload, location, backtrace := next.value.fields.payload, next.value.fields.location, next.value.fields.backtrace;
      i := i + 1;
    }
    assert lines[..i] == lines;
    return Ok(ScanState(fail, Server.Decoded(payload, location, backtrace)));
  }

  /** `execute_unit`: send the chunk, scan the answer line by line, then judge. */
  method ExecuteUnit(runner: RemoteRunner, name: string, locatorName: string, console: string -> Option<string>)
    returns (outcome: TestOutcome)
    ensures outcome == Judge(name, console(Script(runner.packageName, runner.pluginDylibPath, name, locatorName)))
  {
    var script := Script(runner.packageName, runner.pluginDylibPath, name, locatorName);
    var answer := console(script);
    outcome := JudgeAnswer(name, answer);
  }

  /** What `execute_unit` does with the console's answer. */
  method JudgeAnswer(name: string, answer: Option<string>) returns (outcome: TestOutcome)
    ensures outcome == Judge(name, answer)
  {
    if answer.None? {
      return Aborted(QueryFailed);
    }
    var output := answer.value;
    var scanned := ScanOutput(output, TestPrefix(name));
    if scanned.Err? {
      return Aborted(scanned.message);
    }
    if scanned.Panic? {
      return Aborted(scanned.reason);
    }
    if scanned.value.fail {
      return RemotePanic(FailureMessage(scanned.value.fields));
    }
    var verdict := Internal.VerifyUnitTestOutput(output);
    if verdict.Err? {
      return ExitedWithFailure(ExitMessage(name, verdict.message));
    }
    return Success;
  }

  /** A passing verdict means: the answer ends the chunk (it holds `true` and
      no library or symbol error), no line reports `fail=1`, and every `data=`
      line decodes. */
  lemma SuccessMeansClean(name: string, out: string)
    requires Judge(name, Some(out)) == Success
    ensures Contains(out, Internal.Sentinel)
    ensures !Contains(out, Internal.LibOpenMarker)
    ensures !Contains(out, Internal.MissingDeclarationMarker) && !Contains(out, Internal.UndefinedSymbolMarker)
    ensures forall k :: 0 <= k < |Split(out, '\n')| ==> !IsFailLine(TestPrefix(name), Split(out, '\n')[k])
    ensures AllDataDecodes(TestPrefix(name), Split(out, '\n'))
  {
    ScanFailSticky(Initial, TestPrefix(name), Split(out, '\n'));
    ScanOkIffAllDataDecodes(Initial, TestPrefix(name), Split(out, '\n'));
  }

  /** A `fail=1` line wins over any error the output check would find, as long
      as every `data=` line decodes. */
  lemma FailLineMeansRemotePanic(name: string, out: string, k: nat)
    requires k < |Split(out, '\n')| && IsFailLine(TestPrefix(name), Split(out, '\n')[k])
    requires AllDataDecodes(TestPrefix(name), Split(out, '\n'))
    ensures Judge(name, Some(out)).RemotePanic?
  {
    ScanFailSticky(Initial, TestPrefix(name), Split(out, '\n'));
    ScanOkIffAllDataDecodes(Initial, TestPrefix(name), Split(out, '\n'));
  }

  /** A line made of the prefix, a key without `=`, `=` and a value splits
      back into that key and value. */
  lemma KeyValueLine(prefix: string, key: string, value: string)
    requires '=' !in key
    ensures var line := prefix + (key + ['=']) + value;
      StartsWith(line, prefix) && SplitOnce(line[|prefix|..], '=') == Some((key, value))
  {
    var line := prefix + (key + ['=']) + value;
    assert line[..|prefix|] == prefix;
    assert line[|prefix|..] == key + ['='] + value;
    SplitOnceAt(key, value, '=');
  }

  /** A `fail=1` line sets the flag and keeps the fields. */
  lemma ScanFailLine(st: ScanState, prefix: string)
    ensures ScanLine(st, prefix, prefix + "fail=1") == Ok(st.(fail := true))
  {
    assert "fail" + ['='] == "fail=";
    KeyValueLine(prefix, "fail", "1");
    assert prefix + "fail=1" == prefix + "fail=" + "1";
  }

  /** A `data=` line whose value decodes replaces the fields and keeps the flag. */
  lemma ScanDataLine(st: ScanState, prefix: string, value: string)
    requires Server.DecodeFields(value).Ok?
    ensures ScanLine(st, prefix, prefix + "data=" + value) == Ok(st.(fields := Server.DecodeFields(value).value))
  {
    var line := prefix + "data=" + value;
    assert "data" + ['='] == "data=";
    KeyValueLine(prefix, "data", value);
    var d := Server.DecodeFields(value);
    assert d == Ok(d.value);
    assert ScanLine(st, prefix, line) == Ok(ScanState(st.fail, d.value));
  }

  /** The two lines the chunk prints for a failed test, scanned from the start. */
  lemma ScanFailThenData(prefix: string, value: string)
    requires Server.DecodeFields(value).Ok?
    ensures ScanFrom(Initial, prefix, [prefix + "fail=1", prefix + "data=" + value])
      == Ok(ScanState(true, Server.DecodeFields(value).value))
  {
    var lines := [prefix + "fail=1", prefix + "data=" + value];
    ScanFailLine(Initial, prefix);
    ScanDataLine(Initial.(fail := true), prefix, value);
    assert lines[..1][..0] == [];
    assert ScanFrom(Initial, prefix, lines[..1]) == Ok(Initial.(fail := true));
  }

  /** End to end: when the answer holds the two lines the chunk prints for a
      failed test, with the server's encoding of the panic, the client reports
      exactly the panic's payload, location and backtrace. */
  lemma RemotePanicReportsInfo(name: string, out: string, info: Server.PanicInfo,
                               before: seq<string>, after: seq<string>)
    requires Server.Encoding(info).Ok?
    requires Split(out, '\n') == before
      + [TestPrefix(name) + "fail=1", TestPrefix(name) + "data=" + Server.Encoding(info).value] + after
    requires forall k :: 0 <= k < |before| ==> !StartsWith(before[k], TestPrefix(name))
    requires forall k :: 0 <= k < |after| ==> !StartsWith(after[k], TestPrefix(name))
    ensures Judge(name, Some(out)) == RemotePanic(FailureMessage(Server.Expected(info)))
  {
    var prefix, e := TestPrefix(name), Server.Encoding(info).value;
    var reported := [prefix + "fail=1", prefix + "data=" + e];
    Server.DecodeEncoding(info);
    ScanFailThenData(prefix, e);
    var afterData := ScanState(true, Server.Expected(info));
    ScanIgnoresOtherLines(Initial, prefix, before);
    ScanIgnoresOtherLines(afterData, prefix, after);
    ScanFromAppend(Initial, prefix, before, reported);
    ScanFromAppend(Initial, prefix, before + reported, after);
  }
}
