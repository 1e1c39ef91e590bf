# picotest core, modelled in Dafny

picotest is a test framework for picodata plugins. It has three layers:

- **Macros.** `#[picotest]` turns a test function, or every function of a
  module, into an `rstest` case that receives a running cluster and catches
  the test's panics. `#[picotest_unit]` exports a unit test under a numbered
  C symbol and generates a `#[test]` runner with the original name.
- **Remote unit tests.** The runner sends a Lua chunk to the cluster's admin
  console, and the chunk loads the plugin library there. Server-side, the
  test runs under `fiber_catch_unwind`. A panic is caught by the picotest
  panic hook and encoded as a single line
  `payload:<b64>;location:<b64>;backtrace:<b64>;` in a `PicounitResult`.
  The client scrapes `- picotest_unit|<name>|key=value` lines from the
  console output and turns them into a verdict.
- **Helpers.** These parse migration files, collapse a plugin topology to
  one `default` tier, rewrite a plugin manifest's service configuration,
  and watch test output for a line.

There is one module per source file:

| module | file |
|---|---|
| `Server` | `picotest/src/runner/server.rs` |
| `Client` | `picotest/src/runner/client.rs` |
| `Runner` | `picotest/src/runner/mod.rs` |
| `Internal` | `picotest/src/internal.rs` |
| `Migration` | `picotest_helpers/src/migration.rs` |
| `Topology` | `picotest_helpers/src/topology.rs` |
| `Manifest` | `picotest_helpers/src/lib.rs` |
| `Macros` | `picotest_macros/src/utils.rs` and `picotest_macros/src/lib.rs` |
| `TestHelpers` | `picotest/tests/helpers.rs` |

Three modules support them:

- `Wrappers` holds `Option` and `Result`. A `Result` is `Ok`, `Err` (an
  `anyhow`/`Result` error the source returns) or `Panic` (an `assert!`,
  `unwrap`, `expect` or `panic!` that aborts).
- `Strings` holds the Rust `str` operations the code uses.
- `Base64` holds RFC 4648 section 4 base64 without padding (section 3.2),
  with both round trips proved.

Where the source changes state in place, the model keeps that form:

- The registry of guarded fibers and raised panics, the runner cache and the
  unit-test counter are classes with `modifies` clauses.
- So are `LineMatcher`, the manifest being rewritten and the topology
  transformer.
- The loops are methods with invariants: `execute_unit`'s scan,
  `parse_migration_text`, `extract_up_down_ranges`, `make_ddl_tier_overrides`,
  the ancestor search of `find_plugin_topology_path`, the filling of the
  unit-test topology's migration map, the topology transformer, the content
  vector of `#[picotest]` and the manifest rewrite.
  Each is proved equal to a specification function, and the properties are
  proved about that function.
- The panic record's encoder and decoder have no loop in the source either;
  they are step-by-step methods proved equal to `Encoding` and `DecodeFields`.

Side effects become parameters:

- The admin console is a function from the chunk sent to the text received
  (`None` when the query fails).
- The file system is a set of existing paths.
- The executable's path, the `picodata.yaml` content and the test body's
  outcome are given as values.

The panic hook forwards only panics on unguarded fibers to the saved
handler, but it records every panic in `RAISED_PANICS`, guarded or not
(`picotest/src/runner/server.rs:115-140`); `Server.Registry.PanicHook` does
the same.

## Model

| member | source | states |
|---|---|---|
| Base64.DecodeEncode | picotest/src/runner/server.rs:47-69 | decoding the base64 text of any byte string gives the bytes back |
| Base64.EncodeDecode | picotest/src/runner/server.rs:47-69 | every text the decoder accepts is the encoding of what it decodes to (the encoding is canonical) |
| Base64.EncodedInAlphabet | picotest/src/runner/server.rs:44-62 | every character of an encoding is in the 64-character standard alphabet |
| Base64.EncodedHasNo | picotest/src/runner/server.rs:44-90 | a character outside the alphabet, such as `;` or `:`, never occurs in an encoding; this is what lets the record use `;` as a separator |
| Server.LocationText | picotest/src/runner/server.rs:27-35 | the location text starts with the file name followed by `:` |
| Server.Encoding | picotest/src/runner/server.rs:44-62 | encoding panics exactly when a captured backtrace does not end in a newline (the `strip_suffix(..).unwrap()`); otherwise it succeeds |
| Server.EncodingShape | picotest/src/runner/server.rs:44-62 | an encoding starts with `payload:`, ends with `;` and is one line |
| Server.EncodeWithBase64 | picotest/src/runner/server.rs:44-62 | the step-by-step appending produces exactly the specified encoding |
| Server.OptionalField | picotest/src/runner/server.rs:70-89 | an absent tag leaves the tail untouched and gives `None`; a tag with no `;` after it panics; a present value is followed by `;` and the rest |
| Server.DecodeFields | picotest/src/runner/server.rs:64-90 | decoding panics when the text does not start with `payload:` or has no `;` after the payload; on success the text starts with the payload's encoding and `;` |
| Server.DecodeWithBase64 | picotest/src/runner/server.rs:64-90 | the decoder that advances a mutable tail returns exactly the specified result |
| Server.DecodeOptionalFields | picotest/src/runner/server.rs:70-89 | the optional fields never change the payload already decoded |
| Server.FieldRoundTrip | picotest/src/runner/server.rs:70-89 | a field written by the encoder is read back with the same bytes and the rest of the text |
| Server.PayloadRoundTrip | picotest/src/runner/server.rs:66-69 | the payload field of an encoding is read back, and decoding goes on with the remaining text |
| Server.LocationStep | picotest/src/runner/server.rs:70-79 | the location part is read back as `file:line:col` exactly when a location was present |
| Server.BacktraceStep | picotest/src/runner/server.rs:80-88 | the backtrace part is read back as the backtrace without its final newline exactly when one was captured |
| Server.OptionalFieldsRoundTrip | picotest/src/runner/server.rs:70-89 | the location and backtrace parts of an encoding decode to the expected fields |
| Server.DecodeEncoding | picotest/src/runner/server.rs:44-90 | round trip: decoding an encoding gives the payload, the location text exactly when present, and the stripped backtrace exactly when captured |
| Server.DecodeIgnoresTrailingText | picotest/src/runner/server.rs:80-89 | text after the last recognised field is ignored |
| Server.PayloadText | picotest/src/runner/server.rs:124-130 | a `&str` or `String` payload is recorded as its text; any other payload as `unknown panic` |
| Server.InstallStep | picotest/src/runner/server.rs:100-110 | only the first install saves the current hook and puts the picotest hook in its place; later ones change nothing |
| Server.InstallIdempotent | picotest/src/runner/server.rs:100-110 | installing twice is installing once |
| Server.Registry.constructor | picotest/src/runner/server.rs:93-98 | no guarded fiber, no raised panic, no saved handler |
| Server.Registry.SetHook | picotest/src/runner/server.rs:100-110 | another `set_hook` replaces the process-wide hook that the installation takes and replaces, and nothing else changes |
| Server.Registry.Install | picotest/src/runner/server.rs:100-110 | the saved handler and hook become `InstallStep` of the old ones; the set and map are untouched |
| Server.Registry.PanicHook | picotest/src/runner/server.rs:112-142 | an unguarded fiber's panic goes to the saved handler first, and a missing handler panics; guarded or not, the record then replaces any earlier one for the fiber; the guarded set never changes |
| Server.Registry.RaisePanic | picotest/src/runner/server.rs:112-142 | with the picotest hook current, a panic's record is stored under its fiber; with another hook current, only that hook sees it |
| Server.Registry.FiberCatchUnwind | picotest/src/runner/server.rs:144-154 | installs the hook; the fiber is unguarded afterwards on both outcomes; a return leaves the panic map untouched; a panic takes the fiber's record out of the map and returns it, and a missing record panics |
| Server.Registry.ExecuteUnit | picotest/src/runner/server.rs:203-229 | a missing locator symbol makes the lookup's `unwrap` panic and changes nothing; otherwise the hook is installed once and the fiber is unguarded afterwards; a returning test gives the default result and leaves the raised panics and hook reports as they were; a panic under the picotest hook gives the failure record of the event and removes the fiber's record; under another hook the event is reported to it, and the fiber's earlier record, if any, is removed and returned as the failure, while a missing one panics |
| Server.U32 | picotest/src/runner/server.rs:185-186 | `as u32` is below 2^32 and is the identity on values that fit |
| Server.DefaultResult | picotest/src/runner/server.rs:164-173 | success: `fail` is 0, data is null, `len` and `cap` are 0, and freeing it does nothing |
| Server.Failure | picotest/src/runner/server.rs:176-188 | failure: `fail` is 1 and the record owns the encoding, with its length and capacity as `u32`; it panics exactly when encoding does |
| Server.Released | picotest/src/runner/server.rs:193-199 | freeing releases nothing exactly when data is null, and otherwise releases `len` bytes |
| Server.FailureRoundTrip | picotest/src/runner/server.rs:176-199 | the text read back through `data` and `len` decodes to the panic's fields, and it is what freeing releases |
| Client.Free | picotest/src/runner/client.rs:37 | the free call names the package's library |
| Client.ScriptLoadsOnce | picotest/src/runner/client.rs:20-38 | the chunk loads the library into `_G.__picotest[package]` with an `or`, so only when the entry is absent |
| Client.ScriptExecutes | picotest/src/runner/client.rs:20-38 | the chunk calls `picotest_execute_unit(package, name, locator)` |
| Client.ScriptReports | picotest/src/runner/client.rs:20-38 | the chunk prints the `fail` and `data` lines of the test |
| Client.ScriptFreesThenEndsWithTrue | picotest/src/runner/client.rs:20-38 | the chunk frees the result and then ends with the literal `true` |
| Client.IsFailLine | picotest/src/runner/client.rs:45-60 | a fail line carries the test's prefix, and its text after the first `=` is `1` |
| Client.DataValue | picotest/src/runner/client.rs:45-63 | a data line is the prefix, then `data=`, then the value; the split is at the first `=` |
| Client.AllDataDecodes | picotest/src/runner/client.rs:61-63 | every data line's value decodes |
| Client.ScanLineEffect | picotest/src/runner/client.rs:45-64 | one line: lines without the prefix or without `=` change nothing; `fail=1` sets the flag; a data line replaces the fields with its decoding or panics in the decoder |
| Client.ScanFailSticky | picotest/src/runner/client.rs:46-60 | the flag ends up set exactly when it started set or some line is a fail line; it is never reset |
| Client.ScanLastDataWins | picotest/src/runner/client.rs:47-63 | the fields come from the last data line, or are untouched when there is none |
| Client.ScanOkIffAllDataDecodes | picotest/src/runner/client.rs:48-64 | the scan survives exactly when every data value decodes, whatever `fail` says; otherwise it is a panic |
| Client.EmptyDataPanics | picotest/src/runner/client.rs:61-63 | an empty `data=` value reaches the decoder's `payload:` assert and panics |
| Client.ScanFromAppend | picotest/src/runner/client.rs:48-64 | scanning two blocks of lines is scanning the first, then the second from where the first left off |
| Client.ScanIgnoresOtherLines | picotest/src/runner/client.rs:49-51 | lines without the test's prefix change nothing |
| Client.Judge | picotest/src/runner/client.rs:41-85 | a failed query aborts; a set flag gives the remote-panic message before the output is checked; otherwise the output check decides between success and an exit with failure |
| Client.FailureMessage | picotest/src/runner/client.rs:66-77 | `remote fiber panicked at <location or <?>>:\n<payload>`, followed by `\nremote stack backtrace:\n<backtrace>` when there is one; RemotePanicReportsInfo states it end to end |
| Client.ExecuteUnit | picotest/src/runner/client.rs:17-43 | the outcome is the verdict on the console's answer to the chunk built for the package, library, test and locator |
| Client.JudgeAnswer | picotest/src/runner/client.rs:41-85 | a missing answer aborts; otherwise the scan, the flag and the output check give the verdict exactly as the reference judgement does |
| Client.ScanOutput | picotest/src/runner/client.rs:45-64 | the loop with its mutable `fail`, payload, location and backtrace computes the scan of the answer's `\n`-separated lines, stopping at a decoder panic |
| Client.ScanOne | picotest/src/runner/client.rs:49-63 | one pass of the loop body is one step of the reference scan |
| Client.KeyValueLine | picotest/src/runner/client.rs:49-57 | a line of prefix, key without `=`, `=` and value passes the prefix test and splits back into that key and value |
| Client.SuccessMeansClean | picotest/src/runner/client.rs:79-85 | success means: no fail line, every data value decodes, `true` appears, and no library or symbol error is reported |
| Client.FailLineMeansRemotePanic | picotest/src/runner/client.rs:66-78 | any fail line, with decodable data, makes the verdict a remote panic, whatever else the output holds |
| Client.ScanFailLine | picotest/src/runner/client.rs:58-60 | a `fail=1` line sets the flag and nothing else |
| Client.ScanDataLine | picotest/src/runner/client.rs:61-63 | a decodable data line replaces the fields and nothing else |
| Client.ScanFailThenData | picotest/src/runner/client.rs:45-64 | the two lines the chunk prints leave the flag set and the fields decoded |
| Client.RemotePanicReportsInfo | picotest/src/runner/client.rs:45-78 | end to end: output holding the chunk's `fail=1` line and the encoding of a panic reports `remote fiber panicked at <location or <?>>:` with that payload and backtrace |
| Runner.DetectRunAsServer | picotest/src/runner/mod.rs:16-19 | server side exactly when the executable's last path component is `picodata` |
| Runner.RunningAsServer | picotest/src/runner/mod.rs:12-14 | the memo is always filled with the answer it gives |
| Runner.RunningAsServerMemoised | picotest/src/runner/mod.rs:12-14 | detection runs at most once; later calls return the first answer whatever the path |
| Runner.GetOrInsert | picotest/src/runner/mod.rs:39-45 | the stored runner when the package has one, otherwise the candidate under the next serial number, inserted; GetOrInsertKeeps states the properties |
| Runner.GetOrInsertKeeps | picotest/src/runner/mod.rs:36-46 | a hit returns the stored runner and changes nothing; a miss creates exactly one new runner, stores it and returns it; entries are never removed or replaced; no two packages share a runner |
| Runner.RepeatedCallsReturnFirst | picotest/src/runner/mod.rs:8-10 | a second call for a package returns the first call's runner and changes nothing |
| Runner.DistinctPackagesDistinctRunners | picotest/src/runner/mod.rs:36-46 | two packages get two different runners |
| Runner.RunnerCache.constructor | picotest/src/runner/mod.rs:7-10 | an empty cache and an empty memo |
| Runner.RunnerCache.RunningAsServerCached | picotest/src/runner/mod.rs:12-14 | the answer and the new memo are those of `RunningAsServer`; the cache is untouched |
| Runner.RunnerCache.GetTestRunner | picotest/src/runner/mod.rs:36-46 | on the server side it fails the assert and changes nothing; otherwise it is the lookup-or-insert, and the cache invariant is kept |
| Internal.DylibFileName | picotest/src/internal.rs:50-58 | `lib` + the cluster name with every `-` replaced by `_` + `.` + the library extension, character by character |
| Internal.PluginDylibFileName | picotest/src/internal.rs:50-58 | a missing or invalid `picodata.yaml` panics with its message; otherwise the file name above |
| Internal.PluginProfileBuildPath | picotest/src/internal.rs:60-62 | the plugin path followed by `target/debug` |
| Internal.PluginDylibPath | picotest/src/internal.rs:66-68 | the build path followed by the library file name, whenever the configuration names a cluster |
| Internal.Nearest | picotest/src/internal.rs:109-121 | the nearest ancestor, the directory itself included, that holds `topology.toml`, and `None` exactly when no ancestor does |
| Internal.FindPluginTopologyPath | picotest/src/internal.rs:109-121 | a missing `CARGO_MANIFEST_DIR` is an error; otherwise the early-return walk over the ancestors returns the nearest match |
| Internal.PluginRootDir | picotest/src/internal.rs:85-100 | the root is the directory of the topology file found, and it holds `Cargo.toml` |
| Internal.PluginRootDirIsNearest | picotest/src/internal.rs:85-121 | the root holds both files, is an ancestor of the start, and no nearer ancestor holds `topology.toml` |
| Internal.LuaFfiCallUnitTest | picotest/src/internal.rs:134-147 | the announcement, the `ffi.cdef` declaration, the `dylib` assignment, the call through `ffi.load` and the closing lines, in that order; the LuaScript lemmas state what it contains |
| Internal.LuaFinish | picotest/src/internal.rs:134-147 | the script's last line is `true` |
| Internal.LuaScriptDeclares | picotest/src/internal.rs:134-147 | the script declares `void <test_fn_name>();` with `ffi.cdef` |
| Internal.LuaScriptLoads | picotest/src/internal.rs:134-147 | the script names the given dylib path |
| Internal.LuaScriptCalls | picotest/src/internal.rs:134-147 | the script calls the test function through `ffi.load(dylib)` |
| Internal.LuaScriptEndsWithTrue | picotest/src/internal.rs:134-147 | the whole script ends with a `true` line |
| Internal.VerifyUnitTestOutput | picotest/src/internal.rs:149-159 | library-open error exactly when `cannot open shared object file` appears; otherwise missing-symbol error exactly when `missing declaration` or `undefined symbol` appears; otherwise unexpected end exactly when `true` appears nowhere; Ok in every other case |
| Internal.OutputEndingInTrueAccepted | picotest/src/internal.rs:154-158 | output ending in `true`, with no error marker, is accepted |
| Internal.ContextVarsAllDefault | picotest/src/internal.rs:208-217 | every context variable made for the unit-test topology targets the `default` tier |
| Internal.UnitTestTopology | picotest/src/internal.rs:198-219 | the map filled in the loop, used as the provider, gives the single-node transform of the plugin's topology |
| Internal.UnitTestContextIsDefault | picotest/src/internal.rs:198-219 | every plugin's migration context in the unit-test topology targets `default` |
| Internal.UnitTestTopologyCell.constructor | picotest/src/internal.rs:198-219 | the cell starts empty |
| Internal.UnitTestTopologyCell.GetOrCreate | picotest/src/internal.rs:198-219 | the first call builds and stores the topology; later calls return the stored one |
| Migration.NewStatement | picotest_helpers/src/migration.rs:67-72 | a new statement keeps the text and has no modified text |
| Migration.IsLineComment | picotest_helpers/src/migration.rs:78-80 | a statement starting with `--` |
| Migration.IsPicoUp | picotest_helpers/src/migration.rs:82-84 | the statement is exactly `-- pico.UP` |
| Migration.IsPicoDown | picotest_helpers/src/migration.rs:86-88 | the statement is exactly `-- pico.DOWN` |
| Migration.PicoMarkersAreRangeMarkers | picotest_helpers/src/migration.rs:82-88 | an exact `-- pico.UP` or `-- pico.DOWN` line is a marker of its own kind, and only of that kind, for the range scan of lines 213-221, which also takes longer lines such as `-- pico.UPGRADE` |
| Migration.Components | picotest_helpers/src/migration.rs:146-147 | the normal components of a path: none empty, none `.`, none holding `/` |
| Migration.FileName | picotest_helpers/src/migration.rs:146-147 | `Path::file_name`: a non-empty last component that is neither `.` nor `..` |
| Migration.ParseMigrationFileName | picotest_helpers/src/migration.rs:142-165 | never panics; no file name is the first error; a success means the file name is `<version>_<name>.<ext>` where the version is a `u32` literal (an optional `+`, leading zeros allowed), the extension is `sql` in any case, the stem splits at its first `_`, and the version is that stem's `u32` value. The later errors, in their order, and the converse of success are the four lemmas below |
| Migration.ParseRejectsNoExtension | picotest_helpers/src/migration.rs:152-154 | second check: a file name without `.` gives `migration file does not have an extension` |
| Migration.ParseRejectsNotSql | picotest_helpers/src/migration.rs:155-157 | third check: an extension after the last `.` that is not `sql` in any case gives `migration file does not have sql extension` |
| Migration.ParseRejectsInvalidName | picotest_helpers/src/migration.rs:158-160 | fourth check: a `sql` file whose stem has no `_` gives `migration file has invalid name` |
| Migration.ParseVersionOrError | picotest_helpers/src/migration.rs:158-164 | for every `<version>_<name>.<ext>` with no `_` in the version and `sql` as extension in any case: `failed to parse migration version: <version>` when the version is no `u32`, and otherwise exactly `(version, name)`; with the ensures of ParseMigrationFileName this makes success an if-and-only-if |
| Migration.ParseAcceptsPaddedVersion | picotest_helpers/src/migration.rs:327-338 | any directory, leading zeros before the version and an extension `sql` in any case are accepted, as in `0001_first_migration.sql` and `/something/0002_second_migration.SQL` |
| Migration.FileNameOfPlain | picotest_helpers/src/migration.rs:146-147 | a name without `/` that is not empty, `.` or `..` is its own file name |
| Strings.ParseU32LeadingZeros | picotest_helpers/src/migration.rs:161 | `u32::from_str` ignores leading zeros |
| Migration.FileNameOfJoin | picotest_helpers/src/migration.rs:146-147 | the file name of `dir/f` is `f` |
| Migration.ParseMigrationFileNameRoundTrip | picotest_helpers/src/migration.rs:327-338 | `dir/<version>_<name>.sql` parses back to `(version, name)` for every `u32` version and every name without `/` |
| Migration.ParseMigrationText | picotest_helpers/src/migration.rs:167-203 | the loop with its accumulator returns the specified statements and never an error |
| Migration.StatementsWellFormed | picotest_helpers/src/migration.rs:175-202 | every statement is one non-empty line that is a `--` comment or ends in `;` |
| Migration.StepTrimmedText | picotest_helpers/src/migration.rs:175-200 | each trimmed line appends exactly its trimmed text to the statements and the unfinished one, with no separator |
| Migration.ParseLinesContent | picotest_helpers/src/migration.rs:175-202 | nothing is lost or reordered: the statements, then the unfinished one, spell out the trimmed non-blank lines with no separator |
| Migration.LastMarker | picotest_helpers/src/migration.rs:207-227 | the index of the last statement starting with the marker, or 0 when none does |
| Migration.ExtractUpDownRanges | picotest_helpers/src/migration.rs:207-227 | `up = (u, d)` and `down = (d, len)`, where `u` and `d` are the last UP and DOWN markers |
| Migration.Slice | picotest_helpers/src/migration.rs:51-58 | a range slices exactly when it is ordered and in bounds, and the slice is the part between |
| Migration.UpStatements | picotest_helpers/src/migration.rs:51-53 | defined exactly when `up_range` lies within the statements, and then the statements at those indices in order; otherwise a panic |
| Migration.DownStatements | picotest_helpers/src/migration.rs:55-57 | defined exactly when `down_range` lies within the statements, and then the statements at those indices in order; otherwise a panic |
| Migration.ParseMigrationFile | picotest_helpers/src/migration.rs:229-245 | a read error comes first, then a bad file name; a success carries the parsed version, name and statements, and ranges whose UP end is the DOWN start and whose DOWN end is the count |
| Migration.RangesPartition | picotest_helpers/src/migration.rs:51-58 | the DOWN part always slices; when UP comes first, the two parts split the statements after the UP marker |
| Migration.Insert | picotest_helpers/src/migration.rs:23-29 | inserting into a sorted list keeps it sorted and adds exactly one element |
| Migration.FromUnsorted | picotest_helpers/src/migration.rs:23-29 | the result is sorted by version and is a permutation of the input |
| Migration.FromUnsortedStable | picotest_helpers/src/migration.rs:23-29 | the sort is stable: migrations of one version keep their order |
| Migration.PatternOccurrencesDisjoint | picotest_helpers/src/migration.rs:102 | two matches of a pattern whose last character occurs nowhere else in it, such as `in tier @_plugin_config.`, never overlap |
| Migration.TierPatternLastCharUnique | picotest_helpers/src/migration.rs:102 | the only `.` of `in tier @_plugin_config.` is its last character |
| Migration.MatchesFrom | picotest_helpers/src/migration.rs:109-111 | every index found is a match |
| Migration.MatchesFromSpaced | picotest_helpers/src/migration.rs:109-111 | each match starts at least one pattern length after the previous one |
| Migration.MatchesFromComplete | picotest_helpers/src/migration.rs:109-111 | for a pattern that cannot overlap itself, every occurrence at or after the start is found |
| Migration.Identifier | picotest_helpers/src/migration.rs:92-100 | the longest prefix of ASCII letters, ASCII digits and `_` (Unicode alphanumerics are not modelled, see Left out) |
| Migration.ExtractTierVariables | picotest_helpers/src/migration.rs:90-116 | the identifiers after the case-insensitive matches of `in tier @_plugin_config.`; what they are is stated by TierVariablesFollowMatches and TierVariablesAreMatches |
| Migration.IdentifiersAfter | picotest_helpers/src/migration.rs:109-116 | one identifier per match, in order, each the one starting right after its match |
| Migration.VariablesFollowMatches | picotest_helpers/src/migration.rs:90-116 | for any non-empty pattern: one variable per case-insensitive match, in order, each the identifier after its match in the original-case text; the matches do not overlap |
| Migration.TierVariablesFollowMatches | picotest_helpers/src/migration.rs:90-116 | the same for `in tier @_plugin_config.` |
| Migration.VariablesAreMatches | picotest_helpers/src/migration.rs:90-116 | for a pattern that cannot overlap itself, every case-insensitive occurrence is a match and its variable is the identifier after it |
| Migration.TierVariablesAreMatches | picotest_helpers/src/migration.rs:90-116 | the same for `in tier @_plugin_config.`: every occurrence yields its variable |
| Migration.OverridesElements | picotest_helpers/src/migration.rs:297-314 | one override per name, in order, each set to the target tier |
| Migration.MakeDdlTierOverrides | picotest_helpers/src/migration.rs:297-314 | the nested loops push one override per variable of every statement of every migration, in order |
| Migration.GetMigrationContext | picotest_helpers/src/migration.rs:130-140 | the list provider returns its list whatever the plugin; the map provider returns the plugin's list or an empty one |
| Topology.SingleNode | picotest_helpers/src/topology.rs:53-77 | the source with a single `default` tier and every plugin collapsed onto it; SingleNodeShape states what that means |
| Topology.SingleNodeShape | picotest_helpers/src/topology.rs:53-77 | exactly one tier, `default`, with one replica set and replication factor 1; the plugin and service keys, the versions and the environment are kept; every service runs on `default` only; each plugin's context is the provider's answer |
| Topology.SingleNodeIdempotent | picotest_helpers/src/topology.rs:53-77 | transforming twice with the same provider is transforming once |
| Topology.DefaultProviderEmptyContext | picotest_helpers/src/topology.rs:35-41 | the default provider gives every plugin an empty context |
| Topology.SingleNodeTopologyTransformer.constructor | picotest_helpers/src/topology.rs:35-41 | the default provider is the empty list |
| Topology.SingleNodeTopologyTransformer.SetMigrationContextProvider | picotest_helpers/src/topology.rs:43-50 | the provider is replaced |
| Topology.SingleNodeTopologyTransformer.Transform | picotest_helpers/src/topology.rs:52-77 | the clear-and-insert rewrite of a copy returns the single-node topology; the source is a value and is not changed |
| Manifest.LexLeqTotal | picotest_helpers/src/lib.rs:238-252 | the key order of the plugin map is total |
| Manifest.LexLeqAntisymmetric | picotest_helpers/src/lib.rs:238-252 | two keys that are each at most the other are equal |
| Manifest.LexLeqTransitive | picotest_helpers/src/lib.rs:238-252 | the key order is transitive |
| Manifest.LeastKeyExists | picotest_helpers/src/lib.rs:238-252 | a non-empty key set has a least key |
| Manifest.FirstKey | picotest_helpers/src/lib.rs:238-252 | the first key in order is a key and at most every other key |
| Manifest.PluginManifestDir | picotest_helpers/src/lib.rs:238-252 | panics exactly when there is no plugin; otherwise `plugin_path/target/debug/<least plugin name>/<its version or 0.1.0>` |
| Manifest.PluginManifestPath | picotest_helpers/src/lib.rs:254-256 | defined exactly when the manifest directory is, and then that directory followed by `manifest.yaml`; ManifestAndBackupSideBySide states it beside the backup path |
| Manifest.PluginManifestBackupPath | picotest_helpers/src/lib.rs:258-260 | the backup path is the directory followed by `manifest.backup.yaml` |
| Manifest.ManifestAndBackupSideBySide | picotest_helpers/src/lib.rs:254-260 | both paths panic exactly when there is no plugin; otherwise they share the manifest directory and differ |
| Manifest.Lookup | picotest_helpers/src/lib.rs:391-418 | a YAML mapping lookup finds the first entry with the key, or reports that none has it |
| Manifest.PutGet | picotest_helpers/src/lib.rs:414-418 | writing through a present key changes that key's value and no other |
| Manifest.PutSame | picotest_helpers/src/lib.rs:414-418 | writing a key's own value back changes nothing |
| Manifest.ReplaceServiceEffect | picotest_helpers/src/lib.rs:399-418 | a service without `name` is an error; a name absent from the config leaves it unchanged; a present name without `default_configuration` is an error; otherwise `default_configuration` becomes the config value and every other key is kept |
| Manifest.RewriteAllLength | picotest_helpers/src/lib.rs:395-419 | the loop never changes the number of services |
| Manifest.RewriteAllSucceeds | picotest_helpers/src/lib.rs:395-419 | the loop succeeds exactly when every step does, and then every service is rewritten in place |
| Manifest.RewriteAllFails | picotest_helpers/src/lib.rs:395-419 | on failure, the error is the first failing service's; the services before it are already rewritten, and it and the ones after are as they were |
| Manifest.RewriteAllStops | picotest_helpers/src/lib.rs:395-419 | after an error, no further service is touched |
| Manifest.ReplaceAllOutcome | picotest_helpers/src/lib.rs:395-419 | the count and order of services are kept; the replacement succeeds exactly when every service's does, and then each service is replaced; on failure, the services before the first failure stay replaced |
| Manifest.ReplaceAllIgnoresOtherEntries | picotest_helpers/src/lib.rs:403-406 | config entries that name no service make no difference |
| Manifest.ReplaceServicesConfiguration | picotest_helpers/src/lib.rs:387-422 | a manifest without `services` is an error and unchanged; a non-sequence `services` panics; otherwise the outcome and the new list are those of the service loop, written back under `services`; ReplaceAllOutcome and ReplaceKeepsOtherKeys state the properties |
| Manifest.ReplaceKeepsOtherKeys | picotest_helpers/src/lib.rs:387-422 | the manifest's other keys are never touched, and `services` stays a sequence of the same length |
| Manifest.ManifestDocument.constructor | picotest_helpers/src/lib.rs:387-390 | the document holds the given tree |
| Manifest.ManifestDocument.ReplaceServicesConfigurationInPlace | picotest_helpers/src/lib.rs:387-422 | no `services` is an error and a non-sequence panics, both leaving the tree as it was; otherwise the in-place loop leaves the tree and outcome of the replacement |
| Manifest.ManifestDocument.RewriteServices | picotest_helpers/src/lib.rs:395-419 | the loop writing each rewritten service back through `get_mut` leaves `services` as the rewrite of the old list, and the outcome is the loop's outcome |
| Manifest.LoopAdvances | picotest_helpers/src/lib.rs:395-419 | a service whose rewrite succeeds is written back at its own index, and the loop's invariant holds one index further on |
| Manifest.LoopStops | picotest_helpers/src/lib.rs:395-419 | a service whose rewrite fails ends the loop with that error, with the services rewritten so far written back and the rest untouched |
| Macros.ProcessedTestFunction | picotest_macros/src/utils.rs:4-33 | the rewritten test function; ProcessedTestFunctionShape states its shape |
| Macros.ProcessedTestFunctionShape | picotest_macros/src/utils.rs:4-33 | the name, visibility and ABI are kept; a name without `test_` is returned unchanged; otherwise `rstest` comes first, then the old attributes, the cluster input comes first, then the old inputs, and the body is exactly `catch_unwind` of the old block followed by `resume_unwind` on error; taking the additions back off gives the original |
| Macros.ProcessTestFunction | picotest_macros/src/utils.rs:4-33 | the insert-at-0 and overwrite steps give the specified rewrite |
| Macros.PluginCfgOf | picotest_macros/src/lib.rs:9-24 | the path is kept, and the timeout defaults to 5 when not given |
| Macros.ProcessItems | picotest_macros/src/lib.rs:39-61 | every function item is rewritten and every other item is kept, in place and in order |
| Macros.Picotest | picotest_macros/src/lib.rs:28-68 | the expansion of `#[picotest]`: an argument error is returned, a function is rewritten, a module with content gets the two `use` items before its processed items, and anything else panics |
| Macros.PicotestOnModule | picotest_macros/src/lib.rs:39-61 | a module keeps its name and gets `use picotest::*;` and `use std::panic;` first, followed by its items, with each function rewritten and every other item kept |
| Macros.PicotestExpandsOnlyFnAndMod | picotest_macros/src/lib.rs:37-66 | `#[picotest]` expands exactly a function or a module with content; anything else panics |
| Macros.PicotestExpand | picotest_macros/src/lib.rs:28-68 | the expansion, with its content vector built by pushes and a loop, equals the specified rewrite, and an attribute error is returned as it is |
| Macros.FfiCallableNamesDistinct | picotest_macros/src/lib.rs:93-95 | `test_impl_<idx>_<name>` determines both the index and the name |
| Macros.UnitExpansionShape | picotest_macros/src/lib.rs:76-99 | the exported function keeps its inputs and body and is renamed `test_impl_<idx>_<name>`; the runner keeps the original name and calls the exported symbol |
| Macros.UnitCounter.constructor | picotest_macros/src/lib.rs:70 | the counter starts at 1 |
| Macros.UnitCounter.PicotestUnit | picotest_macros/src/lib.rs:72-137 | on a function, it uses the current index and bumps the counter; the function becomes `pub extern "C"` with exactly `allow(dead_code)` and `no_mangle`; anything else panics and leaves the counter unchanged |
| Macros.UnitExpansionsDistinct | picotest_macros/src/lib.rs:70-95 | expansions with different counter values export different symbols |
| TestHelpers.MatchCountPositive | picotest/tests/helpers.rs:152-163 | the count is positive exactly when some consumed line contains the pattern |
| TestHelpers.MatchCountGrows | picotest/tests/helpers.rs:137-164 | consuming more lines never lowers the count |
| TestHelpers.LineMatcher.constructor | picotest/tests/helpers.rs:143-148 | a new matcher keeps the pattern and starts with a count of 0 |
| TestHelpers.LineMatcher.HasMatched | picotest/tests/helpers.rs:152-154 | true exactly when some consumed line contained the pattern |
| TestHelpers.LineMatcher.ConsumeLine | picotest/tests/helpers.rs:158-163 | the count goes up by one exactly when the line contains the pattern; the `u32` add panics when the count is already at its maximum |
| TestHelpers.ModuleName | picotest/tests/helpers.rs:102-107 | the module name is a prefix of the file name, contains no `.rs`, and is the whole name or is followed by `.rs` |
| TestHelpers.ModuleNameOfSourceFile | picotest/tests/helpers.rs:102-107 | `<m>.rs` gives `m` back for every `m` without `.rs` in it |

## Left out

- Cluster lifecycle and admin-console I/O are parameters, not models. This covers
  `Cluster` start, stop and queries, `run_pike`, temporary directories,
  manifest backup and restore copies, and plugin configuration writes.
- `create_test_runner` (`picotest/src/runner/client.rs:89-106`) and
  `create_cluster` (`picotest/src/internal.rs:170-188`) are left out: they only
  start a cluster, and the runner they build is a parameter of the cache.
  `client.rs` calls `plugin_dylib_path` with two arguments, while
  `internal.rs:66` defines it with one; each file's own definition is modelled.
- `parse_migrations` and `find_migrations_directories` are left out: they list
  directories. The file system is not modelled beyond a set of existing paths.
- serde YAML and TOML parsing are left out. YAML values are a small datatype
  without tags, floats or numeric indexing.
- FFI and unsafe memory are left out: `fiber_id`, `Library::new`/`get`,
  `String::from_raw_parts`, `mem::forget`. The result buffer is an owned text.
  The Lua struct declares `size_t len, cap`, while Rust uses `u32`; that ABI
  question is outside the model.
- `catch_unwind` and unwinding themselves are left out. A test body's outcome
  is a value: it returns, or it panics with an event.
- Backtrace capture and the `RUST_BACKTRACE` lookup are left out. The backtrace
  is an optional byte string.
- UTF-8 validity is left out. The `String::from_utf8(..).unwrap()` after base64
  decoding is not modelled; payloads are byte strings.
- Concurrency is left out. `OnceLock`, `Mutex`, `thread_local!` and
  `AtomicUsize` are modelled as plain sequential state.
- The `println!` echo in `consume_line` and the decorative prints of the Lua
  chunks are left out, apart from the chunk text itself.
- Panic messages of `Result::expect(msg)` and `Result::unwrap()` keep their
  fixed text only: Rust appends `: ` and the error's Debug text, which the
  model leaves out. When each member panics is modelled exactly. The members
  concerned are the next five.
- Internal.PluginDylibFileName: the two `expect` messages omit the read error
  and the YAML error text.
- Internal.PluginRootDir: the `expect` message for a failed search omits the
  error text.
- Server.DecodeFields: the base64 `unwrap` message ends in the stand-in
  `invalid base64` instead of the decoder's error.
- Server.DecodeWithBase64: the same stand-in as Server.DecodeFields.
- Server.Registry.ExecuteUnit: the symbol-lookup `unwrap` message ends in the
  stand-in `symbol not found` instead of the loader's error.
- Client.Judge: a failed admin query panics with a message that embeds the
  query error; the model keeps only the fixed prefix `Failed to execute query`.
- Macros.UnitCounter.PicotestUnit: the counter is unbounded; the `usize`
  wrap-around of `UNIT_COUNTER` after 2^64 expansions is not modelled.
- The `quote!`-generated text of the `#[test]` runner and `darling` attribute
  parsing are left out. The runner is a record of its name, attributes and the
  symbol it calls, and an attribute parse error is an input.
- `process_test_function` takes the path as `&String` in
  `picotest_macros/src/utils.rs`, while `picotest_macros/src/lib.rs` holds an
  `Option<String>`. The model uses the optional path throughout.
- Migration.Identifier: `Strings.IsAlphanumeric` accepts ASCII letters and
  digits only, while `char::is_alphanumeric` also accepts Unicode letters and
  digits such as `é`; a variable name holding one is cut short there. The
  Unicode tables are not modelled.
- Migration.ParseMigrationFileName: paths are Dafny strings, so a file name is
  always valid text and the `migration file have non-utf8 name` error
  (`picotest_helpers/src/migration.rs:149-151`) is not modelled.
- `Strings.Lower` folds ASCII letters only; Rust's full Unicode lowercasing is
  not modelled.
- A plugin name containing `/` is one path component in the model, while
  `PathBuf::join` would split it.
- The cargo, process and file-copy plumbing of `picotest/tests/helpers.rs` is
  left out, apart from the module-name derivation and `LineMatcher`.
