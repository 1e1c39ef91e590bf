/** Plugin migrations (`picotest_helpers/src/migration.rs`): file-name parsing,
    splitting SQL text into statements, the `-- pico.UP` / `-- pico.DOWN` ranges,
    ordering by version, and the `in tier @_plugin_config.<name>` variables that
    become tier overrides in the migration context. */
module Migration {
  import opened Wrappers
  import opened Strings

  /** `MigrationStatement`: the statement text and an optional rewritten text,
      which nothing in this file sets. */
  datatype MigrationStatement = MigrationStatement(originalText: string, modifiedText: Option<string>)

  function NewStatement(text: string): (s: MigrationStatement)
    ensures s.originalText == text && s.modifiedText.None?
  {
    MigrationStatement(text, None)
  }

  predicate IsLineComment(s: MigrationStatement) {
    StartsWith(s.originalText, "--")
  }

  predicate IsPicoUp(s: MigrationStatement) {
    s.originalText == "-- pico.UP"
  }

  predicate IsPicoDown(s: MigrationStatement) {
    s.originalText == "-- pico.DOWN"
  }

  /** `Migration`: a version (`u32`), a name, its statements and the index
      ranges `[a, b)` of its UP and DOWN parts. */
  datatype Migration = Migration(
    version: nat,
    name: string,
    statements: seq<MigrationStatement>,
    upRange: (nat, nat),
    downRange: (nat, nat))

  /** `pike::cluster::MigrationContextVar`. */
  datatype ContextVar = ContextVar(name: string, value: string)

  // ---------------------------------------------------------------------------
  // File names.

  /** The normal components of a `/`-separated path: empty pieces and `.` are
      not components of their own. */
  function Components(path: string): (r: seq<string>)
    ensures forall k :: 0 <= k < |r| ==> r[k] != "" && r[k] != "." && '/' !in r[k]
  {
    NormalPieces(Split(path, '/'))
  }

  function NormalPieces(pieces: seq<string>): (r: seq<string>)
    requires forall k :: 0 <= k < |pieces| ==> '/' !in pieces[k]
    ensures forall k :: 0 <= k < |r| ==> r[k] != "" && r[k] != "." && '/' !in r[k]
  {
    if pieces == [] then []
    else
      var rest := NormalPieces(pieces[..|pieces| - 1]);
      var last := pieces[|pieces| - 1];
      if last == "" || last == "." then rest else rest + [last]
  }

  /** Rust `Path::file_name`: the last component, or `None` when there is none
      or the path ends in `..`. */
  function FileName(path: string): (r: Option<string>)
    ensures r.Some? ==> r.value != "" && r.value != "." && r.value != ".." && '/' !in r.value
  {
    var c := Components(path);
    if c == [] || c[|c| - 1] == ".." then None else Some(c[|c| - 1])
  }

  const NoFileName := "migration file does not have file name"
  const NoExtension := "migration file does not have an extension"
  const NotSql := "migration file does not have sql extension"
  const InvalidName := "migration file has invalid name"
  const BadVersion := "failed to parse migration version: "

  /** `parse_migration_file_name`: `NNNN_name.sql` gives the version and the
      name. The checks run in a fixed order, each with its own message: a file
      name, an extension after the last `.`, the extension `sql` in any case, a
      `_` in the stem, a `u32` before the first `_`. */
  function ParseMigrationFileName(path: string): (r: Result<(nat, string)>)
    ensures r.Panic? ==> false
    ensures FileName(path).None? ==> r == Err(NoFileName)
    ensures r.Ok? ==>
      exists version, ext ::
        ('_' !in version && '.' !in ext && Lower(ext) == "sql"
         && ParseU32(version) == Some(r.value.0)
         && FileName(path) == Some(version + "_" + r.value.1 + "." + ext))
  {
    match FileName(path)
    case None => Err(NoFileName)
    case Some(fileName) =>
      match RSplitOnce(fileName, '.')
      case None => Err(NoExtension)
      case Some((name, ext)) =>
        if Lower(ext) != "sql" then Err(NotSql)
        else match SplitOnce(name, '_')
          case None => Err(InvalidName)
          case Some((version, migrationName)) =>
            match ParseU32(version)
            case None => Err(BadVersion + version)
            case Some(v) =>
              assert fileName == version + "_" + migrationName + "." + ext;
              Ok((v, migrationName))
  }

  /** The canonical file name of a migration. */
  function MigrationFileName(version: nat, name: string): string {
    NatToString(version) + "_" + name + ".sql"
  }

  /** The file name of `dir/f` is `f`. */
  lemma FileNameOfJoin(dir: string, f: string)
    requires '/' !in f && f != "" && f != "." && f != ".."
    ensures FileName(dir + "/" + f) == Some(f)
  {
    SplitAppend(dir, f, '/');
    var pieces := Split(dir, '/') + [f];
    assert pieces[..|pieces| - 1] == Split(dir, '/');
  }

  /** Parsing the canonical file name gives back the version and the name. */
  lemma ParseMigrationFileNameRoundTrip(dir: string, version: nat, name: string)
    requires version < U32Limit && '/' !in name
    ensures ParseMigrationFileName(dir + "/" + MigrationFileName(version, name)) == Ok((version, name))
  {
    var digits := NatToString(version);
    var f := MigrationFileName(version, name);
    assert '/' !in digits by {
      assert forall k :: 0 <= k < |digits| ==> IsDigit(digits[k]);
    }
    FileNameOfJoin(dir, f);
    assert f == "" + digits + "_" + name + "." + "sql";
    LowerNoUpper("sql");
    ParseAcceptsPaddedVersion(dir + "/" + f, "", version, name, "sql");
  }

  /** Second check: a file name without `.` has no extension. */
  lemma ParseRejectsNoExtension(path: string)
    requires FileName(path).Some? && '.' !in FileName(path).value
    ensures ParseMigrationFileName(path) == Err(NoExtension)
  {
  }

  /** Third check: the extension after the last `.` must be `sql` in any case. */
  lemma ParseRejectsNotSql(path: string, stem: string, ext: string)
    requires FileName(path) == Some(stem + "." + ext) && '.' !in ext && Lower(ext) != "sql"
    ensures ParseMigrationFileName(path) == Err(NotSql)
  {
    RSplitOnceAt(stem, ext, '.');
  }

  /** Fourth check: the stem must hold a `_`. */
  lemma ParseRejectsInvalidName(path: string, stem: string, ext: string)
    requires FileName(path) == Some(stem + "." + ext) && '.' !in ext && Lower(ext) == "sql"
    requires '_' !in stem
    ensures ParseMigrationFileName(path) == Err(InvalidName)
  {
    RSplitOnceAt(stem, ext, '.');
  }

  /** Last check: once the shape `<version>_<name>.<sql>` is there, the result
      is the `u32` before the first `_` with the rest of the stem as the name,
      or the version error naming that text. */
  lemma ParseVersionOrError(path: string, version: string, name: string, ext: string)
    requires FileName(path) == Some(version + "_" + name + "." + ext)
    requires '_' !in version && '.' !in ext && Lower(ext) == "sql"
    ensures ParseU32(version).None? ==> ParseMigrationFileName(path) == Err(BadVersion + version)
    ensures ParseU32(version).Some? ==> ParseMigrationFileName(path) == Ok((ParseU32(version).value, name))
  {
    var stem := version + "_" + name;
    assert version + "_" + name + "." + ext == stem + "." + ext;
    RSplitOnceAt(stem, ext, '.');
    SplitOnceAt(version, name, '_');
  }

  /** A name without `/` is its own file name. */
  lemma FileNameOfPlain(f: string)
    requires '/' !in f && f != "" && f != "." && f != ".."
    ensures FileName(f) == Some(f)
  {
    assert Split(f, '/') == [f];
    assert [f][..0] == [];
  }

  /** Any directory, leading zeros in the version and an extension `sql` in
      any case are accepted. */
  lemma ParseAcceptsPaddedVersion(path: string, zeros: string, version: nat, name: string, ext: string)
    requires FileName(path) == Some(zeros + NatToString(version) + "_" + name + "." + ext)
    requires AllZeros(zeros) && version < U32Limit && '.' !in ext && Lower(ext) == "sql"
    ensures ParseMigrationFileName(path) == Ok((version, name))
  {
    var digits := zeros + NatToString(version);
    assert '_' !in digits by {
      ParseU32LeadingZeros(zeros, version);
      assert AllDigits(digits);
    }
    ParseU32LeadingZeros(zeros, version);
    ParseVersionOrError(path, digits, name, ext);
  }

  /** Splitting `a + [c] + b` at its last `c` gives `a` and `b` when `b` has no `c`. */
  lemma RSplitOnceAt(a: string, b: string, c: char)
    requires c !in b
    ensures RSplitOnce(a + [c] + b, c) == Some((a, b))
  {
    var s := a + [c] + b;
    assert s[|a|] == c;
    var i := LastIndexOf(s, c).value;
    assert s[|a| + 1..] == b;
    assert forall k :: |a| < k < |s| ==> s[k] == b[k - |a| - 1];
    assert i == |a|;
    assert s[..i] == a;
  }

  // ---------------------------------------------------------------------------
  // Statements.

  /** The loop state of `parse_migration_text`: statements so far and the
      statement being built. */
  datatype ParseState = ParseState(output: seq<MigrationStatement>, acc: Option<string>)

  /** One line of SQL text, as the loop body handles it. */
  function StepLine(st: ParseState, line: string): ParseState {
    StepTrimmed(st, Trim(line))
  }

  /** The loop body once the line is trimmed. */
  function StepTrimmed(st: ParseState, l: string): ParseState {
    if l == "" then st
    else if StartsWith(l, "--") && st.acc.None? then ParseState(st.output + [NewStatement(l)], None)
    else
      var acc := if st.acc.Some? then st.acc.value + l else l;
      if !EndsWith(l, ";") then ParseState(st.output, Some(acc))
      else ParseState(st.output + [NewStatement(acc)], None)
  }

  function ParseLines(lines: seq<string>): ParseState {
    if lines == [] then ParseState([], None)
    else StepLine(ParseLines(lines[..|lines| - 1]), lines[|lines| - 1])
  }

  /** The statements `parse_migration_text` returns for `text`. */
  function ParseText(text: string): seq<MigrationStatement> {
    ParseLines(Lines(text)).output
  }

  /** `parse_migration_text`: each trimmed non-blank line either is a comment
      statement of its own (when no statement is being built) or is appended to
      the statement being built, which closes at a line ending in `;`. */
  method ParseMigrationText(text: string) returns (r: Result<seq<MigrationStatement>>)
    ensures r == Ok(ParseText(text))
  {
    var lines := Lines(text);
    var output: seq<MigrationStatement> := [];
    var acc: Option<string> := None;
    var i := 0;
    while i < |lines|
      invariant 0 <= i <= |lines|
      invariant ParseState(output, acc) == ParseLines(lines[..i])
    {
      assert lines[..i + 1][..i] == lines[..i];
      var line := Trim(lines[i]);
      assert ParseLines(lines[..i + 1]) == StepTrimmed(ParseState(output, acc), line);
      i := i + 1;
      if line == "" {
        continue;
      }
      if StartsWith(line, "--") {
        if acc.None? {
          output := output + [NewStatement(line)];
          continue;
        }
      }
      if acc.Some? {
        acc := Some(acc.value + line);
      } else {
        acc := Some(line);
      }
      if !EndsWith(line, ";") {
        continue;
      }
      var accString := acc.value;
      acc := None;
      output := output + [NewStatement(accString)];
    }
    assert lines[..|lines|] == lines;
    return Ok(output);
  }

  /** A statement as the parser produces it: one line, and either a comment
      or closed by `;`. */
  predicate WellFormed(s: MigrationStatement) {
    s.modifiedText.None? && s.originalText != "" && '\n' !in s.originalText
    && (StartsWith(s.originalText, "--") || EndsWith(s.originalText, ";"))
  }

  lemma TrimmedLineHasNoNewline(line: string)
    requires '\n' !in line
    ensures '\n' !in Trim(line)
  {
    var i :| OccursAt(line, Trim(line), i);
    NotInOccurrence(line, Trim(line), i, '\n');
  }

  predicate StateWellFormed(st: ParseState) {
    (forall k :: 0 <= k < |st.output| ==> WellFormed(st.output[k]))
    && (st.acc.Some? ==> st.acc.value != "" && '\n' !in st.acc.value)
  }

  lemma WellFormedSnoc(output: seq<MigrationStatement>, s: MigrationStatement)
    requires (forall k :: 0 <= k < |output| ==> WellFormed(output[k])) && WellFormed(s)
    ensures forall k :: 0 <= k < |output + [s]| ==> WellFormed((output + [s])[k])
  {
  }

  lemma NoNewlineAppend(a: string, b: string)
    requires '\n' !in a && '\n' !in b
    ensures '\n' !in a + b
  {
  }

  lemma EndsWithAppend(a: string, b: string, suffix: string)
    requires EndsWith(b, suffix)
    ensures EndsWith(a + b, suffix)
  {
    assert (a + b)[|a + b| - |suffix|..] == b[|b| - |suffix|..];
  }

  lemma StepTrimmedWellFormed(st: ParseState, l: string)
    requires StateWellFormed(st) && '\n' !in l
    ensures StateWellFormed(StepTrimmed(st, l))
  {
    if l != "" && !(StartsWith(l, "--") && st.acc.None?) {
      var before := st.acc.GetOr("");
      var acc := before + l;
      assert acc == if st.acc.Some? then st.acc.value + l else l;
      NoNewlineAppend(before, l);
      if EndsWith(l, ";") {
        EndsWithAppend(before, l, ";");
        WellFormedSnoc(st.output, NewStatement(acc));
        assert StepTrimmed(st, l) == ParseState(st.output + [NewStatement(acc)], None);
      } else {
        assert StepTrimmed(st, l) == ParseState(st.output, Some(acc));
      }
    } else if l != "" {
      WellFormedSnoc(st.output, NewStatement(l));
      assert StepTrimmed(st, l) == ParseState(st.output + [NewStatement(l)], None);
    }
  }

  lemma StepLineWellFormed(st: ParseState, line: string)
    requires StateWellFormed(st) && '\n' !in line
    ensures StateWellFormed(StepLine(st, line))
  {
    TrimmedLineHasNoNewline(line);
    StepTrimmedWellFormed(st, Trim(line));
  }

  lemma {:induction false} ParseLinesWellFormed(lines: seq<string>)
    requires forall k :: 0 <= k < |lines| ==> '\n' !in lines[k]
    ensures StateWellFormed(ParseLines(lines))
  {
    if lines != [] {
      ParseLinesWellFormed(lines[..|lines| - 1]);
      StepLineWellFormed(ParseLines(lines[..|lines| - 1]), lines[|lines| - 1]);
    }
  }

  /** Every statement is one line and is a comment or ends with `;`. */
  lemma StatementsWellFormed(text: string)
    ensures forall k :: 0 <= k < |ParseText(text)| ==> WellFormed(ParseText(text)[k])
  {
    ParseLinesWellFormed(Lines(text));
  }

  function Texts(ss: seq<MigrationStatement>): (r: seq<string>)
    ensures |r| == |ss| && forall k :: 0 <= k < |ss| ==> r[k] == ss[k].originalText
  {
    if ss == [] then [] else Texts(ss[..|ss| - 1]) + [ss[|ss| - 1].originalText]
  }

  /** The trimmed non-blank lines. */
  function NonBlank(lines: seq<string>): seq<string> {
    if lines == [] then []
    else
      var l := Trim(lines[|lines| - 1]);
      NonBlank(lines[..|lines| - 1]) + (if l == "" then [] else [l])
  }

  /** The text of a state: its statements, then the unfinished one. */
  function StateText(st: ParseState): string {
    Concat(Texts(st.output)) + st.acc.GetOr("")
  }

  lemma ConcatSnoc(parts: seq<string>, x: string)
    ensures Concat(parts + [x]) == Concat(parts) + x
  {
    assert (parts + [x])[..|parts|] == parts;
  }

  /** Closing a statement with text `text` appends `text` to the statements' text. */
  lemma AppendStatementText(output: seq<MigrationStatement>, text: string)
    ensures Concat(Texts(output + [NewStatement(text)])) == Concat(Texts(output)) + text
  {
    assert (output + [NewStatement(text)])[..|output|] == output;
    assert Texts(output + [NewStatement(text)]) == Texts(output) + [text];
    ConcatSnoc(Texts(output), text);
  }

  lemma StepTrimmedText(st: ParseState, l: string)
    ensures StateText(StepTrimmed(st, l)) == StateText(st) + l
  {
    var prefix := Concat(Texts(st.output));
    var before := st.acc.GetOr("");
    assert StateText(st) == prefix + before;
    if l == "" {
      assert StepTrimmed(st, l) == st;
      assert prefix + before + l == prefix + before;
    } else if StartsWith(l, "--") && st.acc.None? {
      AppendStatementText(st.output, l);
      assert StepTrimmed(st, l) == ParseState(st.output + [NewStatement(l)], None);
      assert prefix + before == prefix;
    } else {
      var acc := before + l;
      assert acc == if st.acc.Some? then st.acc.value + l else l;
      AppendAssociative(prefix, before, l);
      if EndsWith(l, ";") {
        AppendStatementText(st.output, acc);
        assert StepTrimmed(st, l) == ParseState(st.output + [NewStatement(acc)], None);
        assert StateText(StepTrimmed(st, l)) == prefix + acc + "";
      } else {
        assert StepTrimmed(st, l) == ParseState(st.output, Some(acc));
      }
    }
  }

  /** Nothing is lost or reordered: the statements followed by the unfinished
      one spell out the trimmed non-blank lines with no separator. */
  lemma {:induction false} ParseLinesContent(lines: seq<string>)
    ensures StateText(ParseLines(lines)) == Concat(NonBlank(lines))
  {
    if lines != [] {
      var init := lines[..|lines| - 1];
      ParseLinesContent(init);
      StepTrimmedText(ParseLines(init), Trim(lines[|lines| - 1]));
      var l := Trim(lines[|lines| - 1]);
      if l != "" {
        ConcatSnoc(NonBlank(init), l);
      } else {
        assert NonBlank(lines) == NonBlank(init);
      }
    }
  }

  // ---------------------------------------------------------------------------
  // UP and DOWN ranges.

  predicate HasMarker(s: MigrationStatement, marker: string) {
    IsLineComment(s) && StartsWith(s.originalText, marker)
  }

  /** The index of the last statement starting with `marker`, or 0. */
  function LastMarker(ss: seq<MigrationStatement>, marker: string): (r: nat)
    ensures r == 0 || (r < |ss| && HasMarker(ss[r], marker))
    ensures forall j :: r < j < |ss| ==> !HasMarker(ss[j], marker)
    ensures r < |ss| || r == 0
    ensures (exists j :: 0 <= j < |ss| && HasMarker(ss[j], marker)) ==> r < |ss| && HasMarker(ss[r], marker)
  {
    if ss == [] then 0
    else if HasMarker(ss[|ss| - 1], marker) then |ss| - 1
    else LastMarker(ss[..|ss| - 1], marker)
  }

  const UpMarker := "-- pico.UP"
  const DownMarker := "-- pico.DOWN"

  /** The exact lines `is_pico_up` and `is_pico_down` recognise are markers for
      the range scan, each of its own kind only; the scan, which tests
      `starts_with`, also takes longer lines such as `-- pico.UPGRADE`. */
  lemma PicoMarkersAreRangeMarkers(s: MigrationStatement)
    ensures IsPicoUp(s) ==> HasMarker(s, UpMarker) && !HasMarker(s, DownMarker)
    ensures IsPicoDown(s) ==> HasMarker(s, DownMarker) && !HasMarker(s, UpMarker)
    ensures HasMarker(MigrationStatement("-- pico.UPGRADE", None), UpMarker)
      && !IsPicoUp(MigrationStatement("-- pico.UPGRADE", None))
  {
    if IsPicoUp(s) {
      assert s.originalText[..2] == "--";
      assert s.originalText[..|UpMarker|] == UpMarker;
      assert s.originalText[9] != DownMarker[9];
    }
    if IsPicoDown(s) {
      assert s.originalText[..2] == "--";
      assert s.originalText[..|DownMarker|] == DownMarker;
      assert s.originalText[9] != UpMarker[9];
    }
    var g := "-- pico.UPGRADE";
    assert g[..2] == "--";
    assert g[..|UpMarker|] == UpMarker;
    assert g != UpMarker;
  }

  /** `extract_up_down_ranges`. */
  method ExtractUpDownRanges(statements: seq<MigrationStatement>) returns (r: Result<((nat, nat), (nat, nat))>)
    ensures r.Ok?
    ensures r.value == ((LastMarker(statements, UpMarker), LastMarker(statements, DownMarker)),
                        (LastMarker(statements, DownMarker), |statements|))
  {
    var upRangeStart := 0;
    var downRangeStart := 0;
    var endRange := |statements|;
    var idx := 0;
    while idx < |statements|
      invariant 0 <= idx <= |statements|
      invariant upRangeStart == LastMarker(statements[..idx], UpMarker)
      invariant downRangeStart == LastMarker(statements[..idx], DownMarker)
    {
      assert statements[..idx + 1][..idx] == statements[..idx];
      var statement := statements[idx];
      if IsLineComment(statement) {
        if StartsWith(statement.originalText, UpMarker) {
          upRangeStart := idx;
        }
        if StartsWith(statement.originalText, DownMarker) {
          downRangeStart := idx;
        }
      }
      idx := idx + 1;
    }
    assert statements[..|statements|] == statements;
    return Ok(((upRangeStart, downRangeStart), (downRangeStart, endRange)));
  }

  /** Slicing `&statements[a..b]`: a panic when the range is not within bounds. */
  function Slice(ss: seq<MigrationStatement>, range: (nat, nat)): (r: Result<seq<MigrationStatement>>)
    ensures r.Err? ==> false
    ensures r.Ok? <==> range.0 <= range.1 <= |ss|
    ensures r.Ok? ==> ss == ss[..range.0] + r.value + ss[range.1..]
  {
    if range.0 <= range.1 <= |ss| then
      assert ss == ss[..range.0] + ss[range.0..range.1] + ss[range.1..];
      Ok(ss[range.0..range.1])
    else Panic("slice index out of range")
  }

  /** `up_statements`: the statements in `[up_range.0, up_range.1)`. */
  function UpStatements(m: Migration): (r: Result<seq<MigrationStatement>>)
    ensures r.Ok? <==> m.upRange.0 <= m.upRange.1 <= |m.statements|
    ensures r.Ok? ==> |r.value| == m.upRange.1 - m.upRange.0
    ensures r.Ok? ==> forall k :: 0 <= k < |r.value| ==> r.value[k] == m.statements[m.upRange.0 + k]
  {
    Slice(m.statements, m.upRange)
  }

  /** `down_statements`: the statements in `[down_range.0, down_range.1)`. */
  function DownStatements(m: Migration): (r: Result<seq<MigrationStatement>>)
    ensures r.Ok? <==> m.downRange.0 <= m.downRange.1 <= |m.statements|
    ensures r.Ok? ==> |r.value| == m.downRange.1 - m.downRange.0
    ensures r.Ok? ==> forall k :: 0 <= k < |r.value| ==> r.value[k] == m.statements[m.downRange.0 + k]
  {
    Slice(m.statements, m.downRange)
  }

  /** `parse_migration_file`, given what reading the file returned: a read error
      comes first, then a bad file name. */
  function ParseMigrationFile(path: string, content: Result<string>): (r: Result<Migration>)
    ensures r.Panic? <==> content.Panic?
    ensures content.Err? ==> r == Err(content.message)
    ensures content.Ok? && ParseMigrationFileName(path).Err? ==> r == Err(ParseMigrationFileName(path).message)
    ensures r.Ok? ==> ParseMigrationFileName(path) == Ok((r.value.version, r.value.name))
    ensures r.Ok? ==> content.Ok? && r.value.statements == ParseText(content.value)
    ensures r.Ok? ==> RangesShape(r.value)
  {
    match content
    case Err(e) => Err(e)
    case Panic(p) => Panic(p)
    case Ok(text) =>
      match ParseMigrationFileName(path)
      case Ok((version, name)) =>
        var statements := ParseText(text);
        var d := LastMarker(statements, DownMarker);
        Ok(Migration(version, name, statements, (LastMarker(statements, UpMarker), d), (d, |statements|)))
      case Err(m) => Err(m)
      case Panic(m) => Panic(m)
  }

  /** The ranges of a parsed migration. */
  predicate RangesShape(m: Migration) {
    m.upRange.1 == m.downRange.0 <= m.downRange.1 == |m.statements|
  }

  /** The DOWN part always slices, and when the UP marker comes before the DOWN
      marker the two parts split the statements after the UP marker between them. */
  lemma RangesPartition(m: Migration)
    requires RangesShape(m)
    ensures DownStatements(m).Ok?
    ensures m.upRange.0 <= m.upRange.1 ==>
      UpStatements(m).Ok? && m.statements[m.upRange.0..] == UpStatements(m).value + DownStatements(m).value
  {
    if m.upRange.0 <= m.upRange.1 {
      assert m.statements[m.upRange.0..] == m.statements[m.upRange.0..m.upRange.1] + m.statements[m.upRange.1..];
    }
  }

  // ---------------------------------------------------------------------------
  // Ordering.

  predicate SortedByVersion(ms: seq<Migration>) {
    forall i, j :: 0 <= i < j < |ms| ==> ms[i].version <= ms[j].version
  }

  /** Every migration in `ms` has version at most `v`. */
  predicate AllAtMost(ms: seq<Migration>, v: nat) {
    forall k :: 0 <= k < |ms| ==> ms[k].version <= v
  }

  lemma AllAtMostOfMultiset(a: seq<Migration>, b: seq<Migration>, v: nat)
    requires multiset(a) == multiset(b) && AllAtMost(b, v)
    ensures AllAtMost(a, v)
  {
    forall k | 0 <= k < |a|
      ensures a[k].version <= v
    {
      assert a[k] in multiset(b);
      var j :| 0 <= j < |b| && b[j] == a[k];
    }
  }

  lemma SortedSnoc(ms: seq<Migration>, x: Migration)
    requires SortedByVersion(ms) && AllAtMost(ms, x.version)
    ensures SortedByVersion(ms + [x])
  {
  }

  lemma SortedInit(ms: seq<Migration>)
    requires SortedByVersion(ms) && ms != []
    ensures SortedByVersion(ms[..|ms| - 1]) && AllAtMost(ms[..|ms| - 1], ms[|ms| - 1].version)
  {
  }

  /** `m` placed after every element whose version is not greater. */
  function Insert(sorted: seq<Migration>, m: Migration): (r: seq<Migration>)
    requires SortedByVersion(sorted)
    ensures SortedByVersion(r) && multiset(r) == multiset(sorted) + multiset{m}
  {
    if sorted == [] then [m]
    else
      var last := sorted[|sorted| - 1];
      if last.version <= m.version then
        SortedSnoc(sorted, m);
        sorted + [m]
      else
        var init := sorted[..|sorted| - 1];
        assert sorted == init + [last];
        SortedInit(sorted);
        var inserted := Insert(init, m);
        AllAtMostOfMultiset(inserted, init + [m], last.version);
        SortedSnoc(inserted, last);
        inserted + [last]
  }

  /** `Migrations::from_unsorted`: the migrations in nondecreasing version order. */
  function FromUnsorted(ms: seq<Migration>): (r: seq<Migration>)
    ensures SortedByVersion(r) && multiset(r) == multiset(ms)
  {
    if ms == [] then []
    else
      assert ms == ms[..|ms| - 1] + [ms[|ms| - 1]];
      Insert(FromUnsorted(ms[..|ms| - 1]), ms[|ms| - 1])
  }

  /** The migrations of one version, in order. */
  function WithVersion(ms: seq<Migration>, v: nat): seq<Migration> {
    if ms == [] then []
    else WithVersion(ms[..|ms| - 1], v) + (if ms[|ms| - 1].version == v then [ms[|ms| - 1]] else [])
  }

  lemma WithVersionSnoc(ms: seq<Migration>, x: Migration, v: nat)
    ensures WithVersion(ms + [x], v) == WithVersion(ms, v) + (if x.version == v then [x] else [])
  {
    assert (ms + [x])[..|ms|] == ms;
  }

  lemma {:induction false} InsertStable(sorted: seq<Migration>, m: Migration, v: nat)
    requires SortedByVersion(sorted)
    ensures WithVersion(Insert(sorted, m), v) == WithVersion(sorted, v) + (if m.version == v then [m] else [])
  {
    if sorted != [] {
      var last := sorted[|sorted| - 1];
      var init := sorted[..|sorted| - 1];
      assert sorted == init + [last];
      WithVersionSnoc(init, last, v);
      if last.version <= m.version {
        WithVersionSnoc(sorted, m, v);
      } else {
        SortedInit(sorted);
        InsertStable(init, m, v);
        WithVersionSnoc(Insert(init, m), last, v);
      }
    }
  }

  /** The sort is stable: the migrations of each version keep their order. */
  lemma {:induction false} FromUnsortedStable(ms: seq<Migration>, v: nat)
    ensures WithVersion(FromUnsorted(ms), v) == WithVersion(ms, v)
  {
    if ms != [] {
      FromUnsortedStable(ms[..|ms| - 1], v);
      InsertStable(FromUnsorted(ms[..|ms| - 1]), ms[|ms| - 1], v);
    }
  }

  // ---------------------------------------------------------------------------
  // Tier variables.

  const TierPattern := "in tier @_plugin_config."

  /** The last character of `p` occurs nowhere else in it. */
  predicate LastCharUnique(p: string) {
    p != [] && forall k :: 0 <= k < |p| - 1 ==> p[k] != p[|p| - 1]
  }

  /** The pattern's only `.` is its last character. */
  lemma TierPatternLastCharUnique()
    ensures LastCharUnique(TierPattern)
  {
  }

  /** A pattern whose last character is unique cannot overlap itself. */
  lemma PatternOccurrencesDisjoint(t: string, p: string, i: nat, j: nat)
    requires LastCharUnique(p)
    requires OccursAt(t, p, i) && OccursAt(t, p, j) && i < j
    ensures i + |p| <= j
  {
    var q := i + |p| - 1;
    assert t[q] == t[i..i + |p|][|p| - 1];
    forall r | j <= r < j + |p| - 1
      ensures t[r] != p[|p| - 1]
    {
      assert t[r] == t[j..j + |p|][r - j];
    }
  }

  /** `match_indices`: the occurrences of `p` at or after `k`, in order. */
  function MatchesFrom(t: string, p: string, k: nat): (r: seq<nat>)
    requires p != []
    ensures forall j :: 0 <= j < |r| ==> k <= r[j] && OccursAt(t, p, r[j])
    decreases |t| - k
  {
    match FindFrom(t, p, k)
    case None => []
    case Some(i) => [i] + MatchesFrom(t, p, i + |p|)
  }

  /** Each element is at least `n` past the one before it. */
  predicate Spaced(r: seq<nat>, n: nat) {
    forall j :: 0 <= j < |r| - 1 ==> r[j] + n <= r[j + 1]
  }

  lemma SpacedCons(i: nat, rest: seq<nat>, n: nat)
    requires Spaced(rest, n) && forall j :: 0 <= j < |rest| ==> i + n <= rest[j]
    ensures Spaced([i] + rest, n)
  {
    var r := [i] + rest;
    forall j | 0 <= j < |r| - 1
      ensures r[j] + n <= r[j + 1]
    {
      assert r[j + 1] == rest[j];
      if j > 0 {
        assert r[j] == rest[j - 1];
      }
    }
  }

  /** The matches come in increasing order without overlapping. */
  lemma {:induction false} MatchesFromSpaced(t: string, p: string, k: nat)
    requires p != []
    ensures Spaced(MatchesFrom(t, p, k), |p|)
    decreases |t| - k
  {
    match FindFrom(t, p, k)
    case None =>
    case Some(i) =>
      var rest := MatchesFrom(t, p, i + |p|);
      MatchesFromSpaced(t, p, i + |p|);
      SpacedCons(i, rest, |p|);
      assert MatchesFrom(t, p, k) == [i] + rest;
  }

  /** No match is missed, when the pattern cannot overlap itself. */
  lemma {:induction false} MatchesFromComplete(t: string, p: string, k: nat)
    requires LastCharUnique(p)
    ensures forall i :: k <= i && OccursAt(t, p, i) ==> i in MatchesFrom(t, p, k)
    decreases |t| - k
  {
    match FindFrom(t, p, k)
    case None =>
    case Some(i) =>
      var rest := MatchesFrom(t, p, i + |p|);
      assert MatchesFrom(t, p, k) == [i] + rest;
      MatchesFromComplete(t, p, i + |p|);
      forall i' | k <= i' && OccursAt(t, p, i')
        ensures i' in [i] + rest
      {
        if i' != i {
          PatternOccurrencesDisjoint(t, p, i, i');
          assert i' in rest;
        }
      }
  }

  predicate IsIdentifierChar(c: char) {
    IsAlphanumeric(c) || c == '_'
  }

  /** The longest prefix of `s` made of identifier characters. */
  function Identifier(s: string): (r: string)
    ensures |r| <= |s| && r == s[..|r|]
    ensures forall k :: 0 <= k < |r| ==> IsIdentifierChar(r[k])
    ensures |r| == |s| || !IsIdentifierChar(s[|r|])
  {
    if s == [] || !IsIdentifierChar(s[0]) then []
    else [s[0]] + Identifier(s[1..])
  }

  /** Where the pattern occurs in the statement, ignoring case. */
  function TierMatches(s: MigrationStatement): seq<nat> {
    MatchesFrom(Lower(s.originalText), TierPattern, 0)
  }

  /** `extract_tier_variables`: for each case-insensitive match, in order, the
      identifier that follows it in the original text. */
  function ExtractTierVariables(s: MigrationStatement): seq<string> {
    VariablesAfterMatches(s.originalText, TierPattern)
  }

  /** For each match of `p` in the lower-cased `text`, in order, the identifier
      that follows it in `text` itself. */
  function VariablesAfterMatches(text: string, p: string): seq<string>
    requires p != []
  {
    IdentifiersAfter(text, MatchesFrom(Lower(text), p, 0), |p|)
  }

  /** The identifier `n` characters after each match, in order. */
  function IdentifiersAfter(text: string, m: seq<nat>, n: nat): (r: seq<string>)
    requires forall j :: 0 <= j < |m| ==> m[j] + n <= |text|
    ensures |r| == |m| && forall j :: 0 <= j < |m| ==> r[j] == Identifier(text[m[j] + n..])
  {
    seq(|m|, j requires 0 <= j < |m| => Identifier(text[m[j] + n..]))
  }

  /** `r` holds, for each match in `m` of `p` in the lower-cased `text`, the
      identifier that follows it in `text` itself; the matches come in order
      and do not overlap. */
  predicate VariablesFollow(text: string, p: string, m: seq<nat>, r: seq<string>) {
    |r| == |m|
    && (forall j :: 0 <= j < |m| ==> OccursAt(Lower(text), p, m[j]) && r[j] == Identifier(text[m[j] + |p|..]))
    && Spaced(m, |p|)
  }

  /** The occurrence at `i` of `p` in the lower-cased `text` is one of the
      matches `m`, and wherever it stands in `m` its variable in `r` is the
      identifier after it. */
  predicate VariableAt(text: string, p: string, m: seq<nat>, r: seq<string>, i: nat) {
    i + |p| <= |text| && i in m
    && forall j :: 0 <= j < |m| && m[j] == i ==> j < |r| && r[j] == Identifier(text[i + |p|..])
  }

  lemma IdentifiersFollow(text: string, p: string, m: seq<nat>)
    requires forall j :: 0 <= j < |m| ==> OccursAt(Lower(text), p, m[j])
    requires forall j :: 0 <= j < |m| ==> m[j] + |p| <= |text|
    requires Spaced(m, |p|)
    ensures VariablesFollow(text, p, m, IdentifiersAfter(text, m, |p|))
  {
  }

  /** Occurrences in the lower-cased text leave room for the pattern in the text. */
  lemma OccurrencesFit(text: string, p: string, m: seq<nat>)
    requires forall j :: 0 <= j < |m| ==> OccursAt(Lower(text), p, m[j])
    ensures forall j :: 0 <= j < |m| ==> m[j] + |p| <= |text|
  {
    var t := Lower(text);
    assert |t| == |text|;
    forall j | 0 <= j < |m|
      ensures m[j] + |p| <= |text|
    {
      assert OccursAt(t, p, m[j]);
    }
  }

  /** Each variable is the longest identifier right after a case-insensitive
      occurrence of `p`, in the order of the occurrences, which do not overlap. */
  lemma VariablesFollowMatches(text: string, p: string)
    requires p != []
    ensures VariablesFollow(text, p, MatchesFrom(Lower(text), p, 0), VariablesAfterMatches(text, p))
  {
    MatchesFromSpaced(Lower(text), p, 0);
    OccurrencesFit(text, p, MatchesFrom(Lower(text), p, 0));
    IdentifiersFollow(text, p, MatchesFrom(Lower(text), p, 0));
  }

  lemma TierVariablesFollowMatches(s: MigrationStatement)
    ensures VariablesFollow(s.originalText, TierPattern, TierMatches(s), ExtractTierVariables(s))
  {
    VariablesFollowMatches(s.originalText, TierPattern);
  }

  /** With `m` holding every occurrence, each occurrence has its variable. */
  lemma OccurrenceHasVariable(text: string, p: string, m: seq<nat>, i: nat)
    requires forall j :: 0 <= j < |m| ==> m[j] + |p| <= |text|
    requires i in m && i + |p| <= |text|
    ensures VariableAt(text, p, m, IdentifiersAfter(text, m, |p|), i)
  {
  }

  /** Every case-insensitive occurrence of a pattern that cannot overlap itself
      yields a variable. */
  lemma VariablesAreMatches(text: string, p: string, i: nat)
    requires LastCharUnique(p) && OccursAt(Lower(text), p, i)
    ensures VariableAt(text, p, MatchesFrom(Lower(text), p, 0), VariablesAfterMatches(text, p), i)
  {
    MatchesFromComplete(Lower(text), p, 0);
    OccurrencesFit(text, p, MatchesFrom(Lower(text), p, 0));
    OccurrencesFit(text, p, [i]);
    OccurrenceHasVariable(text, p, MatchesFrom(Lower(text), p, 0), i);
  }

  lemma TierVariablesAreMatches(s: MigrationStatement, i: nat)
    requires OccursAt(Lower(s.originalText), TierPattern, i)
    ensures VariableAt(s.originalText, TierPattern, TierMatches(s), ExtractTierVariables(s), i)
  {
    TierPatternLastCharUnique();
    VariablesAreMatches(s.originalText, TierPattern, i);
  }

  // ---------------------------------------------------------------------------
  // Tier overrides.

  function StatementVars(ss: seq<MigrationStatement>): seq<string> {
    if ss == [] then [] else StatementVars(ss[..|ss| - 1]) + ExtractTierVariables(ss[|ss| - 1])
  }

  /** Every variable name of every statement of every migration, in order. */
  function MigrationsVars(ms: seq<Migration>): seq<string> {
    if ms == [] then [] else MigrationsVars(ms[..|ms| - 1]) + StatementVars(ms[|ms| - 1].statements)
  }

  /** One override per name, each set to `tier`. */
  function Overrides(names: seq<string>, tier: string): seq<ContextVar> {
    if names == [] then [] else Overrides(names[..|names| - 1], tier) + [ContextVar(names[|names| - 1], tier)]
  }

  lemma {:induction false} OverridesElements(names: seq<string>, tier: string)
    ensures |Overrides(names, tier)| == |names|
    ensures forall q :: 0 <= q < |names| ==> Overrides(names, tier)[q] == ContextVar(names[q], tier)
  {
    if names != [] {
      OverridesElements(names[..|names| - 1], tier);
    }
  }

  lemma StatementVarsStep(ss: seq<MigrationStatement>, j: nat)
    requires j < |ss|
    ensures StatementVars(ss[..j + 1]) == StatementVars(ss[..j]) + ExtractTierVariables(ss[j])
  {
    assert ss[..j + 1][..j] == ss[..j];
  }

  lemma MigrationsVarsStep(ms: seq<Migration>, i: nat)
    requires i < |ms|
    ensures MigrationsVars(ms[..i + 1]) == MigrationsVars(ms[..i]) + StatementVars(ms[i].statements)
  {
    assert ms[..i + 1][..i] == ms[..i];
  }

  lemma TakeStep<T>(xs: seq<T>, k: nat)
    requires k < |xs|
    ensures xs[..k + 1] == xs[..k] + [xs[k]]
  {
  }

  lemma TakeAll<T>(xs: seq<T>)
    ensures xs[..|xs|] == xs
  {
  }

  lemma AppendAssoc<T>(a: seq<T>, b: seq<T>, c: seq<T>)
    ensures (a + b) + c == a + (b + c)
  {
  }

  lemma OverridesStep(names: seq<string>, x: string, tier: string)
    ensures Overrides(names + [x], tier) == Overrides(names, tier) + [ContextVar(x, tier)]
  {
    assert (names + [x])[..|names|] == names;
  }

  /** `make_ddl_tier_overrides`: one variable per extracted name, in order of
      migrations, statements and matches, each set to `targetTier`. */
  method MakeDdlTierOverrides(migrations: seq<Migration>, targetTier: string) returns (output: seq<ContextVar>)
    ensures output == Overrides(MigrationsVars(migrations), targetTier)
  {
    output := [];
    ghost var names: seq<string> := [];
    var i := 0;
    while i < |migrations|
      invariant 0 <= i <= |migrations|
      invariant names == MigrationsVars(migrations[..i])
      invariant output == Overrides(names, targetTier)
    {
      var statements := migrations[i].statements;
      ghost var before := names;
      var j := 0;
      while j < |statements|
        invariant 0 <= j <= |statements|
        invariant names == before + StatementVars(statements[..j])
        invariant output == Overrides(names, targetTier)
      {
        var ctxVarNames := ExtractTierVariables(statements[j]);
        ghost var start := names;
        var k := 0;
        while k < |ctxVarNames|
          invariant 0 <= k <= |ctxVarNames|
          invariant names == start + ctxVarNames[..k]
          invariant output == Overrides(names, targetTier)
        {
          OverridesStep(names, ctxVarNames[k], targetTier);
          TakeStep(ctxVarNames, k);
          AppendAssoc(start, ctxVarNames[..k], [ctxVarNames[k]]);
          output := output + [ContextVar(ctxVarNames[k], targetTier)];
          names := names + [ctxVarNames[k]];
          k := k + 1;
        }
        StatementVarsStep(statements, j);
        TakeAll(ctxVarNames);
        AppendAssoc(before, StatementVars(statements[..j]), ctxVarNames);
        j := j + 1;
      }
      MigrationsVarsStep(migrations, i);
      TakeAll(statements);
      i := i + 1;
    }
    assert migrations[..i] == migrations;
  }

  // ---------------------------------------------------------------------------
  // Migration context providers.

  /** The two `MigrationContextProvider` implementations: a list given to every
      plugin, and a map from plugin name to its list. */
  datatype ContextProvider = VecProvider(vars: seq<ContextVar>) | MapProvider(byPlugin: map<string, seq<ContextVar>>)

  function GetMigrationContext(p: ContextProvider, pluginName: string): (r: seq<ContextVar>)
    ensures p.VecProvider? ==> r == p.vars
    ensures p.MapProvider? && pluginName in p.byPlugin ==> r == p.byPlugin[pluginName]
    ensures p.MapProvider? && pluginName !in p.byPlugin ==> r == []
  {
    match p
    case VecProvider(vars) => vars
    case MapProvider(m) => if pluginName in m then m[pluginName] else []
  }
}
