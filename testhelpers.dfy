/** The pieces of the integration-test helpers (`picotest/tests/helpers.rs`)
    that are logic rather than process plumbing: the `LineMatcher` that
    watches a test's log for a line, and the module name given to a test
    source file copied into the test plugin. */
module TestHelpers {
  import opened Wrappers
  import opened Strings

  /** How many of `lines` contain `pattern`. */
  function MatchCount(lines: seq<string>, pattern: string): nat
    decreases |lines|
  {
    if lines == [] then 0
    else MatchCount(lines[..|lines| - 1], pattern) + (if Contains(lines[|lines| - 1], pattern) then 1 else 0)
  }

  /** Some line matched exactly when the count is positive. */
  lemma {:induction false} MatchCountPositive(lines: seq<string>, pattern: string)
    ensures MatchCount(lines, pattern) > 0 <==> exists k :: 0 <= k < |lines| && Contains(lines[k], pattern)
    decreases |lines|
  {
    if lines != [] {
      var init := lines[..|lines| - 1];
      MatchCountPositive(init, pattern);
      assert forall k :: 0 <= k < |init| ==> init[k] == lines[k];
    }
  }

  /** Consuming more lines never lowers the count. */
  lemma {:induction false} MatchCountGrows(lines: seq<string>, more: seq<string>, pattern: string)
    ensures MatchCount(lines, pattern) <= MatchCount(lines + more, pattern)
    decreases |more|
  {
    if more == [] {
      assert lines + more == lines;
    } else {
      var init := more[..|more| - 1];
      MatchCountGrows(lines, init, pattern);
      assert (lines + more)[..|lines + more| - 1] == lines + init;
    }
  }

  const U32Max: nat := 0xFFFF_FFFF
  const AddOverflow := "attempt to add with overflow"

  /** `LineMatcher`: the pattern and the `u32` count of the lines that
      contained it; `consumed` records the lines seen. */
  class LineMatcher {
    const line: string
    var matchCount: nat
    ghost var consumed: seq<string>

    ghost predicate Valid()
      reads this
    {
      matchCount == MatchCount(consumed, line) && matchCount <= U32Max
    }

    /** `new`: nothing consumed, nothing matched. */
    constructor(pattern: string)
      ensures Valid() && line == pattern && consumed == [] && matchCount == 0
    {
      line := pattern;
      matchCount := 0;
      consumed := [];
    }

    /** `has_matched`: some consumed line contained the pattern. */
    function HasMatched(): (r: bool)
      requires Valid()
      reads this
      ensures r <==> exists k :: 0 <= k < |consumed| && Contains(consumed[k], line)
    {
      MatchCountPositive(consumed, line);
      matchCount > 0
    }

    /** `consume_line`: the count goes up by one exactly when the line contains
        the pattern; a count already at the `u32` maximum overflows, which a
        debug build reports as a panic. */
    method ConsumeLine(text: string) returns (r: Result<()>)
      requires Valid()
      modifies this
      ensures Valid()
      ensures r.Err? ==> false
      ensures r.Panic? <==> Contains(text, line) && old(matchCount) == U32Max
      ensures r.Panic? ==> r.reason == AddOverflow && matchCount == old(matchCount) && consumed == old(consumed)
      ensures r.Ok? ==>
        (consumed == old(consumed) + [text]
         && matchCount == old(matchCount) + (if Contains(text, line) then 1 else 0))
    {
      if Contains(text, line) {
        if matchCount == U32Max {
          return Panic(AddOverflow);
        }
        matchCount := matchCount + 1;
      }
      consumed := consumed + [text];
      assert (consumed)[..|consumed| - 1] == old(consumed);
      return Ok(());
    }
  }

  /** The module name `add_source_file_to_plugin` gives a source file: the
      file name up to its first `.rs`. */
  function ModuleName(fileName: string): (r: string)
    ensures StartsWith(fileName, r)
    ensures !Contains(r, ".rs")
    ensures r == fileName || StartsWith(fileName[|r|..], ".rs")
  {
    match Find(fileName, ".rs")
    case None => fileName
    case Some(i) =>
      var r := fileName[..i];
      forall j | OccursAt(r, ".rs", j)
        ensures OccursAt(fileName, ".rs", j)
      {
        assert r[j..j + 3] == fileName[j..j + 3];
      }
      assert fileName[i..][..3] == ".rs";
      r
  }

  /** In `m` followed by `.rs`, with no `.rs` inside `m`, no occurrence of
      `.rs` starts within `m`. */
  lemma SuffixNotEarlier(m: string, j: nat)
    requires !Contains(m, ".rs") && j < |m|
    ensures !OccursAt(m + ".rs", ".rs", j)
  {
    var s := m + ".rs";
    if j + 3 <= |m| {
      assert s[j..j + 3] == m[j..j + 3];
      assert !OccursAt(m, ".rs", j);
    } else if j == |m| - 1 {
      assert s[j + 1] == '.';
      assert s[j..j + 3][1] == s[j + 1];
    } else {
      assert s[j + 2] == '.';
      assert s[j..j + 3][2] == s[j + 2];
    }
  }

  /** `<m>.rs` gives back `m` for every `m` without `.rs` in it. */
  lemma ModuleNameOfSourceFile(m: string)
    requires !Contains(m, ".rs")
    ensures ModuleName(m + ".rs") == m
  {
    var s := m + ".rs";
    assert s[|m|..|m| + 3] == ".rs";
    assert OccursAt(s, ".rs", |m|);
    forall j | 0 <= j < |m|
      ensures !OccursAt(s, ".rs", j)
    {
      SuffixNotEarlier(m, j);
    }
    assert Find(s, ".rs") == Some(|m|);
    assert s[..|m|] == m;
  }
}
