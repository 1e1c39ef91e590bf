/** The handful of Rust `str` operations the core relies on (`starts_with`,
    `contains`, `split_once`, `rsplit_once`, `split`, `lines`, `trim`,
    `to_lowercase`, `u32::from_str` and decimal `Display`), each stated by what it
    returns rather than by how Rust computes it. */
module Strings {
  import opened Wrappers

  predicate StartsWith(s: string, prefix: string) {
    |prefix| <= |s| && s[..|prefix|] == prefix
  }

  predicate EndsWith(s: string, suffix: string) {
    |suffix| <= |s| && s[|s| - |suffix|..] == suffix
  }

  /** `p` occurs in `s` starting at index `i`. */
  predicate OccursAt(s: string, p: string, i: int) {
    0 <= i && i + |p| <= |s| && s[i..i + |p|] == p
  }

  /** First occurrence of `p` in `s` at or after `k` (Rust `str::find` from `k`). */
  function FindFrom(s: string, p: string, k: nat): (r: Option<nat>)
    ensures r.Some? ==> k <= r.value && OccursAt(s, p, r.value)
    ensures r.Some? ==> forall j :: k <= j < r.value ==> !OccursAt(s, p, j)
    ensures r.None? ==> forall j :: k <= j ==> !OccursAt(s, p, j)
    decreases |s| - k
  {
    if k + |p| > |s| then None
    else if s[k..k + |p|] == p then Some(k)
    else FindFrom(s, p, k + 1)
  }

  /** First occurrence of `p` in `s`. */
  function Find(s: string, p: string): (r: Option<nat>)
    ensures r.Some? ==> OccursAt(s, p, r.value) && forall j :: 0 <= j < r.value ==> !OccursAt(s, p, j)
    ensures r.None? ==> forall j :: !OccursAt(s, p, j)
  {
    FindFrom(s, p, 0)
  }

  /** Rust `str::contains` with a string pattern. */
  function Contains(s: string, p: string): (r: bool)
    ensures r <==> exists i :: OccursAt(s, p, i)
  {
    Find(s, p).Some?
  }

  lemma ContainsMiddle(a: string, p: string, b: string)
    ensures Contains(a + p + b, p)
  {
    assert (a + p + b)[|a|..|a| + |p|] == p;
    assert OccursAt(a + p + b, p, |a|);
  }

  /** Index of the first `c` in `s`. */
  function IndexOf(s: string, c: char): (r: Option<nat>)
    ensures r.Some? ==> r.value < |s| && s[r.value] == c && c !in s[..r.value]
    ensures r.None? ==> c !in s
  {
    if |s| == 0 then None
    else if s[0] == c then Some(0)
    else match IndexOf(s[1..], c)
      case None => None
      case Some(i) =>
        assert s[..i + 1] == [s[0]] + s[1..][..i];
        Some(i + 1)
  }

  /** Index of the last `c` in `s`. */
  function LastIndexOf(s: string, c: char): (r: Option<nat>)
    ensures r.Some? ==> r.value < |s| && s[r.value] == c && c !in s[r.value + 1..]
    ensures r.None? ==> c !in s
  {
    if |s| == 0 then None
    else if s[|s| - 1] == c then Some(|s| - 1)
    else match LastIndexOf(s[..|s| - 1], c)
      case None => None
      case Some(i) =>
        assert s[i + 1..] == s[..|s| - 1][i + 1..] + [s[|s| - 1]];
        Some(i)
  }

  /** Rust `str::split_once` with a character: the text before and after the first `c`. */
  function SplitOnce(s: string, c: char): (r: Option<(string, string)>)
    ensures r.Some? ==> s == r.value.0 + [c] + r.value.1 && c !in r.value.0
    ensures r.None? <==> c !in s
  {
    match IndexOf(s, c)
    case None => None
    case Some(i) =>
      assert s == s[..i] + [c] + s[i + 1..];
      Some((s[..i], s[i + 1..]))
  }

  /** Rust `str::rsplit_once` with a character: the text before and after the last `c`. */
  function RSplitOnce(s: string, c: char): (r: Option<(string, string)>)
    ensures r.Some? ==> s == r.value.0 + [c] + r.value.1 && c !in r.value.1
    ensures r.None? <==> c !in s
  {
    match LastIndexOf(s, c)
    case None => None
    case Some(i) =>
      assert s == s[..i] + [c] + s[i + 1..];
      Some((s[..i], s[i + 1..]))
  }

  /** Rust `str::split` with a character: every piece, empty ones included. */
  function Split(s: string, c: char): (r: seq<string>)
    ensures |r| >= 1
    ensures forall k :: 0 <= k < |r| ==> c !in r[k]
    decreases |s|
  {
    match SplitOnce(s, c)
    case None => [s]
    case Some((before, after)) => [before] + Split(after, c)
  }

  /** The inverse of `Split`: the pieces glued back together with `c`. */
  function Join(parts: seq<string>, c: char): string
  {
    if |parts| == 0 then ""
    else if |parts| == 1 then parts[0]
    else parts[0] + [c] + Join(parts[1..], c)
  }

  lemma {:induction false} JoinSplit(s: string, c: char)
    ensures Join(Split(s, c), c) == s
    decreases |s|
  {
    match SplitOnce(s, c)
    case None =>
    case Some((before, after)) =>
      JoinSplit(after, c);
      assert Split(s, c)[1..] == Split(after, c);
  }

  /** Splitting `a + [c] + b` at its first `c` gives back `a` and `b` when `a` has no `c`. */
  lemma SplitOnceAt(a: string, b: string, c: char)
    requires c !in a
    ensures SplitOnce(a + [c] + b, c) == Some((a, b))
  {
    var s := a + [c] + b;
    assert s[|a|] == c;
    assert s[..|a|] == a;
    var i := IndexOf(s, c).value;
    assert i == |a|;
    assert s[i + 1..] == b;
  }

  lemma {:induction false} SplitJoin(parts: seq<string>, c: char)
    requires |parts| >= 1
    requires forall k :: 0 <= k < |parts| ==> c !in parts[k]
    ensures Split(Join(parts, c), c) == parts
    decreases |parts|
  {
    if |parts| > 1 {
      SplitOnceAt(parts[0], Join(parts[1..], c), c);
      SplitJoin(parts[1..], c);
    }
  }

  /** Appending a piece after one more separator appends it to the split. */
  lemma {:induction false} SplitAppend(a: string, b: string, c: char)
    requires c !in b
    ensures Split(a + [c] + b, c) == Split(a, c) + [b]
    decreases |a|
  {
    var s := a + [c] + b;
    match SplitOnce(a, c)
    case None =>
      SplitOnceAt(a, b, c);
      assert Split(b, c) == [b];
      assert Split(a, c) == [a];
      assert Split(s, c) == [a] + Split(b, c);
    case Some((a1, a2)) =>
      assert s == a1 + [c] + (a2 + [c] + b);
      SplitOnceAt(a1, a2 + [c] + b, c);
      SplitAppend(a2, b, c);
      assert Split(s, c) == [a1] + Split(a2 + [c] + b, c);
      assert Split(a, c) == [a1] + Split(a2, c);
      AppendAssociative([a1], Split(a2, c), [b]);
  }

  /** Rust `str::lines`: pieces ending at `\n` (one `\r` before it is dropped too);
      no final empty line is produced for a trailing `\n`. */
  function Lines(s: string): (r: seq<string>)
    ensures forall k :: 0 <= k < |r| ==> '\n' !in r[k]
    decreases |s|
  {
    if s == [] then []
    else match SplitOnce(s, '\n')
      case None => [s]
      case Some((line, rest)) =>
        var stripped := if EndsWith(line, "\r") then line[..|line| - 1] else line;
        [stripped] + Lines(rest)
  }

  /** Rust `char::is_whitespace`: the Unicode `White_Space` property. */
  predicate IsWhitespace(c: char) {
    ('\U{0009}' <= c <= '\U{000D}') || c == ' ' || c == '\U{0085}' || c == '\U{00A0}'
    || c == '\U{1680}' || ('\U{2000}' <= c <= '\U{200A}') || c == '\U{2028}' || c == '\U{2029}'
    || c == '\U{202F}' || c == '\U{205F}' || c == '\U{3000}'
  }

  function TrimStart(s: string): (r: string)
    ensures |r| <= |s| && r == s[|s| - |r|..]
    ensures r == [] || !IsWhitespace(r[0])
    ensures forall k :: 0 <= k < |s| - |r| ==> IsWhitespace(s[k])
  {
    if |s| > 0 && IsWhitespace(s[0]) then TrimStart(s[1..]) else s
  }

  function TrimEnd(s: string): (r: string)
    ensures |r| <= |s| && r == s[..|r|]
    ensures r == [] || !IsWhitespace(r[|r| - 1])
    ensures forall k :: |r| <= k < |s| ==> IsWhitespace(s[k])
  {
    if |s| > 0 && IsWhitespace(s[|s| - 1]) then TrimEnd(s[..|s| - 1]) else s
  }

  /** Rust `str::trim`. */
  function Trim(s: string): (r: string)
    ensures r == [] || (!IsWhitespace(r[0]) && !IsWhitespace(r[|r| - 1]))
    ensures exists i :: OccursAt(s, r, i)
  {
    var t := TrimStart(s);
    var r := TrimEnd(t);
    assert OccursAt(s, r, |s| - |t|);
    r
  }

  /** A character absent from `s` is absent from any piece of it. */
  lemma NotInOccurrence(s: string, p: string, i: int, c: char)
    requires OccursAt(s, p, i) && c !in s
    ensures c !in p
  {
    assert forall k :: 0 <= k < |p| ==> p[k] == s[i + k];
  }

  /** Rust `char::to_lowercase` restricted to ASCII letters. */
  function LowerChar(c: char): char {
    if 'A' <= c <= 'Z' then (c as int + 32) as char else c
  }

  function Lower(s: string): (r: string)
    ensures |r| == |s| && forall k :: 0 <= k < |s| ==> r[k] == LowerChar(s[k])
  {
    seq(|s|, k requires 0 <= k < |s| => LowerChar(s[k]))
  }

  /** Text without upper-case ASCII letters is its own lower case. */
  lemma LowerNoUpper(s: string)
    requires forall k :: 0 <= k < |s| ==> !('A' <= s[k] <= 'Z')
    ensures Lower(s) == s
  {
  }

  /** Rust `char::is_alphanumeric` restricted to ASCII. */
  predicate IsAlphanumeric(c: char) {
    ('a' <= c <= 'z') || ('A' <= c <= 'Z') || ('0' <= c <= '9')
  }

  predicate IsDigit(c: char) {
    '0' <= c <= '9'
  }

  predicate AllDigits(s: string) {
    forall k :: 0 <= k < |s| ==> IsDigit(s[k])
  }

  function DigitChar(d: nat): char
    requires d < 10
  {
    ('0' as int + d) as char
  }

  /** Rust's decimal `Display` for an unsigned integer. */
  function NatToString(n: nat): (r: string)
    ensures |r| >= 1 && AllDigits(r)
    ensures r[0] == '0' ==> n == 0
  {
    if n < 10 then [DigitChar(n)] else NatToString(n / 10) + [DigitChar(n % 10)]
  }

  /** The value of a string of decimal digits. */
  function DigitsValue(s: string): nat
    requires AllDigits(s)
  {
    if s == [] then 0 else DigitsValue(s[..|s| - 1]) * 10 + (s[|s| - 1] as int - '0' as int)
  }

  lemma {:induction false} DigitsValueOfNatToString(n: nat)
    ensures DigitsValue(NatToString(n)) == n
  {
    if n >= 10 {
      DigitsValueOfNatToString(n / 10);
      var s := NatToString(n);
      assert s[..|s| - 1] == NatToString(n / 10);
    }
  }

  predicate AllZeros(z: string) {
    forall k :: 0 <= k < |z| ==> z[k] == '0'
  }

  /** Leading zeros do not change the value of a digit string. */
  lemma {:induction false} DigitsValueLeadingZeros(z: string, s: string)
    requires AllZeros(z) && AllDigits(s)
    ensures AllDigits(z + s) && DigitsValue(z + s) == DigitsValue(s)
    decreases |s|
  {
    assert AllDigits(z + s) by {
      forall k | 0 <= k < |z + s|
        ensures IsDigit((z + s)[k])
      {
        if k < |z| {
          assert (z + s)[k] == z[k];
        } else {
          assert (z + s)[k] == s[k - |z|];
        }
      }
    }
    if s == [] {
      assert z + s == z;
      ZerosValue(z);
    } else {
      var init := s[..|s| - 1];
      DigitsValueLeadingZeros(z, init);
      assert (z + s)[..|z + s| - 1] == z + init;
      assert (z + s)[|z + s| - 1] == s[|s| - 1];
    }
  }

  lemma {:induction false} ZerosValue(z: string)
    requires AllZeros(z)
    ensures AllDigits(z) && DigitsValue(z) == 0
    decreases |z|
  {
    if z != [] {
      ZerosValue(z[..|z| - 1]);
    }
  }

  lemma NatToStringInjective(a: nat, b: nat)
    requires NatToString(a) == NatToString(b)
    ensures a == b
  {
    DigitsValueOfNatToString(a);
    DigitsValueOfNatToString(b);
  }

  const U32Limit: nat := 0x1_0000_0000

  /** Rust `u32::from_str`: an optional `+`, at least one decimal digit, a value
      that fits in 32 bits; leading zeros are accepted. */
  function ParseU32(s: string): (r: Option<nat>)
    ensures r.Some? ==> r.value < U32Limit
    ensures r.Some? <==>
      (var digits := if StartsWith(s, "+") then s[1..] else s;
       |digits| >= 1 && AllDigits(digits) && DigitsValue(digits) < U32Limit)
  {
    var digits := if StartsWith(s, "+") then s[1..] else s;
    if |digits| >= 1 && AllDigits(digits) && DigitsValue(digits) < U32Limit
    then Some(DigitsValue(digits))
    else None
  }

  lemma ParseU32OfNatToString(n: nat)
    requires n < U32Limit
    ensures ParseU32(NatToString(n)) == Some(n)
  {
    DigitsValueOfNatToString(n);
  }

  /** Leading zeros are accepted and ignored: `0001` reads as 1. */
  lemma ParseU32LeadingZeros(z: string, n: nat)
    requires AllZeros(z) && n < U32Limit
    ensures ParseU32(z + NatToString(n)) == Some(n)
  {
    var s := z + NatToString(n);
    DigitsValueLeadingZeros(z, NatToString(n));
    DigitsValueOfNatToString(n);
    assert s[0] != '+' by {
      if |z| > 0 {
        assert s[0] == z[0];
      } else {
        assert s[0] == NatToString(n)[0];
      }
    }
  }

  /** Every occurrence of `from` replaced by `to` (Rust `str::replace` with one-char patterns). */
  function ReplaceChar(s: string, from: char, to: char): (r: string)
    ensures |r| == |s|
    ensures forall k :: 0 <= k < |s| ==> r[k] == (if s[k] == from then to else s[k])
  {
    seq(|s|, k requires 0 <= k < |s| => if s[k] == from then to else s[k])
  }

  /** Regrouping concatenations, stated once for any element type so that the
      solver need not rediscover it among concrete texts. */
  lemma AppendAssociative<T>(a: seq<T>, b: seq<T>, c: seq<T>)
    ensures a + (b + c) == (a + b) + c
  {
  }

  lemma AppendRegroup<T>(a: seq<T>, b: seq<T>, c: seq<T>, d: seq<T>)
    ensures a + b + c + d == a + (b + c + d)
  {
  }

  lemma TakeDrop<T>(s: seq<T>, n: nat)
    requires n <= |s|
    ensures s[..n] + s[n..] == s
  {
  }

  lemma TakeOfTake<T>(s: seq<T>, n: nat)
    requires n < |s|
    ensures s[..n + 1][..n] == s[..n]
  {
  }

  lemma EndsWithAppended(a: string, b: string)
    ensures EndsWith(a + b, b)
  {
    assert (a + b)[|a + b| - |b|..] == b;
  }

  /** The concatenation of a sequence of strings. */
  function Concat(parts: seq<string>): string
  {
    if parts == [] then "" else Concat(parts[..|parts| - 1]) + parts[|parts| - 1]
  }
}
