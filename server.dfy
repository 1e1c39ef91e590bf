/** The server side of a remote unit test (`picotest/src/runner/server.rs`): the
    one-line base64 record of a panic, the supervision registry kept by the panic
    hook and `fiber_catch_unwind`, and the `PicounitResult` record handed back
    through the C ABI.

    Text that the source keeps in a Rust `String` and pushes through base64 is
    modelled by its UTF-8 bytes; the encoded record itself is ASCII and is a
    `string`. */
module Server {
  import opened Wrappers
  import opened Strings
  import Base64

  type byte = Base64.byte

  /** The UTF-8 bytes of a text whose characters are all below 256 (ASCII in
      practice: the literals and decimal numbers the source formats). */
  function AsciiBytes(s: string): (r: seq<byte>)
    requires forall k :: 0 <= k < |s| ==> s[k] as int < 256
    ensures |r| == |s| && forall k :: 0 <= k < |s| ==> r[k] == s[k] as int
  {
    seq(|s|, k requires 0 <= k < |s| => s[k] as int)
  }

  function DigitBytes(n: nat): (r: seq<byte>)
    ensures |r| >= 1 && forall k :: 0 <= k < |r| ==> '0' as int <= r[k] <= '9' as int
  {
    AsciiBytes(NatToString(n))
  }

  const NewlineByte: byte := '\n' as int
  const ColonByte: byte := ':' as int

  /** `PicotestPanicLocation`: file, line and column of a panic. */
  datatype PanicLocation = PanicLocation(file: seq<byte>, line: nat, col: nat)

  /** The `"file:line:col"` text the encoder puts in the `location` field. */
  function LocationText(loc: PanicLocation): (r: seq<byte>)
    ensures |r| >= |loc.file| + 4 && r[..|loc.file|] == loc.file && r[|loc.file|] == ColonByte
  {
    loc.file + [ColonByte] + DigitBytes(loc.line) + [ColonByte] + DigitBytes(loc.col)
  }

  /** `PicotestPanicInfo`. The backtrace is its formatted text when one was
      captured (`BacktraceStatus::Captured`) and `None` otherwise. */
  datatype PanicInfo = PanicInfo(payload: seq<byte>, backtrace: Option<seq<byte>>, location: Option<PanicLocation>)

  /** What the decoder hands back: payload, location text, backtrace text. */
  datatype Decoded = Decoded(payload: seq<byte>, location: Option<seq<byte>>, backtrace: Option<seq<byte>>)

  const UnwrapNone := "called `Option::unwrap()` on a `None` value"
  const UnwrapErr := "called `Result::unwrap()` on an `Err` value: invalid base64"
  const SymbolNotFound := "called `Result::unwrap()` on an `Err` value: symbol not found"
  const MissingHandler := "install_hook must extract original handler"
  const PayloadTag := "payload:"
  const LocationTag := "location:"
  const BacktraceTag := "backtrace:"

  predicate EndsWithNewline(b: seq<byte>) {
    |b| >= 1 && b[|b| - 1] == NewlineByte
  }

  /** A field of the record as it appears after the `;` that precedes it:
      its tag, the base64 of its value and the `;` that follows. */
  function Field(tag: string, value: seq<byte>): (r: string)
    ensures StartsWith(r, tag) && |r| > |tag| && r[|r| - 1] == ';'
    ensures '\n' !in tag ==> '\n' !in r
  {
    Base64.EncodedHasNo(value, '\n');
    tag + Base64.Encode(value) + ";"
  }

  /** The optional location and backtrace fields of the record for `info`. */
  function LocationPart(info: PanicInfo): (r: string)
    ensures '\n' !in r
  {
    if info.location.Some? then Field(LocationTag, LocationText(info.location.value)) else ""
  }

  function BacktracePart(info: PanicInfo): (r: string)
    requires info.backtrace.Some? ==> EndsWithNewline(info.backtrace.value)
    ensures '\n' !in r
  {
    if info.backtrace.Some? then Field(BacktraceTag, info.backtrace.value[..|info.backtrace.value| - 1]) else ""
  }

  /** The record `encode_with_base64` produces: `payload:` and the payload's
      base64, then a location field when there is a location, then a backtrace
      field (its text without the one trailing newline) when a backtrace was
      captured, every value closed by `;`. A captured backtrace that does not end
      in a newline makes `strip_suffix("\n").unwrap()` panic. */
  function Encoding(info: PanicInfo): (r: Result<string>)
    ensures r.Panic? <==> info.backtrace.Some? && !EndsWithNewline(info.backtrace.value)
    ensures r.Err? ==> false
  {
    if info.backtrace.Some? && !EndsWithNewline(info.backtrace.value) then Panic(UnwrapNone)
    else Ok(PayloadTag + Base64.Encode(info.payload) + ";" + LocationPart(info) + BacktracePart(info))
  }

  /** The record is one line that starts with `payload:` and ends with `;`. */
  lemma EncodingShape(info: PanicInfo)
    requires Encoding(info).Ok?
    ensures StartsWith(Encoding(info).value, PayloadTag)
    ensures Encoding(info).value[|Encoding(info).value| - 1] == ';'
    ensures '\n' !in Encoding(info).value
  {
    var e := Encoding(info).value;
    Base64.EncodedHasNo(info.payload, '\n');
    assert e[..|PayloadTag|] == PayloadTag;
  }

  /** `encode_with_base64`: appends each tag, value and separator to `output`
      in the order the source writes them. */
  method EncodeWithBase64(info: PanicInfo) returns (r: Result<string>)
    ensures r == Encoding(info)
  {
    var output := "";
    output := output + "payload:";
    output := output + Base64.Encode(info.payload);
    ghost var closed := PayloadTag + Base64.Encode(info.payload) + ";";
    if info.location.Some? {
      ghost var before := output;
      output := output + ";location:";
      var locShort := LocationText(info.location.value);
      output := output + Base64.Encode(locShort);
      assert ";location:" == ";" + LocationTag;
      SeparatorFirst(before, LocationTag, Base64.Encode(locShort));
      closed := closed + LocationPart(info);
    } else {
      assert closed == closed + LocationPart(info);
    }
    assert output + ";" == closed;
    if info.backtrace.Some? {
      ghost var before := output;
      output := output + ";backtrace:";
      var bt := info.backtrace.value;
      if !EndsWithNewline(bt) {
        return Panic(UnwrapNone);
      }
      output := output + Base64.Encode(bt[..|bt| - 1]);
      assert ";backtrace:" == ";" + BacktraceTag;
      SeparatorFirst(before, BacktraceTag, Base64.Encode(bt[..|bt| - 1]));
      closed := closed + BacktracePart(info);
    } else {
      assert closed == closed + BacktracePart(info);
    }
    output := output + ";";
    assert output == closed;
    return Ok(output);
  }

  /** Writing `;` before each tag and one final `;` gives the same text as
      closing every value with `;`. */
  lemma SeparatorFirst(x: string, tag: string, v: string)
    ensures x + (";" + tag) + v + ";" == (x + ";") + (tag + v + ";")
  {
  }

  /** An optional `tag` field at the head of `tail`: when `tail` starts with the
      tag, the base64 text up to the next `;` is decoded and the rest after that
      `;` is returned with it; otherwise the field is absent and `tail` stays. */
  function OptionalField(tail: string, tag: string): (r: Result<(Option<seq<byte>>, string)>)
    ensures !StartsWith(tail, tag) ==> r == Ok((None, tail))
    ensures StartsWith(tail, tag) && ';' !in tail[|tag|..] ==> r == Panic(UnwrapNone)
    ensures r.Ok? && r.value.0.Some? ==>
      StartsWith(tail, tag) && tail == tag + Base64.Encode(r.value.0.value) + ";" + r.value.1
  {
    if !StartsWith(tail, tag) then Ok((None, tail))
    else match SplitOnce(tail[|tag|..], ';')
      case None => Panic(UnwrapNone)
      case Some((value, rest)) =>
        match Base64.Decode(value)
        case None => Panic(UnwrapErr)
        case Some(bytes) =>
          Base64.EncodeDecode(value);
          Ok((Some(bytes), rest))
  }

  /** What `decode_with_base64` returns for `data`. It panics when `data` does not
      start with `payload:`, when no `;` follows a field value, or when a value is
      not base64; text after the last recognised field is ignored. */
  function DecodeFields(data: string): (r: Result<Decoded>)
    ensures r.Err? ==> false
    ensures !StartsWith(data, PayloadTag) ==> r.Panic?
    ensures StartsWith(data, PayloadTag) && ';' !in data[|PayloadTag|..] ==> r.Panic?
    ensures r.Ok? ==> StartsWith(data, PayloadTag + Base64.Encode(r.value.payload) + ";")
  {
    if !StartsWith(data, PayloadTag) then Panic("assertion failed: data.starts_with(\"payload:\")")
    else match SplitOnce(data[|PayloadTag|..], ';')
      case None => Panic(UnwrapNone)
      case Some((payloadValue, tail)) =>
        match Base64.Decode(payloadValue)
        case None => Panic(UnwrapErr)
        case Some(payload) =>
          Base64.EncodeDecode(payloadValue);
          assert data == PayloadTag + payloadValue + ";" + tail;
          DecodeOptionalFields(payload, tail)
  }

  /** The optional location and then backtrace fields after the payload. */
  function DecodeOptionalFields(payload: seq<byte>, tail: string): (r: Result<Decoded>)
    ensures r.Err? ==> false
    ensures r.Ok? ==> r.value.payload == payload
  {
    match OptionalField(tail, LocationTag)
    case Ok((location, tail')) =>
      (match OptionalField(tail', BacktraceTag)
       case Ok((backtrace, _)) => Ok(Decoded(payload, location, backtrace))
       case Err(m) => Err(m)
       case Panic(m) => Panic(m))
    case Err(m) => Err(m)
    case Panic(m) => Panic(m)
  }

  /** `decode_with_base64`: advances `tail` past each field it recognises. */
  method DecodeWithBase64(data: string) returns (r: Result<Decoded>)
    ensures r == DecodeFields(data)
  {
    if !StartsWith(data, PayloadTag) {
      return Panic("assertion failed: data.starts_with(\"payload:\")");
    }
    var tail := data[|PayloadTag|..];
    var split := SplitOnce(tail, ';');
    if split.None? {
      return Panic(UnwrapNone);
    }
    var payloadValue := split.value.0;
    tail := split.value.1;
    var payload := Base64.Decode(payloadValue);
    if payload.None? {
      return Panic(UnwrapErr);
    }

    var location := None;
    if StartsWith(tail, LocationTag) {
      tail := tail[|LocationTag|..];
      var locSplit := SplitOnce(tail, ';');
      if locSplit.None? {
        return Panic(UnwrapNone);
      }
      var bytes := Base64.Decode(locSplit.value.0);
      if bytes.None? {
        return Panic(UnwrapErr);
      }
      tail := locSplit.value.1;
      location := Some(bytes.value);
    }

    var backtrace := None;
    if StartsWith(tail, BacktraceTag) {
      tail := tail[|BacktraceTag|..];
      var btSplit := SplitOnce(tail, ';');
      if btSplit.None? {
        return Panic(UnwrapNone);
      }
      var bytes := Base64.Decode(btSplit.value.0);
      if bytes.None? {
        return Panic(UnwrapErr);
      }
      backtrace := Some(bytes.value);
    }
    return Ok(Decoded(payload.value, location, backtrace));
  }

  function ExpectedLocation(info: PanicInfo): Option<seq<byte>> {
    if info.location.Some? then Some(LocationText(info.location.value)) else None
  }

  /** The fields a decoder should recover from `info`. */
  function Expected(info: PanicInfo): Decoded
    requires info.backtrace.Some? ==> EndsWithNewline(info.backtrace.value)
  {
    Decoded(info.payload, ExpectedLocation(info),
      if info.backtrace.Some? then Some(info.backtrace.value[..|info.backtrace.value| - 1]) else None)
  }

  /** A present field followed by anything is read back exactly. */
  lemma FieldRoundTrip(tag: string, b: seq<byte>, rest: string)
    ensures OptionalField(Field(tag, b) + rest, tag) == Ok((Some(b), rest))
  {
    var t := Field(tag, b) + rest;
    assert StartsWith(t, tag);
    assert t[|tag|..] == Base64.Encode(b) + [';'] + rest;
    Base64.EncodedHasNo(b, ';');
    SplitOnceAt(Base64.Encode(b), rest, ';');
    Base64.DecodeEncode(b);
  }

  /** The payload field is read back exactly, whatever follows it. */
  lemma PayloadRoundTrip(p: seq<byte>, rest: string)
    ensures DecodeFields(PayloadTag + Base64.Encode(p) + ";" + rest) == DecodeOptionalFields(p, rest)
  {
    var e := PayloadTag + Base64.Encode(p) + ";" + rest;
    assert StartsWith(e, PayloadTag);
    assert e[|PayloadTag|..] == Base64.Encode(p) + [';'] + rest;
    Base64.EncodedHasNo(p, ';');
    SplitOnceAt(Base64.Encode(p), rest, ';');
    Base64.DecodeEncode(p);
  }

  /** A backtrace field, or nothing, does not start with the location tag. */
  lemma NotLocationField(rest: string)
    requires rest == "" || StartsWith(rest, BacktraceTag)
    ensures !StartsWith(rest, LocationTag)
  {
    if rest != "" {
      assert rest[0] == BacktraceTag[0] == 'b';
      assert LocationTag[0] == 'l';
    }
  }

  /** The location field is read back when present and found absent otherwise,
      when what follows is a backtrace field or nothing. */
  lemma LocationStep(info: PanicInfo, rest: string)
    requires rest == "" || StartsWith(rest, BacktraceTag)
    ensures OptionalField(LocationPart(info) + rest, LocationTag) == Ok((ExpectedLocation(info), rest))
  {
    if info.location.Some? {
      var text := LocationText(info.location.value);
      assert LocationPart(info) == Field(LocationTag, text);
      FieldRoundTrip(LocationTag, text, rest);
      assert ExpectedLocation(info) == Some(text);
    } else {
      assert LocationPart(info) + rest == rest;
      NotLocationField(rest);
      assert ExpectedLocation(info) == None;
    }
  }

  lemma BacktraceStep(info: PanicInfo, extra: string)
    requires info.backtrace.Some? ==> EndsWithNewline(info.backtrace.value)
    requires info.backtrace.None? ==> extra == ""
    ensures OptionalField(BacktracePart(info) + extra, BacktraceTag) == Ok((Expected(info).backtrace, extra))
  {
    if info.backtrace.Some? {
      FieldRoundTrip(BacktraceTag, info.backtrace.value[..|info.backtrace.value| - 1], extra);
    } else {
      assert BacktracePart(info) + extra == "";
    }
  }

  /** After the payload, the optional fields of the record are read back. */
  lemma OptionalFieldsRoundTrip(info: PanicInfo, extra: string)
    requires info.backtrace.Some? ==> EndsWithNewline(info.backtrace.value)
    requires info.backtrace.None? ==> extra == ""
    ensures DecodeOptionalFields(info.payload, LocationPart(info) + BacktracePart(info) + extra) == Ok(Expected(info))
  {
    var rest := BacktracePart(info) + extra;
    assert LocationPart(info) + BacktracePart(info) + extra == LocationPart(info) + rest;
    LocationStep(info, rest);
    BacktraceStep(info, extra);
  }

  /** Decoding undoes encoding: the payload comes back, the location text exactly
      when there was a location, the stripped backtrace exactly when one was
      captured. This rests on `;` not being a base64 character. */
  lemma DecodeEncoding(info: PanicInfo)
    requires Encoding(info).Ok?
    ensures DecodeFields(Encoding(info).value) == Ok(Expected(info))
  {
    var rest := LocationPart(info) + BacktracePart(info);
    assert Encoding(info).value == PayloadTag + Base64.Encode(info.payload) + ";" + rest;
    PayloadRoundTrip(info.payload, rest);
    OptionalFieldsRoundTrip(info, "");
    assert rest + "" == rest;
  }

  /** With a backtrace field present, text after the record is ignored. */
  lemma DecodeIgnoresTrailingText(info: PanicInfo, extra: string)
    requires Encoding(info).Ok? && info.backtrace.Some?
    ensures DecodeFields(Encoding(info).value + extra) == Ok(Expected(info))
  {
    var head := PayloadTag + Base64.Encode(info.payload) + ";";
    var lp, bp := LocationPart(info), BacktracePart(info);
    var rest := lp + bp + extra;
    assert Encoding(info).value == head + lp + bp;
    AppendRegroup(head, lp, bp, extra);
    PayloadRoundTrip(info.payload, rest);
    OptionalFieldsRoundTrip(info, extra);
  }

  // ---------------------------------------------------------------------------
  // Supervision registry: the panic hook and `fiber_catch_unwind`.

  /** The payload a panic carries: a `&str`, a `String`, or anything else. */
  datatype Payload = StrPayload(text: seq<byte>) | StringPayload(text: seq<byte>) | OtherPayload

  /** One panic as the hook sees it: payload, location and the backtrace text
      `Backtrace::capture()` yields (`None` when capture is disabled). */
  datatype PanicEvent = PanicEvent(payload: Payload, location: Option<PanicLocation>, backtrace: Option<seq<byte>>)

  /** The process-wide panic hook: the standard one, the picotest hook, or a hook
      some other code installed with `std::panic::set_hook`. */
  datatype Hook = DefaultHook | PicotestHook | OtherHook(id: nat)

  /** The payload text the hook records. */
  function PayloadText(p: Payload): (r: seq<byte>)
    ensures p.OtherPayload? ==> r == AsciiBytes("unknown panic")
    ensures !p.OtherPayload? ==> r == p.text
  {
    match p
    case StrPayload(t) => t
    case StringPayload(t) => t
    case OtherPayload => AsciiBytes("unknown panic")
  }

  /** The record the hook stores for a panic. */
  function RecordOf(e: PanicEvent): PanicInfo {
    PanicInfo(PayloadText(e.payload), e.backtrace, e.location)
  }

  /** What a test body does when run: return, or panic. */
  datatype BodyOutcome = Returns | Panics(event: PanicEvent)

  /** What `fiber_catch_unwind` returns when it does not panic itself. */
  datatype CatchOutcome = Returned | Raised(info: PanicInfo)

  /** `install_picotest_panic_hook` on the saved original handler and the current
      hook: only the first call takes the current hook and puts the picotest hook
      in its place. */
  function InstallStep(saved: Option<Hook>, current: Hook): (r: (Option<Hook>, Hook))
    ensures r.0.Some? && (r.0 == saved || saved.None?)
    ensures saved.None? ==> r == (Some(current), PicotestHook)
    ensures saved.Some? ==> r == (saved, current)
  {
    if saved.None? then (Some(current), PicotestHook) else (saved, current)
  }

  /** Installing twice is installing once. */
  lemma InstallIdempotent(saved: Option<Hook>, current: Hook)
    ensures var once := InstallStep(saved, current); InstallStep(once.0, once.1) == once
  {
  }

  /** The thread-local `GUARDED_FIBERS` set and `RAISED_PANICS` map, the
      `PICOPLUGIN_HANDLER` cell and the process's current panic hook. `reports`
      lists the panics handed to a hook other than the picotest one, in order. */
  class Registry {
    var guarded: set<nat>
    var raised: map<nat, PanicInfo>
    var saved: Option<Hook>
    var hook: Hook
    var reports: seq<(Hook, PanicEvent)>

    /** The picotest hook is only ever installed together with the saved handler. */
    predicate Valid()
      reads this
    {
      hook == PicotestHook ==> saved.Some?
    }

    constructor()
      ensures Valid()
      ensures guarded == {} && raised == map[] && saved == None && hook == DefaultHook && reports == []
    {
      guarded := {};
      raised := map[];
      saved := None;
      hook := DefaultHook;
      reports := [];
    }

    /** `std::panic::set_hook` called by code other than picotest. */
    method SetHook(h: Hook)
      requires Valid() && !h.PicotestHook?
      modifies this
      ensures Valid()
      ensures hook == h
      ensures guarded == old(guarded) && raised == old(raised) && saved == old(saved) && reports == old(reports)
    {
      hook := h;
    }

    /** `install_picotest_panic_hook`. */
    method Install()
      requires Valid()
      modifies this
      ensures Valid() && saved.Some?
      ensures (saved, hook) == InstallStep(old(saved), old(hook))
      ensures guarded == old(guarded) && raised == old(raised) && reports == old(reports)
    {
      var firstInstall := false;
      if saved.None? {
        firstInstall := true;
        saved := Some(hook);
        hook := DefaultHook;
      }
      if firstInstall {
        hook := PicotestHook;
      }
    }

    /** `picotest_panic_hook` on fiber `fiber`: an unguarded fiber's panic is first
        handed to the saved original handler (a missing one makes `expect` panic);
        then, guarded or not, the record replaces any earlier one for the fiber. */
    method PanicHook(fiber: nat, e: PanicEvent) returns (r: Result<()>)
      requires Valid()
      modifies this
      ensures Valid()
      ensures guarded == old(guarded) && saved == old(saved) && hook == old(hook)
      ensures r.Ok? <==> fiber in guarded || saved.Some?
      ensures !r.Ok? ==> r == Panic(MissingHandler) && raised == old(raised) && reports == old(reports)
      ensures r.Ok? ==> raised == old(raised)[fiber := RecordOf(e)]
      ensures r.Ok? && fiber in guarded ==> reports == old(reports)
      ensures r.Ok? && fiber !in guarded ==> reports == old(reports) + [(saved.value, e)]
    {
      if fiber !in guarded {
        if saved.None? {
          return Panic(MissingHandler);
        }
        reports := reports + [(saved.value, e)];
      }
      raised := raised[fiber := RecordOf(e)];
      return Ok(());
    }

    /** The runtime reporting a panic on `fiber` to whatever hook is current. */
    method RaisePanic(fiber: nat, e: PanicEvent)
      requires Valid()
      modifies this
      ensures Valid()
      ensures guarded == old(guarded) && saved == old(saved) && hook == old(hook)
      ensures hook == PicotestHook ==> raised == old(raised)[fiber := RecordOf(e)]
      ensures hook == PicotestHook && fiber in guarded ==> reports == old(reports)
      ensures hook == PicotestHook && fiber !in guarded ==>
        saved.Some? && reports == old(reports) + [(saved.value, e)]
      ensures hook != PicotestHook ==> raised == old(raised) && reports == old(reports) + [(hook, e)]
    {
      if hook == PicotestHook {
        var outcome := PanicHook(fiber, e);
        assert outcome.Ok?;
      } else {
        reports := reports + [(hook, e)];
      }
    }

    /** `fiber_catch_unwind`: installs the hook, guards the fiber while the body
        runs and unguards it on both outcomes; on a panic the fiber's record is
        taken out of the map and returned, and a missing record is itself a panic. */
    method FiberCatchUnwind(fiber: nat, body: BodyOutcome) returns (r: Result<CatchOutcome>)
      requires Valid()
      modifies this
      ensures Valid()
      ensures (saved, hook) == InstallStep(old(saved), old(hook))
      ensures guarded == old(guarded) - {fiber}
      ensures r.Err? ==> false
      ensures body.Returns? ==> r == Ok(Returned) && raised == old(raised) && reports == old(reports)
      ensures body.Panics? && hook == PicotestHook ==>
        r == Ok(Raised(RecordOf(body.event))) && raised == old(raised) - {fiber} && reports == old(reports)
      ensures body.Panics? && hook != PicotestHook ==> reports == old(reports) + [(hook, body.event)]
      ensures body.Panics? && hook != PicotestHook && fiber in old(raised) ==>
        r == Ok(Raised(old(raised)[fiber])) && raised == old(raised) - {fiber}
      ensures body.Panics? && hook != PicotestHook && fiber !in old(raised) ==>
        r == Panic(UnwrapNone) && raised == old(raised)
    {
      Install();
      guarded := guarded + {fiber};
      match body
      case Returns =>
        guarded := guarded - {fiber};
        return Ok(Returned);
      case Panics(e) =>
        RaisePanic(fiber, e);
        guarded := guarded - {fiber};
        if fiber !in raised {
          return Panic(UnwrapNone);
        }
        var info := raised[fiber];
        raised := raised - {fiber};
        return Ok(Raised(info));
    }

    /** `picotest_execute_unit` once the test library is open: the locator symbol
        is looked up (a missing one makes `unwrap` panic), the test it yields is run
        under `fiber_catch_unwind`, and the outcome becomes a result record. */
    method ExecuteUnit(fiber: nat, symbols: map<string, BodyOutcome>, locatorName: string, capacity: nat)
      returns (r: Result<PicounitResult>)
      requires Valid()
      modifies this
      ensures Valid()
      ensures r.Err? ==> false
      ensures locatorName !in symbols ==> r == Panic(SymbolNotFound) && unchanged(this)
      ensures locatorName in symbols ==>
        (saved, hook) == InstallStep(old(saved), old(hook)) && guarded == old(guarded) - {fiber}
      ensures locatorName in symbols && symbols[locatorName].Returns? ==>
        r == Ok(DefaultResult()) && raised == old(raised) && reports == old(reports)
      ensures locatorName in symbols && symbols[locatorName].Panics? && hook == PicotestHook ==>
        r == Failure(RecordOf(symbols[locatorName].event), capacity)
        && raised == old(raised) - {fiber} && reports == old(reports)
      ensures locatorName in symbols && symbols[locatorName].Panics? && hook != PicotestHook ==>
        reports == old(reports) + [(hook, symbols[locatorName].event)]
      ensures locatorName in symbols && symbols[locatorName].Panics? && hook != PicotestHook && fiber in old(raised) ==>
        r == Failure(old(raised)[fiber], capacity) && raised == old(raised) - {fiber}
      ensures locatorName in symbols && symbols[locatorName].Panics? && hook != PicotestHook && fiber !in old(raised) ==>
        r == Panic(UnwrapNone) && raised == old(raised)
    {
      if locatorName !in symbols {
        return Panic(SymbolNotFound);
      }
      var result := FiberCatchUnwind(fiber, symbols[locatorName]);
      match result
      case Ok(Returned) =>
        return Ok(DefaultResult());
      case Ok(Raised(info)) =>
        return Failure(info, capacity);
      case Err(m) =>
        return Err(m);
      case Panic(m) =>
        return Panic(m);
    }
  }

  // ---------------------------------------------------------------------------
  // The C-ABI result record.

  /** `PicounitResult`: `fail` flag, the owned text (`None` for a null pointer)
      and its length and capacity as `u32`. */
  datatype PicounitResult = PicounitResult(fail: nat, data: Option<string>, len: nat, cap: nat)

  /** `u32` truncation of a `usize` (`as u32`). */
  function U32(n: nat): (r: nat)
    ensures r < U32Limit && (n < U32Limit ==> r == n)
  {
    n % U32Limit
  }

  /** `PicounitResult::default`: a success. */
  function DefaultResult(): (r: PicounitResult)
    ensures r.fail == 0 && r.data.None? && r.len == 0 && r.cap == 0 && Released(r) == None
  {
    PicounitResult(0, None, 0, 0)
  }

  /** `PicounitResult::failure`: the encoded record, leaked with its length and
      the capacity of the `String` that held it. */
  function Failure(info: PanicInfo, capacity: nat): (r: Result<PicounitResult>)
    ensures r.Err? ==> false
    ensures r.Panic? <==> Encoding(info).Panic?
    ensures r.Ok? ==>
      r.value.fail == 1 && r.value.data == Some(Encoding(info).value) &&
      r.value.len == U32(|Encoding(info).value|) && r.value.cap == U32(capacity)
  {
    match Encoding(info)
    case Ok(text) => Ok(PicounitResult(1, Some(text), U32(|text|), U32(capacity)))
    case Err(m) => Err(m)
    case Panic(m) => Panic(m)
  }

  /** What `picotest_free_unit_result` reclaims: nothing for a null pointer,
      otherwise the `len` bytes `String::from_raw_parts` rebuilds. The source
      requires `len` to stay within the buffer. */
  function Released(r: PicounitResult): (freed: Option<string>)
    requires r.data.Some? ==> r.len <= |r.data.value|
    ensures freed.None? <==> r.data.None?
    ensures freed.Some? ==> |freed.value| == r.len
  {
    match r.data
    case None => None
    case Some(text) => Some(text[..r.len])
  }

  /** A failure record hands back exactly the encoded text, both to the Lua
      reader (`ffi.string(data, len)`) and to the deallocator, as long as its
      length fits in 32 bits. */
  lemma FailureRoundTrip(info: PanicInfo, capacity: nat)
    requires Encoding(info).Ok? && |Encoding(info).value| < U32Limit
    ensures var r := Failure(info, capacity).value;
      r.data.Some? && r.len == |r.data.value| && Released(r) == Some(Encoding(info).value)
      && DecodeFields(r.data.value[..r.len]) == Ok(Expected(info))
  {
    var text := Encoding(info).value;
    assert text[..|text|] == text;
    DecodeEncoding(info);
  }
}
