/** From a log record to an exported one: which layer decides an attribute, and where the ids go. */
module Mapper {
  import opened Wrappers
  import opened Digits
  import opened HexIds

  const I64_MAX: nat := 0x7FFF_FFFF_FFFF_FFFF

  datatype AnyValue = StringValue(s: string) | IntValue(n: int) | BoolValue(b: bool)

  type Entry = (string, AnyValue)

  /** A call of the field writer; formatted text arrives as a string. */
  datatype FieldCall = StrCall(s: string) | U64Call(n: nat) | I64Call(i: int) | BoolCall(b: bool)

  datatype EdenLog = EdenLog(
    additional: seq<(string, string)>, request: seq<(string, FieldCall)>,
    audience: string, feature: Option<string>, functionName: Option<string>,
    file: Option<string>, line: Option<nat>, errorCode: Option<string>, errorCategory: Option<string>,
    traceId: Option<string>, spanId: Option<string>)

  datatype Ids = Ids(traceId: Option<seq<byte>>, spanId: Option<seq<byte>>)

  // ---------------------------------------------------------------- layers

  /** The last entry under a key wins. */
  function Last(entries: seq<Entry>, key: string): Option<AnyValue> {
    if entries == [] then None
    else if entries[|entries| - 1].0 == key then Some(entries[|entries| - 1].1)
    else Last(entries[..|entries| - 1], key)
  }

  function Else(first: Option<AnyValue>, second: Option<AnyValue>): Option<AnyValue> {
    if first.Some? then first else second
  }

  /** Numbers beyond a signed 64-bit integer become text. */
  function ValueOf(call: FieldCall): AnyValue {
    match call
    case StrCall(s) => StringValue(s)
    case U64Call(n) => if n <= I64_MAX then IntValue(n) else StringValue(Decimal(n))
    case I64Call(i) => IntValue(i)
    case BoolCall(b) => BoolValue(b)
  }

  function RequestLayer(calls: seq<(string, FieldCall)>): (r: seq<Entry>)
    ensures |r| == |calls|
  {
    seq(|calls|, i requires 0 <= i < |calls| => (calls[i].0, ValueOf(calls[i].1)))
  }

  function AdditionalLayer(entries: seq<(string, string)>): (r: seq<Entry>)
    ensures |r| == |entries|
  {
    seq(|entries|, i requires 0 <= i < |entries| => (entries[i].0, StringValue(entries[i].1)))
  }

  /** Supplied attributes without a value are skipped. */
  function ExtraLayer(extra: seq<(string, Option<AnyValue>)>): seq<Entry> {
    if extra == [] then []
    else
      match extra[|extra| - 1].1
      case None => ExtraLayer(extra[..|extra| - 1])
      case Some(value) => ExtraLayer(extra[..|extra| - 1]) + [(extra[|extra| - 1].0, value)]
  }

  function OptionalEntry(key: string, value: Option<string>): seq<Entry> {
    match value case None => [] case Some(s) => [(key, StringValue(s))]
  }

  function LineEntry(line: Option<nat>): seq<Entry> {
    match line case None => [] case Some(n) => [("code.line.number", IntValue(n))]
  }

  /** The native ids: a span id needs a trace id beside it. */
  function NativeIds(log: EdenLog): Ids {
    var trace := Decoded(16, log.traceId);
    Ids(trace, if trace.Some? then Decoded(8, log.spanId) else None)
  }

  /** Ids that are not native are kept as text. */
  function IdLayer(log: EdenLog): seq<Entry> {
    (if NativeIds(log).traceId.None? then OptionalEntry("eden.trace_id", log.traceId) else [])
      + (if NativeIds(log).spanId.None? then OptionalEntry("eden.span_id", log.spanId) else [])
  }

  function ErrorLayer(log: EdenLog): seq<Entry> {
    OptionalEntry("error.code", log.errorCode) + OptionalEntry("error.type", log.errorCategory)
  }

  function ContextLayer(log: EdenLog): seq<Entry> {
    [("eden.audience", StringValue(log.audience))]
      + OptionalEntry("eden.feature", log.feature) + OptionalEntry("code.function.name", log.functionName)
      + OptionalEntry("code.file.path", log.file) + LineEntry(log.line)
      + ErrorLayer(log)
  }

  function IntrinsicLayer(log: EdenLog): seq<Entry> {
    ContextLayer(log) + IdLayer(log)
  }

  /** Intrinsic fields, then supplied attributes, then request fields, then additional ones. */
  function Precedence(log: EdenLog, extra: seq<(string, Option<AnyValue>)>, key: string): Option<AnyValue> {
    Else(Last(IntrinsicLayer(log), key), Else(Last(ExtraLayer(extra), key),
      Else(Last(RequestLayer(log.request), key), Last(AdditionalLayer(log.additional), key))))
  }

  // ---------------------------------------------------------------- the map

  function Lookup(m: map<string, AnyValue>, key: string): Option<AnyValue> {
    if key in m then Some(m[key]) else None
  }

  /** The map after inserting entries one after the other. */
  function Inserted(m: map<string, AnyValue>, entries: seq<Entry>): map<string, AnyValue> {
    if entries == [] then m
    else Inserted(m, entries[..|entries| - 1])[entries[|entries| - 1].0 := entries[|entries| - 1].1]
  }

  lemma {:induction false} InsertedLookup(m: map<string, AnyValue>, entries: seq<Entry>, key: string)
    ensures Lookup(Inserted(m, entries), key) == Else(Last(entries, key), Lookup(m, key))
  {
    if entries != [] {
      InsertedLookup(m, entries[..|entries| - 1], key);
    }
  }

  lemma {:induction false} InsertedConcat(m: map<string, AnyValue>, a: seq<Entry>, b: seq<Entry>)
    ensures Inserted(m, a + b) == Inserted(Inserted(m, a), b)
  {
    if b == [] {
      assert a + b == a;
    } else {
      assert (a + b)[..|a + b| - 1] == a + b[..|b| - 1];
      InsertedConcat(m, a, b[..|b| - 1]);
    }
  }

  /** The attributes under construction. */
  class AttributeMap {
    var entries: map<string, AnyValue>

    constructor ()
      ensures entries == map[]
    {
      entries := map[];
    }

    method Insert(key: string, value: AnyValue)
      modifies this
      ensures entries == Inserted(old(entries), [(key, value)])
    {
      assert [(key, value)][..0] == [];
      entries := entries[key := value];
    }

    method InsertOptional(key: string, value: Option<string>)
      modifies this
      ensures entries == Inserted(old(entries), OptionalEntry(key, value))
    {
      if value.Some? {
        Insert(key, StringValue(value.value));
      }
    }

    method InsertAdditional(additional: seq<(string, string)>)
      modifies this
      ensures entries == Inserted(old(entries), AdditionalLayer(additional))
    {
      for i := 0 to |additional|
        invariant entries == Inserted(old(entries), AdditionalLayer(additional[..i]))
      {
        var e := (additional[i].0, StringValue(additional[i].1));
        assert AdditionalLayer(additional[..i + 1]) == AdditionalLayer(additional[..i]) + [e];
        InsertedConcat(old(entries), AdditionalLayer(additional[..i]), [e]);
        Insert(e.0, e.1);
      }
      assert additional[..|additional|] == additional;
    }

    method InsertRequest(calls: seq<(string, FieldCall)>)
      modifies this
      ensures entries == Inserted(old(entries), RequestLayer(calls))
    {
      for i := 0 to |calls|
        invariant entries == Inserted(old(entries), RequestLayer(calls[..i]))
      {
        var e := (calls[i].0, ValueOf(calls[i].1));
        assert RequestLayer(calls[..i + 1]) == RequestLayer(calls[..i]) + [e];
        InsertedConcat(old(entries), RequestLayer(calls[..i]), [e]);
        Insert(e.0, e.1);
      }
      assert calls[..|calls|] == calls;
    }

    method InsertExtra(extra: seq<(string, Option<AnyValue>)>)
      modifies this
      ensures entries == Inserted(old(entries), ExtraLayer(extra))
    {
      for i := 0 to |extra|
        invariant entries == Inserted(old(entries), ExtraLayer(extra[..i]))
      {
        assert extra[..i + 1][..i] == extra[..i];
        if extra[i].1.Some? {
          InsertedConcat(old(entries), ExtraLayer(extra[..i]), [(extra[i].0, extra[i].1.value)]);
          Insert(extra[i].0, extra[i].1.value);
        }
      }
      assert extra[..|extra|] == extra;
    }

    method InsertIntrinsic(log: EdenLog)
      modifies this
      ensures entries == Inserted(old(entries), ContextLayer(log))
    {
      ghost var start := entries;
      ghost var layer: seq<Entry> := [("eden.audience", StringValue(log.audience))];
      Insert("eden.audience", StringValue(log.audience));
      InsertedConcat(start, layer, OptionalEntry("eden.feature", log.feature));
      layer := layer + OptionalEntry("eden.feature", log.feature);
      InsertOptional("eden.feature", log.feature);
      InsertedConcat(start, layer, OptionalEntry("code.function.name", log.functionName));
      layer := layer + OptionalEntry("code.function.name", log.functionName);
      InsertOptional("code.function.name", log.functionName);
      InsertedConcat(start, layer, OptionalEntry("code.file.path", log.file));
      layer := layer + OptionalEntry("code.file.path", log.file);
      InsertOptional("code.file.path", log.file);
      InsertedConcat(start, layer, LineEntry(log.line));
      layer := layer + LineEntry(log.line);
      if log.line.Some? {
        Insert("code.line.number", IntValue(log.line.value));
      }
      InsertErrors(log);
      InsertedConcat(start, layer, ErrorLayer(log));
    }

    method InsertErrors(log: EdenLog)
      modifies this
      ensures entries == Inserted(old(entries), ErrorLayer(log))
    {
      InsertedConcat(entries, OptionalEntry("error.code", log.errorCode),
                     OptionalEntry("error.type", log.errorCategory));
      InsertOptional("error.code", log.errorCode);
      InsertOptional("error.type", log.errorCategory);
    }

    method InsertIds(log: EdenLog) returns (ids: Ids)
      modifies this
      ensures ids == NativeIds(log) && entries == Inserted(old(entries), IdLayer(log))
    {
      ghost var start := entries;
      var trace := DecodeHexId(16, log.traceId);
      var span := None;
      if trace.Some? {
        span := DecodeHexId(8, log.spanId);
      }
      ghost var first := if trace.None? then OptionalEntry("eden.trace_id", log.traceId) else [];
      ghost var second := if span.None? then OptionalEntry("eden.span_id", log.spanId) else [];
      if trace.None? {
        InsertOptional("eden.trace_id", log.traceId);
      }
      if span.None? {
        InsertOptional("eden.span_id", log.spanId);
      }
      InsertedConcat(start, first, second);
      ids := Ids(trace, span);
    }
  }

  /** Builds the exported attributes and ids. Each key holds what the highest layer that
      mentions it says, and within a layer what was said last. */
  method MapWithAttributes(log: EdenLog, extra: seq<(string, Option<AnyValue>)>)
    returns (attributes: map<string, AnyValue>, ids: Ids)
    ensures forall key :: Lookup(attributes, key) == Precedence(log, extra, key)
    ensures ids == NativeIds(log)
  {
    var m := new AttributeMap();
    m.InsertAdditional(log.additional);
    ghost var m1 := m.entries;
    m.InsertRequest(log.request);
    ghost var m2 := m.entries;
    m.InsertExtra(extra);
    ghost var m3 := m.entries;
    m.InsertIntrinsic(log);
    ids := m.InsertIds(log);
    attributes := m.entries;
    InsertedConcat(m3, ContextLayer(log), IdLayer(log));
    forall key
      ensures Lookup(attributes, key) == Precedence(log, extra, key)
    {
      InsertedLookup(m3, IntrinsicLayer(log), key);
      InsertedLookup(m2, ExtraLayer(extra), key);
      InsertedLookup(m1, RequestLayer(log.request), key);
      InsertedLookup(map[], AdditionalLayer(log.additional), key);
    }
  }

  // ---------------------------------------------------------------- values and keys

  /** What a request field is exported as: text as that text, a truth value as itself, a signed
      number as that number; an unsigned one too if a signed 64-bit integer can hold it, and
      otherwise as its decimal numeral. */
  ghost predicate CarriedAs(call: FieldCall, value: AnyValue) {
    match call
    case StrCall(s) => value == StringValue(s)
    case I64Call(i) => value == IntValue(i)
    case BoolCall(b) => value == BoolValue(b)
    case U64Call(n) =>
      if n < 0x8000_0000_0000_0000 then value == IntValue(n)
      else value.StringValue? && AllDigits(value.s) && Value(value.s) == n && value.s[0] != '0'
  }

  /** A request field that nothing above it overrides is exported as what the last call under its
      key carries. */
  lemma RequestFieldIsCarried(log: EdenLog, extra: seq<(string, Option<AnyValue>)>, i: nat)
    requires i < |log.request| && forall j :: i < j < |log.request| ==> log.request[j].0 != log.request[i].0
    requires Last(IntrinsicLayer(log), log.request[i].0).None? && Last(ExtraLayer(extra), log.request[i].0).None?
    ensures Precedence(log, extra, log.request[i].0).Some?
    ensures CarriedAs(log.request[i].1, Precedence(log, extra, log.request[i].0).value)
  {
    LastCall(log.request, i);
    match log.request[i].1
    case StrCall(_) =>
    case U64Call(n) => DecimalReadsBack(n);
    case I64Call(_) =>
    case BoolCall(_) =>
  }

  lemma {:induction false} LastCall(calls: seq<(string, FieldCall)>, i: nat)
    requires i < |calls| && forall j :: i < j < |calls| ==> calls[j].0 != calls[i].0
    ensures Last(RequestLayer(calls), calls[i].0) == Some(ValueOf(calls[i].1))
  {
    var init := calls[..|calls| - 1];
    assert RequestLayer(calls)[..|calls| - 1] == RequestLayer(init);
    if i < |calls| - 1 {
      LastCall(init, i);
    }
  }

  function TextValue(text: Option<string>): Option<AnyValue> {
    match text case None => None case Some(s) => Some(StringValue(s))
  }

  lemma OptionalLast(key: string, value: Option<string>, asked: string)
    ensures Last(OptionalEntry(key, value), asked) == if asked == key then TextValue(value) else None
  {
  }

  lemma ErrorsLast(log: EdenLog, key: string)
    ensures key == "error.code" ==> Last(ErrorLayer(log), key) == TextValue(log.errorCode)
    ensures key == "error.type" ==> Last(ErrorLayer(log), key) == TextValue(log.errorCategory)
    ensures key != "error.code" && key != "error.type" ==> Last(ErrorLayer(log), key) == None
  {
    LastConcat(OptionalEntry("error.code", log.errorCode), OptionalEntry("error.type", log.errorCategory), key);
    OptionalLast("error.code", log.errorCode, key);
    OptionalLast("error.type", log.errorCategory, key);
  }

  /** The entries of the record's own fields, one by one. */
  lemma ContextLast(log: EdenLog, key: string)
    ensures Last(ContextLayer(log), key)
         == Else(Last(ErrorLayer(log), key), Else(Last(LineEntry(log.line), key),
              if key == "code.file.path" then TextValue(log.file)
              else if key == "code.function.name" then TextValue(log.functionName)
              else if key == "eden.feature" then TextValue(log.feature)
              else if key == "eden.audience" then Some(StringValue(log.audience)) else None))
  {
    var audience: seq<Entry> := [("eden.audience", StringValue(log.audience))];
    var feature := audience + OptionalEntry("eden.feature", log.feature);
    var function' := feature + OptionalEntry("code.function.name", log.functionName);
    var file := function' + OptionalEntry("code.file.path", log.file);
    var line := file + LineEntry(log.line);
    assert ContextLayer(log) == line + ErrorLayer(log);
    LastConcat(line, ErrorLayer(log), key);
    LastConcat(file, LineEntry(log.line), key);
    LastConcat(function', OptionalEntry("code.file.path", log.file), key);
    LastConcat(feature, OptionalEntry("code.function.name", log.functionName), key);
    LastConcat(audience, OptionalEntry("eden.feature", log.feature), key);
    OptionalLast("code.file.path", log.file, key);
    OptionalLast("code.function.name", log.functionName, key);
    OptionalLast("eden.feature", log.feature, key);
    assert audience[..0] == [];
  }

  lemma IdsElsewhere(log: EdenLog, key: string)
    requires key != "eden.trace_id" && key != "eden.span_id"
    ensures Last(IdLayer(log), key) == None
  {
    var first := if NativeIds(log).traceId.None? then OptionalEntry("eden.trace_id", log.traceId) else [];
    var second := if NativeIds(log).spanId.None? then OptionalEntry("eden.span_id", log.spanId) else [];
    LastConcat(first, second, key);
    OptionalLast("eden.trace_id", log.traceId, key);
    OptionalLast("eden.span_id", log.spanId, key);
  }

  lemma OwnFieldPrevails(log: EdenLog, extra: seq<(string, Option<AnyValue>)>, key: string)
    requires key != "eden.trace_id" && key != "eden.span_id" && Last(ContextLayer(log), key).Some?
    ensures Precedence(log, extra, key) == Last(ContextLayer(log), key)
  {
    LastConcat(ContextLayer(log), IdLayer(log), key);
    IdsElsewhere(log, key);
  }

  ghost predicate Exported(log: EdenLog, extra: seq<(string, Option<AnyValue>)>, key: string, text: Option<string>) {
    text.Some? ==> Precedence(log, extra, key) == Some(StringValue(text.value))
  }

  lemma OwnFieldIsExported(log: EdenLog, extra: seq<(string, Option<AnyValue>)>, key: string, text: Option<string>)
    requires key != "eden.trace_id" && key != "eden.span_id"
    requires text.Some? ==> Last(ContextLayer(log), key) == Some(StringValue(text.value))
    ensures Exported(log, extra, key, text)
  {
    if text.Some? {
      OwnFieldPrevails(log, extra, key);
    }
  }

  /** Each field of the record is exported under its own key, whatever the other layers say. */
  lemma FieldsUnderTheirKeys(log: EdenLog, extra: seq<(string, Option<AnyValue>)>)
    ensures Exported(log, extra, "eden.audience", Some(log.audience))
    ensures Exported(log, extra, "eden.feature", log.feature)
    ensures Exported(log, extra, "code.function.name", log.functionName)
    ensures Exported(log, extra, "code.file.path", log.file)
    ensures Exported(log, extra, "error.code", log.errorCode)
    ensures Exported(log, extra, "error.type", log.errorCategory)
    ensures log.line.Some? ==> Precedence(log, extra, "code.line.number") == Some(IntValue(log.line.value))
  {
    forall key
      ensures key == "error.code" ==> Last(ErrorLayer(log), key) == TextValue(log.errorCode)
      ensures key == "error.type" ==> Last(ErrorLayer(log), key) == TextValue(log.errorCategory)
      ensures key != "error.code" && key != "error.type" ==> Last(ErrorLayer(log), key) == None
    {
      ErrorsLast(log, key);
    }
    ContextLast(log, "eden.audience");
    ContextLast(log, "eden.feature");
    ContextLast(log, "code.function.name");
    ContextLast(log, "code.file.path");
    ContextLast(log, "error.code");
    ContextLast(log, "error.type");
    ContextLast(log, "code.line.number");
    OwnFieldIsExported(log, extra, "eden.audience", Some(log.audience));
    OwnFieldIsExported(log, extra, "eden.feature", log.feature);
    OwnFieldIsExported(log, extra, "code.function.name", log.functionName);
    OwnFieldIsExported(log, extra, "code.file.path", log.file);
    OwnFieldIsExported(log, extra, "error.code", log.errorCode);
    OwnFieldIsExported(log, extra, "error.type", log.errorCategory);
    if log.line.Some? {
      OwnFieldPrevails(log, extra, "code.line.number");
    }
  }

  // ---------------------------------------------------------------- ids

  lemma {:induction false} LastConcat(a: seq<Entry>, b: seq<Entry>, key: string)
    ensures Last(a + b, key) == Else(Last(b, key), Last(a, key))
  {
    if b == [] {
      assert a + b == a;
    } else {
      assert (a + b)[..|a + b| - 1] == a + b[..|b| - 1];
      LastConcat(a, b[..|b| - 1], key);
    }
  }

  /** What the topmost entries say about their keys prevails. */
  lemma IdLayerPrevails(log: EdenLog, extra: seq<(string, Option<AnyValue>)>, key: string)
    requires Last(IdLayer(log), key).Some?
    ensures Precedence(log, extra, key) == Last(IdLayer(log), key)
  {
    LastConcat(ContextLayer(log), IdLayer(log), key);
  }

  lemma TwoEntries(first: seq<Entry>, second: seq<Entry>, key: string, other: string, v: AnyValue)
    requires key != other
    ensures (forall e <- second :: e.0 == other) ==> Last([(key, v)] + second, key) == Some(v)
    ensures Last(first + [(key, v)], key) == Some(v)
  {
    LastConcat([(key, v)], second, key);
    LastConcat(first, [(key, v)], key);
    OtherKeys(second, key, other);
  }

  lemma {:induction false} OtherKeys(entries: seq<Entry>, key: string, other: string)
    requires key != other
    ensures (forall e <- entries :: e.0 == other) ==> Last(entries, key) == None
  {
    if entries != [] {
      OtherKeys(entries[..|entries| - 1], key, other);
    }
  }

  lemma IdKeysDiffer()
    ensures "eden.trace_id" != "eden.span_id"
  {
    assert "eden.trace_id"[5] != "eden.span_id"[5];
  }

  /** No trace id is lost: one that the record has is exported natively, or under its `eden`
      key with its text unchanged, whatever the other layers say about that key. */
  lemma TraceIdIsCarried(log: EdenLog, extra: seq<(string, Option<AnyValue>)>)
    requires log.traceId.Some?
    ensures
      || (NativeIds(log).traceId.Some? && NativeIds(log).traceId == Decoded(16, log.traceId))
      || Precedence(log, extra, "eden.trace_id") == Some(StringValue(log.traceId.value))
  {
    if NativeIds(log).traceId.None? {
      var span: seq<Entry> := if NativeIds(log).spanId.None? then OptionalEntry("eden.span_id", log.spanId) else [];
      IdKeysDiffer();
      TwoEntries([], span, "eden.trace_id", "eden.span_id", StringValue(log.traceId.value));
      IdLayerPrevails(log, extra, "eden.trace_id");
    }
  }

  /** Nor is a span id, even one beside a trace id that is none. */
  lemma SpanIdIsCarried(log: EdenLog, extra: seq<(string, Option<AnyValue>)>)
    requires log.spanId.Some?
    ensures
      || (NativeIds(log).spanId.Some? && NativeIds(log).spanId == Decoded(8, log.spanId))
      || Precedence(log, extra, "eden.span_id") == Some(StringValue(log.spanId.value))
  {
    if NativeIds(log).spanId.None? {
      var trace: seq<Entry> := if NativeIds(log).traceId.None? then OptionalEntry("eden.trace_id", log.traceId) else [];
      IdKeysDiffer();
      TwoEntries(trace, [], "eden.span_id", "eden.trace_id", StringValue(log.spanId.value));
      IdLayerPrevails(log, extra, "eden.span_id");
    }
  }

  /** Ids that the logger encoded come through as the same bytes, if and only if they are not
      all zero; a span id also needs the trace id beside it to be one. */
  lemma EncodedIdsAreNative(log: EdenLog, trace: seq<byte>, span: seq<byte>)
    requires |trace| == 16 && |span| == 8
    requires log.traceId == Some(HexString(trace)) && log.spanId == Some(HexString(span))
    ensures NativeIds(log).traceId == Some(trace) <==> !AllZero(trace)
    ensures NativeIds(log).spanId == Some(span) <==> !AllZero(trace) && !AllZero(span)
  {
    DecodeOfEncode(trace);
    DecodeOfEncode(span);
  }
}
