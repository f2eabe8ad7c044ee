/**
The JSON log line: written member by member into a string buffer, and read back as one
object of sections 4 to 7 of RFC 8259 with its members in order.
*/
module JsonLine {
  import opened Wrappers
  import opened Digits
  import opened JsonText
  import opened TextBuffers

  // ---------------------------------------------------------------- values and members

  /** A call of the field writer: text, a number, a truth value, or the chunks in which
      formatted text arrives. */
  datatype FieldValue = Str(s: string) | Number(n: int) | Flag(b: bool) | Shown(chunks: seq<string>)

  type Member = (string, FieldValue)

  datatype JsonValue = JString(s: string) | JNumber(n: int) | JBool(b: bool)

  function Join(chunks: seq<string>): string {
    if chunks == [] then "" else chunks[0] + Join(chunks[1..])
  }

  /** What the caller meant. */
  function Meaning(v: FieldValue): JsonValue {
    match v
    case Str(s) => JString(s)
    case Number(n) => JNumber(n)
    case Flag(b) => JBool(b)
    case Shown(chunks) => JString(Join(chunks))
  }

  // ---------------------------------------------------------------- the text

  function EscapedChunks(chunks: seq<string>): string {
    if chunks == [] then "" else Escaped(chunks[0]) + EscapedChunks(chunks[1..])
  }

  function NumberText(n: int): string {
    if n < 0 then "-" + Decimal(-n) else Decimal(n)
  }

  function ValueText(v: FieldValue): string {
    match v
    case Str(s) => "\"" + (Escaped(s) + "\"")
    case Number(n) => NumberText(n)
    case Flag(b) => if b then "true" else "false"
    case Shown(chunks) => "\"" + (EscapedChunks(chunks) + "\"")
  }

  function MemberText(m: Member): string {
    "\"" + (Escaped(m.0) + "\":") + ValueText(m.1)
  }

  /** Texts after the first, each with its comma. */
  function Commas<T>(text: T -> string, items: seq<T>): string {
    if items == [] then "" else Commas(text, items[..|items| - 1]) + ("," + text(items[|items| - 1]))
  }

  function MoreText(members: seq<Member>): string {
    Commas(MemberText, members)
  }

  // ---------------------------------------------------------------- the grammar

  function LeadingDigits(s: string): (k: nat)
    ensures k <= |s| && AllDigits(s[..k]) && (k < |s| ==> !IsDigit(s[k]))
  {
    if s == "" || !IsDigit(s[0]) then 0
    else
      var k := LeadingDigits(s[1..]);
      assert s[..k + 1] == [s[0]] + s[1..][..k];
      k + 1
  }

  /** An unsigned integer without superfluous leading zeros, taken as far as it goes. */
  function ParseNatural(s: string): (r: Option<(nat, string)>)
    ensures r.Some? ==> |r.value.1| < |s|
  {
    var k := LeadingDigits(s);
    if k == 0 || (k > 1 && s[0] == '0') then None else Some((Value(s[..k]), s[k..]))
  }

  function ParseNumber(s: string): (r: Option<(JsonValue, string)>)
    ensures r.Some? ==> |r.value.1| < |s|
  {
    if s != "" && s[0] == '-' then
      match ParseNatural(s[1..])
      case None => None
      case Some((n, after)) => Some((JNumber(0 - n), after))
    else
      match ParseNatural(s)
      case None => None
      case Some((n, after)) => Some((JNumber(n), after))
  }

  /** Strings, integers and the two truth values: the values that log lines contain. */
  function ParseValue(s: string): (r: Option<(JsonValue, string)>)
    ensures r.Some? ==> |r.value.1| < |s|
  {
    if s == "" then None
    else if s[0] == '\"' then
      match ParseString(s[1..])
      case None => None
      case Some((text, after)) => Some((JString(text), after))
    else if |s| >= 4 && s[..4] == "true" then Some((JBool(true), s[4..]))
    else if |s| >= 5 && s[..5] == "false" then Some((JBool(false), s[5..]))
    else ParseNumber(s)
  }

  function ParseMember(s: string): (r: Option<((string, JsonValue), string)>)
    ensures r.Some? ==> |r.value.1| < |s|
  {
    if s == "" || s[0] != '\"' then None
    else
      match ParseString(s[1..])
      case None => None
      case Some((key, rest)) =>
        if rest == "" || rest[0] != ':' then None
        else
          match ParseValue(rest[1..])
          case None => None
          case Some((value, after)) => Some(((key, value), after))
  }

  /** Items separated by commas up to the closing brace, and what follows it. An item is not empty. */
  function ParseList<T>(item: string -> Option<(T, string)>, s: string): Option<(seq<T>, string)>
    decreases |s|
  {
    match item(s)
    case None => None
    case Some((first, rest)) =>
      if |rest| >= |s| || rest == "" then None
      else if rest[0] == '}' then Some(([first], rest[1..]))
      else if rest[0] == ',' then
        match ParseList(item, rest[1..])
        case None => None
        case Some((others, after)) => Some(([first] + others, after))
      else None
  }

  function ParseMembers(s: string): Option<(seq<(string, JsonValue)>, string)> {
    ParseList(ParseMember, s)
  }

  /** A whole text that is one object, written without insignificant white space. */
  function ParseObject(s: string): Option<seq<(string, JsonValue)>> {
    if s == "{}" then Some([])
    else if s == "" || s[0] != '{' then None
    else
      match ParseMembers(s[1..])
      case None => None
      case Some((members, after)) => if after == "" then Some(members) else None
  }

  // ---------------------------------------------------------------- reading back

  function CarriedChunks(chunks: seq<string>): string {
    if chunks == [] then "" else Carried(chunks[0]) + CarriedChunks(chunks[1..])
  }

  /** What a reader gets for a value. */
  function Received(v: FieldValue): JsonValue {
    match v
    case Str(s) => JString(Carried(s))
    case Number(n) => JNumber(n)
    case Flag(b) => JBool(b)
    case Shown(chunks) => JString(CarriedChunks(chunks))
  }

  lemma {:induction false} ChunksReadBack(chunks: seq<string>, rest: string)
    ensures ParseString(EscapedChunks(chunks) + rest) == Prepend(CarriedChunks(chunks), ParseString(rest))
  {
    if chunks == [] {
      assert EscapedChunks(chunks) + rest == rest;
      NothingPrepended(ParseString(rest));
    } else {
      var more := EscapedChunks(chunks[1..]) + rest;
      assert EscapedChunks(chunks) + rest == Escaped(chunks[0]) + more;
      EscapedReadsBack(chunks[0], more);
      ChunksReadBack(chunks[1..], rest);
      PrependedOnto(Carried(chunks[0]), CarriedChunks(chunks[1..]), ParseString(rest));
    }
  }

  lemma PrependedOnto(a: string, b: string, rest: Option<(string, string)>)
    ensures Prepend(a, Prepend(b, rest)) == Prepend(a + b, rest)
  {
    match rest
    case None =>
    case Some((tail, after)) => assert a + (b + tail) == a + b + tail;
  }

  lemma ChunksReadBackWhole(chunks: seq<string>, after: string)
    ensures ParseString(EscapedChunks(chunks) + ("\"" + after)) == Some((CarriedChunks(chunks), after))
  {
    ChunksReadBack(chunks, "\"" + after);
    assert ("\"" + after)[1..] == after;
    assert CarriedChunks(chunks) + "" == CarriedChunks(chunks);
  }

  /** A number ends where the next member or the closing brace begins. */
  predicate Ends(after: string) {
    after != "" && (after[0] == ',' || after[0] == '}')
  }

  lemma {:induction false} DigitsStop(s: string, after: string)
    requires AllDigits(s) && Ends(after)
    ensures LeadingDigits(s + after) == |s|
  {
    if s == "" {
      assert s + after == after;
    } else {
      assert (s + after)[1..] == s[1..] + after;
      DigitsStop(s[1..], after);
    }
  }

  lemma NaturalReadsBack(n: nat, after: string)
    requires Ends(after)
    ensures ParseNatural(Decimal(n) + after) == Some((n, after))
    ensures IsDigit((Decimal(n) + after)[0])
  {
    DecimalReadsBack(n);
    DigitsStop(Decimal(n), after);
    var s := Decimal(n) + after;
    assert s[..|Decimal(n)|] == Decimal(n) && s[|Decimal(n)|..] == after;
  }

  lemma MinusReads(t: string, n: nat, after: string)
    requires ParseNatural(t) == Some((n, after))
    ensures ParseNumber("-" + t) == Some((JNumber(0 - n), after))
  {
    assert ("-" + t)[1..] == t;
  }

  lemma PlainNumberReads(t: string, n: nat, after: string)
    requires t != "" && IsDigit(t[0]) && ParseNatural(t) == Some((n, after))
    ensures ParseNumber(t) == Some((JNumber(n), after))
  {
  }

  lemma NumberReadsBack(n: int, after: string)
    requires Ends(after)
    ensures ParseNumber(NumberText(n) + after) == Some((JNumber(n), after))
    ensures (NumberText(n) + after)[0] == '-' || IsDigit((NumberText(n) + after)[0])
  {
    if n < 0 {
      assert NumberText(n) + after == "-" + (Decimal(-n) + after);
      NaturalReadsBack(-n, after);
      MinusReads(Decimal(-n) + after, -n, after);
    } else {
      NaturalReadsBack(n, after);
      PlainNumberReads(Decimal(n) + after, n, after);
    }
  }

  lemma OtherValuesAreNumbers(s: string)
    requires s != "" && (s[0] == '-' || IsDigit(s[0]))
    ensures ParseValue(s) == ParseNumber(s)
  {
    assert |s| >= 4 ==> s[..4][0] == s[0];
    assert |s| >= 5 ==> s[..5][0] == s[0];
  }

  lemma FlagReadsBack(b: bool, after: string)
    ensures ParseValue(ValueText(Flag(b)) + after) == Some((JBool(b), after))
  {
    var s := ValueText(Flag(b)) + after;
    if b {
      assert s[..4] == "true" && s[4..] == after;
    } else {
      assert s[..5] == "false" && s[5..] == after;
      assert s[..4][0] == 'f';
    }
  }

  lemma QuotedReadsBack(inner: string, text: string, after: string)
    requires ParseString(inner + ("\"" + after)) == Some((text, after))
    ensures ParseValue("\"" + (inner + "\"") + after) == Some((JString(text), after))
  {
    var s := "\"" + (inner + "\"") + after;
    assert s[1..] == inner + ("\"" + after);
  }

  lemma ValueReadsBack(v: FieldValue, after: string)
    requires Ends(after)
    ensures ParseValue(ValueText(v) + after) == Some((Received(v), after))
  {
    match v
    case Str(s) => StringReadsBack(s, after); QuotedReadsBack(Escaped(s), Carried(s), after);
    case Number(n) => NumberReadsBack(n, after); OtherValuesAreNumbers(NumberText(n) + after);
    case Flag(b) => FlagReadsBack(b, after);
    case Shown(chunks) => ChunksReadBackWhole(chunks, after);
        QuotedReadsBack(EscapedChunks(chunks), CarriedChunks(chunks), after);
  }

  function ReceivedMember(m: Member): (string, JsonValue) {
    (Carried(m.0), Received(m.1))
  }

  /** A key, a colon and a value. */
  lemma MemberParses(quoted: string, key: string, value: string, v: JsonValue, after: string)
    requires ParseString(quoted + (":" + value)) == Some((key, ":" + value)) && ParseValue(value) == Some((v, after))
    ensures ParseMember("\"" + (quoted + (":" + value))) == Some(((key, v), after))
  {
    var s := "\"" + (quoted + (":" + value));
    assert s[1..] == quoted + (":" + value);
    assert (":" + value)[1..] == value;
  }

  lemma KeyPieces(key: string, text: string, after: string)
    ensures "\"" + (key + "\":") + text + after == "\"" + (key + "\"" + (":" + (text + after)))
  {
  }

  lemma KeyReadsBack(key: string, value: string)
    ensures ParseString(Escaped(key) + "\"" + (":" + value)) == Some((Carried(key), ":" + value))
  {
    StringReadsBack(key, ":" + value);
    Onto(Escaped(key), "\"", ":" + value);
  }

  lemma MemberReadsBack(m: Member, after: string)
    requires Ends(after)
    ensures ParseMember(MemberText(m) + after) == Some((ReceivedMember(m), after))
  {
    var value := ValueText(m.1) + after;
    KeyPieces(Escaped(m.0), ValueText(m.1), after);
    KeyReadsBack(m.0, value);
    ValueReadsBack(m.1, after);
    MemberParses(Escaped(m.0) + "\"", Carried(m.0), value, Received(m.1), after);
  }

  lemma {:induction false} CommasCons<T>(text: T -> string, item: T, items: seq<T>)
    ensures Commas(text, [item] + items) == "," + text(item) + Commas(text, items)
  {
    if items == [] {
      assert ([item] + items)[..0] == [];
      assert [item] + items == [item];
    } else {
      var init, last := items[..|items| - 1], items[|items| - 1];
      assert ([item] + items)[..|items|] == [item] + init;
      CommasCons(text, item, init);
    }
  }

  /** Texts that read back one by one read back as a list, in order. */
  lemma {:induction false} ListReadsBack<S, T>(text: S -> string, item: string -> Option<(T, string)>, read: S -> T,
                                               first: S, others: seq<S>, after: string)
    requires forall x: S, tail: string :: Ends(tail) ==> text(x) != "" && item(text(x) + tail) == Some((read(x), tail))
    ensures ParseList(item, text(first) + Commas(text, others) + ("}" + after))
        == Some(([read(first)] + Each(read, others), after))
    decreases |others|
  {
    var s := text(first) + Commas(text, others) + ("}" + after);
    if others == [] {
      assert s == text(first) + ("}" + after);
      assert ("}" + after)[1..] == after && Ends("}" + after);
      assert item(s) == Some((read(first), "}" + after));
      assert [read(first)] + Each(read, others) == [read(first)];
    } else {
      var next, rest := others[0], others[1..];
      assert others == [next] + rest;
      CommasCons(text, next, rest);
      var tail := text(next) + Commas(text, rest) + ("}" + after);
      assert s == text(first) + ("," + tail);
      assert ("," + tail)[1..] == tail && Ends("," + tail);
      assert item(s) == Some((read(first), "," + tail));
      ListReadsBack(text, item, read, next, rest, after);
    }
  }

  function Each<S, T>(f: S -> T, items: seq<S>): (r: seq<T>)
    ensures |r| == |items|
  {
    if items == [] then [] else [f(items[0])] + Each(f, items[1..])
  }

  /** The text of a list of members reads back as that list. */
  lemma MembersReadBack(first: Member, members: seq<Member>, after: string)
    ensures ParseMembers(MemberText(first) + MoreText(members) + ("}" + after))
         == Some(([ReceivedMember(first)] + Each(ReceivedMember, members), after))
  {
    forall m: Member, tail: string | Ends(tail)
      ensures MemberText(m) != "" && ParseMember(MemberText(m) + tail) == Some((ReceivedMember(m), tail))
    {
      MemberReadsBack(m, tail);
    }
    ListReadsBack(MemberText, ParseMember, ReceivedMember, first, members, after);
  }

  // ---------------------------------------------------------------- the record

  /** A log line's input. Request fields come as the calls that the application's fields
      make; macro pairs as the chunks in which their values are formatted. */
  datatype LogLine = LogLine(
    ts: string, level: string, audience: string,
    traceId: Option<string>, spanId: Option<string>, feature: Option<string>, functionName: Option<string>,
    request: seq<Member>, errorCode: Option<string>, errorCategory: Option<string>,
    additional: seq<(string, string)>, pairs: seq<(string, seq<string>)>,
    file: Option<string>, line: nat, hasLine: bool, message: string)

  function OptionalMember(key: string, value: Option<string>): seq<Member> {
    match value case None => [] case Some(s) => [(key, Str(s))]
  }

  function TextMembers(entries: seq<(string, string)>): seq<Member> {
    if entries == [] then []
    else TextMembers(entries[..|entries| - 1]) + [(entries[|entries| - 1].0, Str(entries[|entries| - 1].1))]
  }

  function ShownMembers(entries: seq<(string, seq<string>)>): seq<Member> {
    if entries == [] then []
    else ShownMembers(entries[..|entries| - 1]) + [(entries[|entries| - 1].0, Shown(entries[|entries| - 1].1))]
  }

  function LocationMembers(l: LogLine): seq<Member> {
    if l.file.None? then []
    else if l.hasLine then [("file", Str(l.file.value))] + [("line", Number(l.line))]
    else [("file", Str(l.file.value))]
  }

  function HeadMembers(l: LogLine): seq<Member> {
    [("level", Str(l.level)), ("audience", Str(l.audience))]
  }

  function ContextMembers(l: LogLine): seq<Member> {
    OptionalMember("trace_id", l.traceId) + OptionalMember("span_id", l.spanId)
      + OptionalMember("feature", l.feature) + OptionalMember("fn", l.functionName)
  }

  function ErrorMembers(l: LogLine): seq<Member> {
    OptionalMember("error_code", l.errorCode) + OptionalMember("error_category", l.errorCategory)
  }

  function MetadataMembers(l: LogLine): seq<Member> {
    TextMembers(l.additional) + ShownMembers(l.pairs) + LocationMembers(l) + [("msg", Str(l.message))]
  }

  /** Everything after the timestamp, in the order of the line. */
  function MembersOf(l: LogLine): seq<Member> {
    HeadMembers(l) + ContextMembers(l) + l.request + ErrorMembers(l) + MetadataMembers(l)
  }

  function LineText(l: LogLine): string {
    "{" + MemberText(("ts", Str(l.ts))) + MoreText(MembersOf(l)) + "}"
  }

  /** Level, audience and timestamp are pushed as they are. */
  predicate PlainHead(l: LogLine) {
    !NeedsEscape(AsBytes(l.ts)) && !NeedsEscape(AsBytes(l.level)) && !NeedsEscape(AsBytes(l.audience))
  }

  // ---------------------------------------------------------------- the writer

  method WriteEscaped(buf: TextBuffer, s: string)
    modifies buf
    ensures buf.text == old(buf.text) + Escaped(s)
  {
    var bytes := AsBytes(s);
    if NeedsEscape(bytes) {
      WriteBytes(buf, bytes);
    } else {
      buf.Push(s);
    }
  }

  /** The slow path: one byte at a time, whatever character it belongs to. */
  method WriteBytes(buf: TextBuffer, bytes: seq<byte>)
    modifies buf
    ensures buf.text == old(buf.text) + EscapeBytes(bytes)
  {
    for i := 0 to |bytes|
      invariant buf.text == old(buf.text) + EscapeBytes(bytes[..i])
    {
      EscapeOneMore(bytes, i);
      Onto(old(buf.text), EscapeBytes(bytes[..i]), EscapeByte(bytes[i]));
      buf.Push(EscapeByte(bytes[i]));
    }
    assert bytes[..|bytes|] == bytes;
  }

  lemma EscapeOneMore(bytes: seq<byte>, i: nat)
    requires i < |bytes|
    ensures EscapeBytes(bytes[..i + 1]) == EscapeBytes(bytes[..i]) + EscapeByte(bytes[i])
  {
    EscapeConcat(bytes[..i], [bytes[i]]);
    assert bytes[..i + 1] == bytes[..i] + [bytes[i]];
    assert EscapeBytes([bytes[i]]) == EscapeByte(bytes[i]) + EscapeBytes([]);
  }

  lemma MoreTextOne(m: Member)
    ensures MoreText([m]) == "," + MemberText(m)
  {
    CommasCons(MemberText, m, []);
    assert [m] + [] == [m];
    assert "," + MemberText(m) + "" == "," + MemberText(m);
  }

  lemma {:induction false} CommasConcat<T>(text: T -> string, a: seq<T>, b: seq<T>)
    ensures Commas(text, a + b) == Commas(text, a) + Commas(text, b)
  {
    if b == [] {
      assert a + b == a;
    } else {
      assert (a + b)[..|a + b| - 1] == a + b[..|b| - 1];
      CommasConcat(text, a, b[..|b| - 1]);
    }
  }

  lemma Quoted(before: string, key: string, v: FieldValue, inner: string)
    requires ValueText(v) == "\"" + (inner + "\"")
    ensures before + "," + ("\"" + (Escaped(key) + "\":")) + "\"" + inner + "\""
        == before + ("," + MemberText((key, v)))
  {
    Regroup(before, "\"" + (Escaped(key) + "\":"), inner);
  }

  lemma Unquoted(before: string, key: string, v: FieldValue, text: string)
    requires ValueText(v) == text
    ensures before + "," + ("\"" + (Escaped(key) + "\":")) + text == before + ("," + MemberText((key, v)))
  {
    RegroupUnquoted(before, "\"" + (Escaped(key) + "\":"), text);
  }

  lemma RegroupUnquoted(before: string, key: string, text: string)
    ensures before + "," + key + text == before + ("," + (key + text))
  {
  }

  lemma Regroup(before: string, key: string, inner: string)
    ensures before + "," + key + "\"" + inner + "\"" == before + ("," + (key + ("\"" + (inner + "\""))))
  {
  }

  lemma MoreTextOneMore(members: seq<Member>, m: Member)
    ensures MoreText(members + [m]) == MoreText(members) + MoreText([m])
  {
    CommasConcat(MemberText, members, [m]);
  }

  lemma Onto(before: string, a: string, b: string)
    ensures before + a + b == before + (a + b)
  {
  }

  /** Appends members to the object under construction. */
  class JsonFieldWriter {
    const buf: TextBuffer

    constructor (buf: TextBuffer)
      ensures this.buf == buf
    {
      this.buf := buf;
    }

    /** The comma, the quoted key, the colon. */
    method WriteKey(key: string)
      modifies buf
      ensures buf.text == old(buf.text) + "," + ("\"" + (Escaped(key) + "\":"))
    {
      buf.Push(",\"");
      WriteEscaped(buf, key);
      buf.Push("\":");
      assert ",\"" == "," + "\"";
    }

    method WriteStr(key: string, value: string)
      modifies buf
      ensures buf.text == old(buf.text) + MoreText([(key, Str(value))])
    {
      MoreTextOne((key, Str(value)));
      Quoted(buf.text, key, Str(value), Escaped(value));
      WriteKey(key);
      buf.Push("\"");
      WriteEscaped(buf, value);
      buf.Push("\"");
    }

    method WriteNumber(key: string, value: int)
      modifies buf
      ensures buf.text == old(buf.text) + MoreText([(key, Number(value))])
    {
      MoreTextOne((key, Number(value)));
      Unquoted(buf.text, key, Number(value), NumberText(value));
      WriteKey(key);
      buf.Push(NumberText(value));
    }

    method WriteBool(key: string, value: bool)
      modifies buf
      ensures buf.text == old(buf.text) + MoreText([(key, Flag(value))])
    {
      var text := if value then "true" else "false";
      MoreTextOne((key, Flag(value)));
      Unquoted(buf.text, key, Flag(value), text);
      WriteKey(key);
      buf.Push(text);
    }

    /** Each chunk that the formatter hands over is escaped on its own. */
    method WriteDisplay(key: string, chunks: seq<string>)
      modifies buf
      ensures buf.text == old(buf.text) + MoreText([(key, Shown(chunks))])
    {
      MoreTextOne((key, Shown(chunks)));
      Quoted(buf.text, key, Shown(chunks), EscapedChunks(chunks));
      WriteKey(key);
      buf.Push("\"");
      WriteChunks(buf, chunks);
      buf.Push("\"");
    }
  }

  method WriteChunks(buf: TextBuffer, chunks: seq<string>)
    modifies buf
    ensures buf.text == old(buf.text) + EscapedChunks(chunks)
  {
    for i := 0 to |chunks|
      invariant buf.text == old(buf.text) + EscapedChunks(chunks[..i])
    {
      OneMoreChunk(chunks[..i], chunks[i]);
      assert chunks[..i + 1] == chunks[..i] + [chunks[i]];
      Onto(old(buf.text), EscapedChunks(chunks[..i]), Escaped(chunks[i]));
      WriteEscaped(buf, chunks[i]);
    }
    assert chunks[..|chunks|] == chunks;
  }

  lemma {:induction false} OneMoreChunk(chunks: seq<string>, chunk: string)
    ensures EscapedChunks(chunks + [chunk]) == EscapedChunks(chunks) + Escaped(chunk)
  {
    if chunks == [] {
      assert chunks + [chunk] == [chunk];
      assert [chunk][1..] == [];
    } else {
      assert (chunks + [chunk])[1..] == chunks[1..] + [chunk];
      OneMoreChunk(chunks[1..], chunk);
    }
  }

  /** A member whose key is a literal of the code, pushed as it is. */
  method WriteLiteral(buf: TextBuffer, key: string, value: string)
    requires !NeedsEscape(AsBytes(key))
    modifies buf
    ensures buf.text == old(buf.text) + MoreText([(key, Str(value))])
  {
    MoreTextOne((key, Str(value)));
    Quoted(buf.text, key, Str(value), Escaped(value));
    buf.Push(",\"");
    buf.Push(key);
    buf.Push("\":\"");
    WriteEscaped(buf, value);
    buf.Push("\"");
    LiteralPieces(old(buf.text), key, Escaped(value));
  }

  lemma LiteralPieces(before: string, key: string, inner: string)
    ensures before + ",\"" + key + "\":\"" + inner + "\"" == before + "," + ("\"" + (key + "\":")) + "\"" + inner + "\""
  {
  }

  method WriteOptional(buf: TextBuffer, key: string, value: Option<string>)
    requires !NeedsEscape(AsBytes(key))
    modifies buf
    ensures buf.text == old(buf.text) + MoreText(OptionalMember(key, value))
  {
    if value.Some? {
      WriteLiteral(buf, key, value.value);
    }
  }

  /** The calls that the application's request fields make. */
  method WriteRequest(buf: TextBuffer, request: seq<Member>)
    modifies buf
    ensures buf.text == old(buf.text) + MoreText(request)
  {
    var w := new JsonFieldWriter(buf);
    for i := 0 to |request|
      invariant buf.text == old(buf.text) + MoreText(request[..i])
    {
      MoreTextOneMore(request[..i], request[i]);
      assert request[..i + 1] == request[..i] + [request[i]];
      Onto(old(buf.text), MoreText(request[..i]), MoreText([request[i]]));
      match request[i].1
      case Str(s) => w.WriteStr(request[i].0, s);
      case Number(n) => w.WriteNumber(request[i].0, n);
      case Flag(b) => w.WriteBool(request[i].0, b);
      case Shown(chunks) => w.WriteDisplay(request[i].0, chunks);
    }
    assert request[..|request|] == request;
  }

  method WriteAdditional(buf: TextBuffer, entries: seq<(string, string)>)
    modifies buf
    ensures buf.text == old(buf.text) + MoreText(TextMembers(entries))
  {
    var w := new JsonFieldWriter(buf);
    for i := 0 to |entries|
      invariant buf.text == old(buf.text) + MoreText(TextMembers(entries[..i]))
    {
      assert entries[..i + 1][..i] == entries[..i];
      var m := (entries[i].0, Str(entries[i].1));
      MoreTextOneMore(TextMembers(entries[..i]), m);
      Onto(old(buf.text), MoreText(TextMembers(entries[..i])), MoreText([m]));
      w.WriteStr(entries[i].0, entries[i].1);
    }
    assert entries[..|entries|] == entries;
  }

  method WritePairs(buf: TextBuffer, entries: seq<(string, seq<string>)>)
    modifies buf
    ensures buf.text == old(buf.text) + MoreText(ShownMembers(entries))
  {
    var w := new JsonFieldWriter(buf);
    for i := 0 to |entries|
      invariant buf.text == old(buf.text) + MoreText(ShownMembers(entries[..i]))
    {
      assert entries[..i + 1][..i] == entries[..i];
      var m := (entries[i].0, Shown(entries[i].1));
      MoreTextOneMore(ShownMembers(entries[..i]), m);
      Onto(old(buf.text), MoreText(ShownMembers(entries[..i])), MoreText([m]));
      w.WriteDisplay(entries[i].0, entries[i].1);
    }
    assert entries[..|entries|] == entries;
  }

  /** Letters and underscores need no escaping. */
  lemma {:induction false} LettersArePlain(key: string)
    requires forall i :: 0 <= i < |key| ==> 'a' <= key[i] <= 'z' || key[i] == '_'
    ensures !NeedsEscape(AsBytes(key))
  {
    if key != "" {
      LettersArePlain(key[1..]);
      NeedsConcat(Utf8(key[0]), AsBytes(key[1..]));
    }
  }

  /** The opening brace and the three members that every line has, keys and values as they are. */
  method WriteHead(buf: TextBuffer, l: LogLine)
    requires PlainHead(l)
    modifies buf
    ensures buf.text == old(buf.text) + ("{" + MemberText(("ts", Str(l.ts)))
      + MoreText(HeadMembers(l)))
  {
    LettersArePlain("ts");
    LettersArePlain("level");
    LettersArePlain("audience");
    buf.Push("{\"ts\":\"");
    buf.Push(l.ts);
    buf.Push("\",\"level\":\"");
    buf.Push(l.level);
    buf.Push("\",\"audience\":\"");
    buf.Push(l.audience);
    buf.Push("\"");
    HeadText(old(buf.text), l);
  }

  lemma HeadText(before: string, l: LogLine)
    requires PlainHead(l) && !NeedsEscape(AsBytes("ts")) && !NeedsEscape(AsBytes("level"))
        && !NeedsEscape(AsBytes("audience"))
    ensures before + "{\"ts\":\"" + l.ts + "\",\"level\":\"" + l.level + "\",\"audience\":\"" + l.audience + "\""
         == before + ("{" + MemberText(("ts", Str(l.ts)))
             + MoreText([("level", Str(l.level)), ("audience", Str(l.audience))]))
  {
    var level, audience: Member := ("level", Str(l.level)), ("audience", Str(l.audience));
    MoreTextOneMore([level], audience);
    assert [level] + [audience] == [level, audience];
    MoreTextOne(level);
    MoreTextOne(audience);
    PlainMember("ts", l.ts);
    PlainMember("level", l.level);
    PlainMember("audience", l.audience);
    HeadPieces(before, l.ts, l.level, l.audience);
  }

  lemma PlainMember(key: string, value: string)
    requires !NeedsEscape(AsBytes(key)) && !NeedsEscape(AsBytes(value))
    ensures MemberText((key, Str(value))) == "\"" + key + "\":\"" + value + "\""
  {
    MemberPieces(key, value);
  }

  lemma MemberPieces(key: string, value: string)
    ensures "\"" + (key + "\":") + ("\"" + (value + "\"")) == "\"" + key + "\":\"" + value + "\""
  {
  }

  lemma HeadPieces(before: string, ts: string, level: string, audience: string)
    ensures before + "{\"ts\":\"" + ts + "\",\"level\":\"" + level + "\",\"audience\":\"" + audience + "\""
         == before + ("{" + ("\"" + "ts" + "\":\"" + ts + "\"")
              + (("," + ("\"" + "level" + "\":\"" + level + "\"")) + (","
                  + ("\"" + "audience" + "\":\"" + audience + "\""))))
  {
  }

  method WriteLocation(buf: TextBuffer, l: LogLine)
    modifies buf
    ensures buf.text == old(buf.text) + MoreText(LocationMembers(l))
  {
    if l.file.Some? {
      LettersArePlain("file");
      WriteLiteral(buf, "file", l.file.value);
      if l.hasLine {
        var file: seq<Member> := [("file", Str(l.file.value))];
        MoreTextOneMore(file, ("line", Number(l.line)));
        WriteLineNumber(buf, l.line);
        Onto(old(buf.text), MoreText(file), MoreText([("line", Number(l.line))]));
      }
    }
  }

  method WriteLineNumber(buf: TextBuffer, line: nat)
    modifies buf
    ensures buf.text == old(buf.text) + MoreText([("line", Number(line))])
  {
    LettersArePlain("line");
    MoreTextOne(("line", Number(line)));
    assert ",\"line\":" == "," + ("\"" + ("line" + "\":"));
    buf.Push(",\"line\":");
    buf.Push(NumberText(line));
  }

  method WriteContext(buf: TextBuffer, l: LogLine)
    modifies buf
    ensures buf.text == old(buf.text) + MoreText(ContextMembers(l))
  {
    LettersArePlain("trace_id");
    LettersArePlain("span_id");
    LettersArePlain("feature");
    LettersArePlain("fn");
    WriteOptional(buf, "trace_id", l.traceId);
    WriteOptional(buf, "span_id", l.spanId);
    WriteOptional(buf, "feature", l.feature);
    WriteOptional(buf, "fn", l.functionName);
    var a, b := OptionalMember("trace_id", l.traceId), OptionalMember("span_id", l.spanId);
    var c, d := OptionalMember("feature", l.feature), OptionalMember("fn", l.functionName);
    MoreTextFour(a, b, c, d);
    OntoFour(old(buf.text), MoreText(a), MoreText(b), MoreText(c), MoreText(d));
  }

  lemma MoreTextFour(a: seq<Member>, b: seq<Member>, c: seq<Member>, d: seq<Member>)
    ensures MoreText(a + b + c + d) == MoreText(a) + MoreText(b) + MoreText(c) + MoreText(d)
  {
    CommasConcat(MemberText, a + b + c, d);
    CommasConcat(MemberText, a + b, c);
    CommasConcat(MemberText, a, b);
  }

  lemma OntoFour(before: string, a: string, b: string, c: string, d: string)
    ensures before + a + b + c + d == before + (a + b + c + d)
  {
  }

  method WriteErrors(buf: TextBuffer, l: LogLine)
    modifies buf
    ensures buf.text == old(buf.text) + MoreText(ErrorMembers(l))
  {
    LettersArePlain("error_code");
    LettersArePlain("error_category");
    WriteOptional(buf, "error_code", l.errorCode);
    WriteOptional(buf, "error_category", l.errorCategory);
    var a, b := OptionalMember("error_code", l.errorCode), OptionalMember("error_category", l.errorCategory);
    CommasConcat(MemberText, a, b);
    Onto(old(buf.text), MoreText(a), MoreText(b));
  }

  method WriteMetadata(buf: TextBuffer, l: LogLine)
    modifies buf
    ensures buf.text == old(buf.text) + MoreText(MetadataMembers(l))
  {
    WriteAdditional(buf, l.additional);
    WritePairs(buf, l.pairs);
    WriteLocation(buf, l);
    LettersArePlain("msg");
    WriteLiteral(buf, "msg", l.message);
    var a, b, c, d := TextMembers(l.additional), ShownMembers(l.pairs), LocationMembers(l), [("msg", Str(l.message))];
    MoreTextFour(a, b, c, d);
    OntoFour(old(buf.text), MoreText(a), MoreText(b), MoreText(c), MoreText(d));
  }

  /** Writes one complete log line. */
  method WriteJsonDirect(buf: TextBuffer, l: LogLine)
    requires PlainHead(l)
    modifies buf
    ensures buf.text == old(buf.text) + LineText(l)
  {
    WriteHead(buf, l);
    WriteContext(buf, l);
    WriteRequest(buf, l.request);
    WriteErrors(buf, l);
    WriteMetadata(buf, l);
    buf.Push("}");
    LinePieces(old(buf.text), l);
  }

  lemma LinePieces(before: string, l: LogLine)
    ensures before + ("{" + MemberText(("ts", Str(l.ts))) + MoreText(HeadMembers(l)))
              + MoreText(ContextMembers(l)) + MoreText(l.request) + MoreText(ErrorMembers(l))
                  + MoreText(MetadataMembers(l)) + "}"
         == before + LineText(l)
  {
    var a, b, c, d := HeadMembers(l), ContextMembers(l), l.request, ErrorMembers(l);
    MoreTextFour(a, b, c, d);
    CommasConcat(MemberText, a + b + c + d, MetadataMembers(l));
    OntoLine(before, MemberText(("ts", Str(l.ts))), MoreText(a), MoreText(b), MoreText(c), MoreText(d),
        MoreText(MetadataMembers(l)));
  }

  lemma OntoLine(before: string, first: string, a: string, b: string, c: string, d: string, e: string)
    ensures before + ("{" + first + a) + b + c + d + e + "}" == before + ("{" + first + (a + b + c + d + e) + "}")
  {
  }

  // ---------------------------------------------------------------- the line as a whole

  /** Every line is one JSON object. Read back, it has exactly the members that were written,
      in order, each text as its reader receives it. */
  lemma LineReadsBack(l: LogLine)
    ensures ParseObject(LineText(l)) == Some([ReceivedMember(("ts", Str(l.ts)))] + Each(ReceivedMember, MembersOf(l)))
  {
    MembersReadBack(("ts", Str(l.ts)), MembersOf(l), "");
    ObjectOf(MemberText(("ts", Str(l.ts))), MoreText(MembersOf(l)),
             [ReceivedMember(("ts", Str(l.ts)))] + Each(ReceivedMember, MembersOf(l)));
  }

  lemma ObjectOf(first: string, more: string, members: seq<(string, JsonValue)>)
    requires first != "" && ParseMembers(first + more + ("}" + "")) == Some((members, ""))
    ensures ParseObject("{" + first + more + "}") == Some(members)
  {
    var s := "{" + first + more + "}";
    assert s[1..] == first + more + ("}" + "");
  }

  predicate Safe(s: string) {
    Ascii(s) || Plain(s)
  }

  predicate SafeMember(m: Member) {
    Safe(m.0) && match m.1
                 case Str(s) => Safe(s)
                 case Shown(chunks) => forall i :: 0 <= i < |chunks| ==> Safe(chunks[i])
                 case _ => true
  }

  function MeantMember(m: Member): (string, JsonValue) {
    (m.0, Meaning(m.1))
  }

  lemma CarriedIffSafe(s: string)
    ensures Carried(s) == s <==> Safe(s)
    ensures |Carried(s)| >= |s| && (|Carried(s)| == |s| <==> Safe(s))
  {
    NeedsEscapeIffNotPlain(s);
    AsciiBytes(s);
  }

  lemma {:induction false} ChunksCarriedIffSafe(chunks: seq<string>)
    ensures |CarriedChunks(chunks)| >= |Join(chunks)|
    ensures |CarriedChunks(chunks)| == |Join(chunks)| ==> forall i :: 0 <= i < |chunks| ==> Safe(chunks[i])
    ensures (forall i :: 0 <= i < |chunks| ==> Safe(chunks[i])) ==> CarriedChunks(chunks) == Join(chunks)
  {
    if chunks != [] {
      ChunksCarriedIffSafe(chunks[1..]);
      CarriedIffSafe(chunks[0]);
      assert forall i :: 0 < i < |chunks| ==> chunks[i] == chunks[1..][i - 1];
      assert forall i :: 0 <= i < |chunks[1..]| ==> chunks[1..][i] == chunks[i + 1];
    }
  }

  lemma MemberKeptIffSafe(m: Member)
    ensures ReceivedMember(m) == MeantMember(m) <==> SafeMember(m)
  {
    CarriedIffSafe(m.0);
    match m.1
    case Str(s) => CarriedIffSafe(s);
    case Number(_) =>
    case Flag(_) =>
    case Shown(chunks) => ChunksCarriedIffSafe(chunks);
  }

  lemma {:induction false} MembersKeptIffSafe(members: seq<Member>)
    ensures Each(ReceivedMember, members) == Each(MeantMember, members) <==>
      forall i :: 0 <= i < |members| ==> SafeMember(members[i])
  {
    if members != [] {
      MembersKeptIffSafe(members[1..]);
      MemberKeptIffSafe(members[0]);
      var r, k := Each(ReceivedMember, members), Each(MeantMember, members);
      assert r[0] == ReceivedMember(members[0]) && k[0] == MeantMember(members[0]);
      assert r[1..] == Each(ReceivedMember, members[1..]) && k[1..] == Each(MeantMember, members[1..]);
      assert forall i :: 0 < i < |members| ==> members[i] == members[1..][i - 1];
      assert forall i :: 0 <= i < |members[1..]| ==> members[1..][i] == members[i + 1];
    }
  }

  /** The exact law of the log line. Reading it back gives exactly the ordered keys and values
      that were logged if and only if each text in it, and each chunk of formatted text, is
      ASCII or has nothing to escape. */
  lemma LineKeepsMeaningIffSafe(l: LogLine)
    requires PlainHead(l)
    ensures ParseObject(LineText(l)) == Some([("ts", JString(l.ts))] + Each(MeantMember, MembersOf(l))) <==>
      forall i :: 0 <= i < |MembersOf(l)| ==> SafeMember(MembersOf(l)[i])
  {
    MembersKeptIffSafe(MembersOf(l));
    LineReads(l);
    SameTail(("ts", JString(l.ts)), Each(ReceivedMember, MembersOf(l)), Each(MeantMember, MembersOf(l)));
  }

  /** The timestamp itself always comes back as it is. */
  lemma LineReads(l: LogLine)
    requires PlainHead(l)
    ensures ParseObject(LineText(l)) == Some([("ts", JString(l.ts))] + Each(ReceivedMember, MembersOf(l)))
  {
    assert ReceivedMember(("ts", Str(l.ts))) == ("ts", JString(l.ts)) by {
      LettersArePlain("ts");
      PlainReceived("ts", l.ts);
    }
    LineReadsBack(l);
  }

  lemma PlainReceived(key: string, value: string)
    requires !NeedsEscape(AsBytes(key)) && !NeedsEscape(AsBytes(value))
    ensures ReceivedMember((key, Str(value))) == (key, JString(value))
  {
  }

  lemma SameTail<T>(x: T, a: seq<T>, b: seq<T>)
    ensures [x] + a == [x] + b <==> a == b
  {
    assert ([x] + a)[1..] == a && ([x] + b)[1..] == b;
  }

  // ---------------------------------------------------------------- one line, named fields

  lemma {:induction false} ChunksArePrintable(chunks: seq<string>)
    ensures Printable(EscapedChunks(chunks))
  {
    if chunks != [] {
      EscapedIsPrintable(chunks[0]);
      ChunksArePrintable(chunks[1..]);
      PrintableConcat(Escaped(chunks[0]), EscapedChunks(chunks[1..]));
    }
  }

  lemma ValueIsPrintable(v: FieldValue)
    ensures Printable(ValueText(v))
  {
    match v
    case Str(s) => EscapedIsPrintable(s);
    case Number(n) => DecimalReadsBack(if n < 0 then -n else n);
    case Flag(_) =>
    case Shown(chunks) => ChunksArePrintable(chunks);
  }

  lemma MemberIsPrintable(m: Member)
    ensures Printable(MemberText(m))
  {
    EscapedIsPrintable(m.0);
    ValueIsPrintable(m.1);
    PrintableConcat("\"" + (Escaped(m.0) + "\":"), ValueText(m.1));
  }

  lemma {:induction false} MoreIsPrintable(members: seq<Member>)
    ensures Printable(MoreText(members))
  {
    if members != [] {
      var init, last := members[..|members| - 1], members[|members| - 1];
      MoreIsPrintable(init);
      MemberIsPrintable(last);
      PrintableConcat(MoreText(init), "," + MemberText(last));
    }
  }

  /** Whatever is logged, the record is one line: it contains no line break, nor any other
      control character. */
  lemma LineIsOneLine(l: LogLine)
    ensures forall c <- LineText(l) :: c as int >= 32
  {
    MemberIsPrintable(("ts", Str(l.ts)));
    MoreIsPrintable(MembersOf(l));
    PrintableConcat("{" + MemberText(("ts", Str(l.ts))), MoreText(MembersOf(l)));
    PrintableConcat("{" + MemberText(("ts", Str(l.ts))) + MoreText(MembersOf(l)), "}");
  }

  lemma {:induction false} EachHolds<S, T>(f: S -> T, items: seq<S>, x: S)
    requires x in items
    ensures f(x) in Each(f, items)
  {
    if x != items[0] {
      assert x in items[1..];
      EachHolds(f, items[1..], x);
    }
  }

  /** What a reader finds under a key. */
  predicate Found(received: seq<(string, JsonValue)>, key: string, text: Option<string>) {
    text.Some? ==> (key, JString(Carried(text.value))) in received
  }

  ghost predicate Receives(received: seq<(string, JsonValue)>, members: seq<Member>) {
    forall m <- members :: ReceivedMember(m) in received
  }

  lemma LineReceives(l: LogLine, received: seq<(string, JsonValue)>)
    requires PlainHead(l) && ParseObject(LineText(l)) == Some(received)
    ensures Receives(received, MembersOf(l))
  {
    LineReads(l);
    forall m | m in MembersOf(l)
      ensures ReceivedMember(m) in received
    {
      EachHolds(ReceivedMember, MembersOf(l), m);
    }
  }

  predicate WrittenUnder(members: seq<Member>, key: string, text: Option<string>) {
    text.Some? ==> (key, Str(text.value)) in members
  }

  predicate Letters(key: string) {
    forall i :: 0 <= i < |key| ==> 'a' <= key[i] <= 'z' || key[i] == '_'
  }

  lemma OptionalIsFound(received: seq<(string, JsonValue)>, members: seq<Member>, key: string, text: Option<string>)
    requires Receives(received, members) && WrittenUnder(members, key, text) && Letters(key)
    ensures Found(received, key, text)
  {
    LettersArePlain(key);
    if text.Some? {
      assert ReceivedMember((key, Str(text.value))) in received;
    }
  }

  lemma NumberIsFound(received: seq<(string, JsonValue)>, members: seq<Member>, key: string, n: int)
    requires Receives(received, members) && (key, Number(n)) in members && Letters(key)
    ensures (key, JNumber(n)) in received
  {
    LettersArePlain(key);
    assert ReceivedMember((key, Number(n))) in received;
  }

  lemma KeysAreLetters()
    ensures Letters("level") && Letters("audience") && Letters("trace_id") && Letters("span_id") && Letters("feature")
    ensures Letters("fn") && Letters("error_code") && Letters("error_category") && Letters("file") && Letters("line")
    ensures Letters("msg")
  {
  }

  lemma ContextIsWritten(l: LogLine)
    ensures WrittenUnder(MembersOf(l), "trace_id", l.traceId)
    ensures WrittenUnder(MembersOf(l), "span_id", l.spanId)
    ensures WrittenUnder(MembersOf(l), "feature", l.feature)
    ensures WrittenUnder(MembersOf(l), "fn", l.functionName)
  {
    assert forall m <- ContextMembers(l) :: m in MembersOf(l);
    assert l.traceId.Some? ==> ("trace_id", Str(l.traceId.value)) in ContextMembers(l);
    assert l.spanId.Some? ==> ("span_id", Str(l.spanId.value)) in ContextMembers(l);
    assert l.feature.Some? ==> ("feature", Str(l.feature.value)) in ContextMembers(l);
    assert l.functionName.Some? ==> ("fn", Str(l.functionName.value)) in ContextMembers(l);
  }

  lemma ErrorsAreWritten(l: LogLine)
    ensures WrittenUnder(MembersOf(l), "error_code", l.errorCode)
    ensures WrittenUnder(MembersOf(l), "error_category", l.errorCategory)
  {
    assert forall m <- ErrorMembers(l) :: m in MembersOf(l);
    assert l.errorCode.Some? ==> ("error_code", Str(l.errorCode.value)) in ErrorMembers(l);
    assert l.errorCategory.Some? ==> ("error_category", Str(l.errorCategory.value)) in ErrorMembers(l);
  }

  lemma MetadataIsWritten(l: LogLine)
    ensures WrittenUnder(MembersOf(l), "file", l.file)
    ensures l.file.Some? && l.hasLine ==> ("line", Number(l.line)) in MembersOf(l)
    ensures WrittenUnder(MembersOf(l), "msg", Some(l.message))
  {
    assert forall m <- MetadataMembers(l) :: m in MembersOf(l);
    assert forall m <- LocationMembers(l) :: m in MetadataMembers(l);
    assert ("msg", Str(l.message)) in MetadataMembers(l);
  }

  lemma HeadIsWritten(l: LogLine)
    ensures WrittenUnder(MembersOf(l), "level", Some(l.level))
    ensures WrittenUnder(MembersOf(l), "audience", Some(l.audience))
  {
    assert MembersOf(l)[0] == ("level", Str(l.level)) && MembersOf(l)[1] == ("audience", Str(l.audience));
  }

  ghost predicate AllWritten(l: LogLine, members: seq<Member>) {
    && WrittenUnder(members, "level", Some(l.level)) && WrittenUnder(members, "audience", Some(l.audience))
    && WrittenUnder(members, "trace_id", l.traceId) && WrittenUnder(members, "span_id", l.spanId)
    && WrittenUnder(members, "feature", l.feature) && WrittenUnder(members, "fn", l.functionName)
    && WrittenUnder(members, "error_code", l.errorCode) && WrittenUnder(members, "error_category", l.errorCategory)
    && WrittenUnder(members, "file", l.file) && WrittenUnder(members, "msg", Some(l.message))
    && (l.file.Some? && l.hasLine ==> ("line", Number(l.line)) in members)
  }

  lemma AllAreFound(l: LogLine, members: seq<Member>, received: seq<(string, JsonValue)>)
    requires Receives(received, members) && AllWritten(l, members)
    ensures Found(received, "level", Some(l.level)) && Found(received, "audience", Some(l.audience))
    ensures Found(received, "trace_id", l.traceId) && Found(received, "span_id", l.spanId)
    ensures Found(received, "feature", l.feature) && Found(received, "fn", l.functionName)
    ensures Found(received, "error_code", l.errorCode) && Found(received, "error_category", l.errorCategory)
    ensures Found(received, "file", l.file) && Found(received, "msg", Some(l.message))
    ensures l.file.Some? && l.hasLine ==> ("line", JNumber(l.line)) in received
  {
    KeysAreLetters();
    OptionalIsFound(received, members, "level", Some(l.level));
    OptionalIsFound(received, members, "audience", Some(l.audience));
    OptionalIsFound(received, members, "trace_id", l.traceId);
    OptionalIsFound(received, members, "span_id", l.spanId);
    OptionalIsFound(received, members, "feature", l.feature);
    OptionalIsFound(received, members, "fn", l.functionName);
    OptionalIsFound(received, members, "error_code", l.errorCode);
    OptionalIsFound(received, members, "error_category", l.errorCategory);
    OptionalIsFound(received, members, "file", l.file);
    OptionalIsFound(received, members, "msg", Some(l.message));
    if l.file.Some? && l.hasLine {
      NumberIsFound(received, members, "line", l.line);
    }
  }

  /** A reader finds every field of the record under its own key. */
  lemma FieldsUnderTheirKeys(l: LogLine, received: seq<(string, JsonValue)>)
    requires PlainHead(l) && ParseObject(LineText(l)) == Some(received)
    ensures Found(received, "level", Some(l.level)) && Found(received, "audience", Some(l.audience))
    ensures Found(received, "trace_id", l.traceId) && Found(received, "span_id", l.spanId)
    ensures Found(received, "feature", l.feature) && Found(received, "fn", l.functionName)
    ensures Found(received, "error_code", l.errorCode) && Found(received, "error_category", l.errorCategory)
    ensures Found(received, "file", l.file) && Found(received, "msg", Some(l.message))
    ensures l.file.Some? && l.hasLine ==> ("line", JNumber(l.line)) in received
  {
    var members := MembersOf(l);
    LineReceives(l, received);
    HeadIsWritten(l);
    ContextIsWritten(l);
    ErrorsAreWritten(l);
    MetadataIsWritten(l);
    AllAreFound(l, members, received);
  }

  /** However the formatter cuts its output into chunks, ASCII text is written the same. */
  lemma {:induction false} ChunkingIsInvisible(chunks: seq<string>)
    requires Ascii(Join(chunks))
    ensures EscapedChunks(chunks) == Escaped(Join(chunks))
  {
    if chunks != [] {
      var rest := Join(chunks[1..]);
      assert forall c <- chunks[0] :: c in Join(chunks);
      assert forall c <- rest :: c in Join(chunks);
      ChunkingIsInvisible(chunks[1..]);
      EscapeDistributes(chunks[0], rest);
    }
  }
}
