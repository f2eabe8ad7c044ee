/**
The part of the Protocol Buffers wire format that an export request uses:
Base 128 Varints and Length-Delimited Records, with field numbers below 16.
*/
module Protobuf {
  import opened Wrappers

  // ---------------------------------------------------------------- varints

  function EncodeVarint(n: nat): (s: seq<byte>)
    decreases n
  {
    if n < 128 then [n] else [n % 128 + 128] + EncodeVarint(n / 128)
  }

  /** Decodes one varint and returns the bytes that follow it. */
  function DecodeVarint(s: seq<byte>): (r: Option<(nat, seq<byte>)>)
    ensures r.Some? ==> |r.value.1| < |s|
  {
    if s == [] then None
    else if s[0] < 128 then Some((s[0], s[1..]))
    else
      match DecodeVarint(s[1..])
      case None => None
      case Some((high, rest)) => Some((high * 128 + (s[0] - 128), rest))
  }

  lemma {:induction false} VarintRoundTrip(n: nat, rest: seq<byte>)
    ensures DecodeVarint(EncodeVarint(n) + rest) == Some((n, rest))
  {
    var s := EncodeVarint(n) + rest;
    if n < 128 {
      assert s[1..] == rest;
    } else {
      VarintRoundTrip(n / 128, rest);
      assert s[1..] == EncodeVarint(n / 128) + rest;
    }
  }

  function Power128(k: nat): (p: nat)
    ensures p >= 1
  {
    if k == 0 then 1 else 128 * Power128(k - 1)
  }

  /** The encoder emits k bytes exactly for the values in [128^(k-1), 128^k), and one byte for zero. */
  lemma {:induction false} VarintWidth(n: nat)
    ensures |EncodeVarint(n)| >= 1
    ensures n < Power128(|EncodeVarint(n)|)
    ensures |EncodeVarint(n)| > 1 ==> n >= Power128(|EncodeVarint(n)| - 1)
    decreases n
  {
    if n >= 128 {
      VarintWidth(n / 128);
      assert n == 128 * (n / 128) + n % 128;
    } else {
      assert Power128(1) == 128 * Power128(0) == 128;
    }
  }

  lemma {:induction false} Power128Monotone(j: nat, k: nat)
    requires j <= k
    ensures Power128(j) <= Power128(k)
  {
    if j < k {
      Power128Monotone(j, k - 1);
    }
  }

  /** The varint length is the least k >= 1 with n < 128^k. */
  lemma VarintWidthIsLeast(n: nat, k: nat)
    requires k >= 1
    ensures n < Power128(k) <==> |EncodeVarint(n)| <= k
  {
    VarintWidth(n);
    var width := |EncodeVarint(n)|;
    if width <= k {
      Power128Monotone(width, k);
    } else {
      Power128Monotone(k, width - 1);
    }
  }

  lemma VarintWidthMonotone(m: nat, n: nat)
    requires m <= n
    ensures |EncodeVarint(m)| <= |EncodeVarint(n)|
  {
    VarintWidth(n);
    VarintWidthIsLeast(m, |EncodeVarint(n)|);
  }

  // ---------------------------------------------------------------- messages

  datatype Field = Field(number: nat, payload: seq<byte>) {
    predicate Valid() {
      1 <= number < 16
    }
  }

  const LENGTH_DELIMITED: nat := 2

  function EncodeField(f: Field): seq<byte>
    requires f.Valid()
  {
    [f.number * 8 + LENGTH_DELIMITED] + EncodeVarint(|f.payload|) + f.payload
  }

  function EncodeMessage(fields: seq<Field>): seq<byte>
    requires forall f <- fields :: f.Valid()
  {
    if fields == [] then [] else EncodeField(fields[0]) + EncodeMessage(fields[1..])
  }

  /** Reads a whole message of length-delimited records, or fails. */
  function ParseMessage(s: seq<byte>): Option<seq<Field>>
    decreases |s|
  {
    if s == [] then Some([])
    else if s[0] % 8 != LENGTH_DELIMITED || s[0] >= 128 || s[0] < 8 then None
    else
      match DecodeVarint(s[1..])
      case None => None
      case Some((length, rest)) =>
        if length > |rest| then None
        else
          match ParseMessage(rest[length..])
          case None => None
          case Some(tail) => Some([Field(s[0] / 8, rest[..length])] + tail)
  }

  lemma TagReads(n: nat)
    requires 1 <= n < 16
    ensures var tag := n * 8 + LENGTH_DELIMITED; tag % 8 == LENGTH_DELIMITED && 8 <= tag < 128 && tag / 8 == n
  {
  }

  lemma LengthReads(f: Field, tail: seq<byte>)
    requires f.Valid()
    ensures DecodeVarint((EncodeField(f) + tail)[1..]) == Some((|f.payload|, f.payload + tail))
  {
    VarintRoundTrip(|f.payload|, f.payload + tail);
    assert (EncodeField(f) + tail)[1..] == EncodeVarint(|f.payload|) + (f.payload + tail);
  }

  lemma ParseFirstField(f: Field, tail: seq<byte>, fields: seq<Field>)
    requires f.Valid()
    requires ParseMessage(tail) == Some(fields)
    ensures ParseMessage(EncodeField(f) + tail) == Some([f] + fields)
  {
    var s, rest := EncodeField(f) + tail, f.payload + tail;
    TagReads(f.number);
    LengthReads(f, tail);
    assert s[0] == f.number * 8 + LENGTH_DELIMITED;
    assert rest[|f.payload|..] == tail && rest[..|f.payload|] == f.payload;
  }

  lemma {:induction false} MessageRoundTrip(fields: seq<Field>)
    requires forall f <- fields :: f.Valid()
    ensures ParseMessage(EncodeMessage(fields)) == Some(fields)
  {
    if fields != [] {
      MessageRoundTrip(fields[1..]);
      ParseFirstField(fields[0], EncodeMessage(fields[1..]), fields[1..]);
      assert [fields[0]] + fields[1..] == fields;
    }
  }

  // ---------------------------------------------------------------- export request

  /** Field numbers of the OTLP logs messages. */
  const RESOURCE_LOGS: nat := 1
  const RESOURCE: nat := 1
  const SCOPE_LOGS: nat := 2
  const SCOPE: nat := 1
  const LOG_RECORDS: nat := 2

  datatype Request = Request(resource: seq<byte>, scope: seq<byte>, records: seq<seq<byte>>)

  function RecordFields(records: seq<seq<byte>>): (fs: seq<Field>)
    ensures |fs| == |records|
    ensures forall f <- fs :: f.Valid() && f.number == LOG_RECORDS
  {
    if records == [] then [] else [Field(LOG_RECORDS, records[0])] + RecordFields(records[1..])
  }

  function ScopeLogs(r: Request): seq<byte> {
    EncodeMessage([Field(SCOPE, r.scope)] + RecordFields(r.records))
  }

  function ResourceLogs(r: Request): seq<byte> {
    EncodeMessage([Field(RESOURCE, r.resource), Field(SCOPE_LOGS, ScopeLogs(r))])
  }

  /** One resource with one scope that holds every record, in order. */
  function EncodeRequest(r: Request): seq<byte> {
    EncodeMessage([Field(RESOURCE_LOGS, ResourceLogs(r))])
  }

  function Payloads(fs: seq<Field>): seq<seq<byte>> {
    if fs == [] then [] else [fs[0].payload] + Payloads(fs[1..])
  }

  function DecodeRequest(s: seq<byte>): Option<Request> {
    match ParseMessage(s)
    case None => None
    case Some(top) =>
      if |top| != 1 || top[0].number != RESOURCE_LOGS then None
      else
        match ParseMessage(top[0].payload)
        case None => None
        case Some(middle) =>
          if |middle| != 2 || middle[0].number != RESOURCE || middle[1].number != SCOPE_LOGS then None
          else
            match ParseMessage(middle[1].payload)
            case None => None
            case Some(inner) =>
              if |inner| == 0 || inner[0].number != SCOPE || exists f <- inner[1..] :: f.number != LOG_RECORDS then None
              else Some(Request(middle[0].payload, inner[0].payload, Payloads(inner[1..])))
  }

  /** The request on the wire decodes to exactly the records that were batched, in order. */
  lemma RequestRoundTrip(r: Request)
    ensures DecodeRequest(EncodeRequest(r)) == Some(r)
  {
    MessageRoundTrip([Field(RESOURCE_LOGS, ResourceLogs(r))]);
    MessageRoundTrip([Field(RESOURCE, r.resource), Field(SCOPE_LOGS, ScopeLogs(r))]);
    var inner := [Field(SCOPE, r.scope)] + RecordFields(r.records);
    MessageRoundTrip(inner);
    assert inner[1..] == RecordFields(r.records);
    PayloadsOfRecords(r.records);
  }

  lemma {:induction false} PayloadsOfRecords(records: seq<seq<byte>>)
    ensures Payloads(RecordFields(records)) == records
  {
    if records != [] {
      assert RecordFields(records)[1..] == RecordFields(records[1..]);
      PayloadsOfRecords(records[1..]);
    }
  }

  /** The wire format by its numbers: the messages carry their fields as length-delimited records
      under the field numbers of `logs_service.proto`, `logs.proto` and the messages within. */
  lemma WireNumbers(r: Request)
    ensures ParseMessage(EncodeRequest(r)) == Some([Field(1, ResourceLogs(r))])
    ensures ParseMessage(ResourceLogs(r)) == Some([Field(1, r.resource), Field(2, ScopeLogs(r))])
    ensures ParseMessage(ScopeLogs(r)).Some? && |ParseMessage(ScopeLogs(r)).value| == 1 + |r.records|
    ensures ParseMessage(ScopeLogs(r)).value[0] == Field(1, r.scope)
    ensures forall i :: 0 <= i < |r.records| ==> ParseMessage(ScopeLogs(r)).value[i + 1] == Field(2, r.records[i])
    ensures EncodeRequest(r)[0] == 0x0A && ResourceLogs(r)[0] == 0x0A && ScopeLogs(r)[0] == 0x0A
  {
    MessageRoundTrip([Field(RESOURCE_LOGS, ResourceLogs(r))]);
    MessageRoundTrip([Field(RESOURCE, r.resource), Field(SCOPE_LOGS, ScopeLogs(r))]);
    var inner := [Field(SCOPE, r.scope)] + RecordFields(r.records);
    MessageRoundTrip(inner);
    forall i | 0 <= i < |r.records|
      ensures inner[i + 1] == Field(2, r.records[i])
    {
      RecordFieldAt(r.records, i);
    }
  }

  lemma {:induction false} RecordFieldAt(records: seq<seq<byte>>, i: nat)
    requires i < |records|
    ensures RecordFields(records)[i] == Field(2, records[i])
  {
    if i > 0 {
      RecordFieldAt(records[1..], i - 1);
    }
  }
}
