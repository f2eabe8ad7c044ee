/**
The size predictor that keeps every export request within the configured byte
limit without encoding it, and the proof that it predicts the real encoding.
*/
module Sizing {
  import opened Protobuf
  import opened Wrappers

  const USIZE_MAX: nat := 0xFFFF_FFFF_FFFF_FFFF

  function Saturate(n: nat): nat {
    if n <= USIZE_MAX then n else USIZE_MAX
  }

  function SaturatingAdd(a: nat, b: nat): nat {
    Saturate(a + b)
  }

  /** Counts the varint bytes by shifting seven bits at a time. */
  method VarintLen(value: nat) returns (encodedLen: nat)
    ensures encodedLen == |EncodeVarint(value)|
    ensures forall k: nat :: k >= 1 ==> (value < Power128(k) <==> encodedLen <= k)
  {
    var rest := value;
    encodedLen := 1;
    while rest >= 128
      invariant encodedLen + |EncodeVarint(rest)| == 1 + |EncodeVarint(value)|
    {
      rest := rest / 128;
      encodedLen := encodedLen + 1;
    }
    forall k: nat | k >= 1
      ensures value < Power128(k) <==> encodedLen <= k
    {
      VarintWidthIsLeast(value, k);
    }
  }

  /** Tag byte, length varint, payload. */
  function FieldLen(payloadLen: nat): nat {
    SaturatingAdd(SaturatingAdd(1, |EncodeVarint(payloadLen)|), payloadLen)
  }

  datatype Sizer = Sizer(resourceFieldLen: nat, scopeFieldLen: nat) {

    /** Predicted size of a whole request from the accumulated size of its record fields. */
    function EncodedLen(recordsEncodedLen: nat): nat {
      var scopeLogsLen := SaturatingAdd(scopeFieldLen, recordsEncodedLen);
      var resourceLogsLen := SaturatingAdd(resourceFieldLen, FieldLen(scopeLogsLen));
      FieldLen(resourceLogsLen)
    }
  }

  function NewSizer(resourceLen: nat, scopeLen: nat): Sizer {
    Sizer(FieldLen(resourceLen), FieldLen(scopeLen))
  }

  /** The running total that batching keeps for the record fields of a batch. */
  function RecordsLen(sizes: seq<nat>): nat {
    if sizes == [] then 0
    else SaturatingAdd(RecordsLen(sizes[..|sizes| - 1]), FieldLen(sizes[|sizes| - 1]))
  }

  function Sizes(records: seq<seq<byte>>): (r: seq<nat>)
    ensures |r| == |records|
  {
    seq(|records|, i requires 0 <= i < |records| => |records[i]|)
  }

  // ---------------------------------------------------------------- exactness

  function ExactFieldLen(payloadLen: nat): nat {
    1 + |EncodeVarint(payloadLen)| + payloadLen
  }

  function ExactRecordsLen(sizes: seq<nat>): nat {
    if sizes == [] then 0
    else ExactRecordsLen(sizes[..|sizes| - 1]) + ExactFieldLen(sizes[|sizes| - 1])
  }

  lemma FieldLenSaturates(n: nat)
    ensures FieldLen(Saturate(n)) == Saturate(ExactFieldLen(n))
  {
    VarintWidthMonotone(Saturate(n), n);
    VarintWidth(n);
    VarintWidth(Saturate(n));
  }

  lemma {:induction false} RecordsLenSaturates(sizes: seq<nat>)
    ensures RecordsLen(sizes) == Saturate(ExactRecordsLen(sizes))
  {
    if sizes != [] {
      RecordsLenSaturates(sizes[..|sizes| - 1]);
      VarintWidth(sizes[|sizes| - 1]);
    }
  }

  lemma {:induction false} MessageLenAppend(fields: seq<Field>, f: Field)
    requires f.Valid() && forall g <- fields :: g.Valid()
    ensures |EncodeMessage(fields + [f])| == |EncodeMessage(fields)| + ExactFieldLen(|f.payload|)
  {
    if fields == [] {
      assert EncodeMessage([f]) == EncodeField(f) + EncodeMessage([]);
    } else {
      assert (fields + [f])[1..] == fields[1..] + [f];
      MessageLenAppend(fields[1..], f);
    }
  }

  lemma {:induction false} RecordFieldsAppend(records: seq<seq<byte>>, r: seq<byte>)
    ensures RecordFields(records + [r]) == RecordFields(records) + [Field(LOG_RECORDS, r)]
  {
    if records == [] {
    } else {
      assert (records + [r])[1..] == records[1..] + [r];
      RecordFieldsAppend(records[1..], r);
    }
  }

  lemma {:induction false} ScopeLogsLen(r: Request)
    ensures |ScopeLogs(r)| == ExactFieldLen(|r.scope|) + ExactRecordsLen(Sizes(r.records))
    decreases |r.records|
  {
    var scope := Field(SCOPE, r.scope);
    if r.records == [] {
      MessageLenAppend([], scope);
      assert [scope] + RecordFields([]) == [] + [scope];
    } else {
      var init, last := r.records[..|r.records| - 1], r.records[|r.records| - 1];
      assert r.records == init + [last];
      RecordFieldsAppend(init, last);
      MessageLenAppend([scope] + RecordFields(init), Field(LOG_RECORDS, last));
      assert [scope] + RecordFields(r.records) == [scope] + RecordFields(init) + [Field(LOG_RECORDS, last)];
      ScopeLogsLen(r.(records := init));
      assert Sizes(r.records)[..|r.records| - 1] == Sizes(init);
    }
  }

  lemma RequestLen(r: Request)
    ensures |EncodeRequest(r)|
         == ExactFieldLen(ExactFieldLen(|r.resource|)
                          + ExactFieldLen(ExactFieldLen(|r.scope|) + ExactRecordsLen(Sizes(r.records))))
  {
    ScopeLogsLen(r);
    var a, b := Field(RESOURCE, r.resource), Field(SCOPE_LOGS, ScopeLogs(r));
    MessageLenAppend([], a);
    MessageLenAppend([a], b);
    assert [] + [a] == [a] && [a] + [b] == [a, b];
    var top := Field(RESOURCE_LOGS, ResourceLogs(r));
    MessageLenAppend([], top);
    assert [] + [top] == [top];
  }

  /** One nesting level: a sibling field followed by the nested payload. */
  lemma LevelSaturates(sibling: nat, payload: nat)
    ensures FieldLen(SaturatingAdd(Saturate(sibling), Saturate(payload))) == Saturate(ExactFieldLen(sibling + payload))
  {
    assert SaturatingAdd(Saturate(sibling), Saturate(payload)) == Saturate(sibling + payload);
    FieldLenSaturates(sibling + payload);
  }

  lemma EncodedLenSaturates(resourceLen: nat, scopeLen: nat, records: nat)
    ensures NewSizer(resourceLen, scopeLen).EncodedLen(Saturate(records))
         == Saturate(ExactFieldLen(ExactFieldLen(resourceLen) + ExactFieldLen(ExactFieldLen(scopeLen) + records)))
  {
    FieldLenOfLength(resourceLen);
    FieldLenOfLength(scopeLen);
    LevelSaturates(ExactFieldLen(scopeLen), records);
    LevelSaturates(ExactFieldLen(resourceLen), ExactFieldLen(ExactFieldLen(scopeLen) + records));
  }

  /** The prediction is the length of the real three-level encoding, capped at the machine word. */
  lemma PredictionIsExact(r: Request)
    ensures NewSizer(|r.resource|, |r.scope|).EncodedLen(RecordsLen(Sizes(r.records)))
         == if |EncodeRequest(r)| < 0x1_0000_0000_0000_0000 then |EncodeRequest(r)| else 0xFFFF_FFFF_FFFF_FFFF
  {
    var records := ExactRecordsLen(Sizes(r.records));
    assert RecordsLen(Sizes(r.records)) == Saturate(records) by { RecordsLenSaturates(Sizes(r.records)); }
    EncodedLenSaturates(|r.resource|, |r.scope|, records);
    RequestLen(r);
  }

  lemma FieldLenOfLength(n: nat)
    ensures FieldLen(n) == Saturate(ExactFieldLen(n))
  {
    VarintWidth(n);
  }

  // ---------------------------------------------------------------- monotonicity

  lemma FieldLenMonotone(m: nat, n: nat)
    requires m <= n
    ensures FieldLen(m) <= FieldLen(n)
  {
    VarintWidthMonotone(m, n);
  }

  /** A smaller payload never predicts a larger request, across every nested length prefix. */
  lemma EncodedLenMonotone(sizer: Sizer, m: nat, n: nat)
    requires m <= n
    ensures sizer.EncodedLen(m) <= sizer.EncodedLen(n)
  {
    var inM, inN := SaturatingAdd(sizer.scopeFieldLen, m), SaturatingAdd(sizer.scopeFieldLen, n);
    FieldLenMonotone(inM, inN);
    var outM := SaturatingAdd(sizer.resourceFieldLen, FieldLen(inM));
    var outN := SaturatingAdd(sizer.resourceFieldLen, FieldLen(inN));
    FieldLenMonotone(outM, outN);
  }

  lemma {:induction false} ExactRecordsLenConcat(a: seq<nat>, b: seq<nat>)
    ensures ExactRecordsLen(a + b) == ExactRecordsLen(a) + ExactRecordsLen(b)
  {
    if b == [] {
      assert a + b == a;
    } else {
      assert (a + b)[..|a + b| - 1] == a + b[..|b| - 1];
      ExactRecordsLenConcat(a, b[..|b| - 1]);
    }
  }

  lemma MiddleIsShorter(before: seq<nat>, piece: seq<nat>, after: seq<nat>, whole: seq<nat>)
    requires whole == before + piece + after
    ensures RecordsLen(piece) <= RecordsLen(whole)
  {
    ExactRecordsLenConcat(before + piece, after);
    ExactRecordsLenConcat(before, piece);
    RecordsLenSaturates(whole);
    RecordsLenSaturates(piece);
  }

  lemma InThreeParts(sizes: seq<nat>, i: nat, j: nat)
    requires i <= j <= |sizes|
    ensures sizes == sizes[..i] + sizes[i..j] + sizes[j..]
  {
  }

  lemma PieceIsShorter(sizes: seq<nat>, i: nat, j: nat)
    requires i <= j <= |sizes|
    ensures RecordsLen(sizes[i..j]) <= RecordsLen(sizes)
  {
    InThreeParts(sizes, i, j);
    MiddleIsShorter(sizes[..i], sizes[i..j], sizes[j..], sizes);
  }

  /** Any contiguous piece of a request that fits also fits: bisection never overflows the limit. */
  lemma PieceFits(sizer: Sizer, sizes: seq<nat>, i: nat, j: nat, limit: nat)
    requires i <= j <= |sizes|
    requires sizer.EncodedLen(RecordsLen(sizes)) <= limit
    ensures sizer.EncodedLen(RecordsLen(sizes[i..j])) <= limit
  {
    PieceIsShorter(sizes, i, j);
    EncodedLenMonotone(sizer, RecordsLen(sizes[i..j]), RecordsLen(sizes));
  }
}
