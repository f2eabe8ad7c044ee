/** Greedy batch assembly under a byte limit and a record limit, with one parked record at most. */
module Batching {
  import opened Records
  import Sizing

  /** `predict` gives the size of a request from the accumulated size of its record fields. */
  datatype Limits = Limits(predict: nat -> nat, maxBytes: nat, maxRecords: nat) {

    predicate Within(total: nat) {
      predict(total) <= maxBytes
    }

    /** A record that no request can carry, not even alone. */
    predicate Oversize(log: QueuedLog) {
      !Within(FieldOf(log))
    }

    predicate Fits(logs: seq<QueuedLog>) {
      Within(Total(logs))
    }
  }

  function FieldOf(log: QueuedLog): nat {
    Sizing.FieldLen(log.size)
  }

  function Total(logs: seq<QueuedLog>): nat {
    Sizing.RecordsLen(EncodedSizes(logs))
  }

  function Kept(limits: Limits, logs: seq<QueuedLog>): seq<QueuedLog> {
    Filter((log: QueuedLog) => !limits.Oversize(log), logs)
  }

  function Refused(limits: Limits, logs: seq<QueuedLog>): seq<QueuedLog> {
    Filter((log: QueuedLog) => limits.Oversize(log), logs)
  }

  lemma TotalAppend(logs: seq<QueuedLog>, log: QueuedLog)
    ensures Total(logs + [log]) == Sizing.SaturatingAdd(Total(logs), FieldOf(log))
  {
    var sizes := EncodedSizes(logs + [log]);
    assert sizes[..|sizes| - 1] == EncodedSizes(logs);
  }

  lemma TotalOfOne(log: QueuedLog)
    ensures Total([log]) == FieldOf(log)
  {
    TotalAppend([], log);
    assert [] + [log] == [log];
    Sizing.FieldLenOfLength(log.size);
  }

  lemma KeptAppend(limits: Limits, logs: seq<QueuedLog>, log: QueuedLog)
    ensures Kept(limits, logs + [log]) == Kept(limits, logs) + (if limits.Oversize(log) then [] else [log])
    ensures Refused(limits, logs + [log]) == Refused(limits, logs) + (if limits.Oversize(log) then [log] else [])
  {
    assert (logs + [log])[..|logs + [log]| - 1] == logs;
  }

  /** Every record is kept or refused, and only once. */
  lemma {:induction false} KeptOrRefused(limits: Limits, logs: seq<QueuedLog>)
    ensures multiset(Kept(limits, logs)) + multiset(Refused(limits, logs)) == multiset(logs)
  {
    if logs != [] {
      var init, last := logs[..|logs| - 1], logs[|logs| - 1];
      KeptOrRefused(limits, init);
      KeptAppend(limits, init, last);
      assert logs == init + [last];
    }
  }

  lemma {:induction false} RefusedAreOversize(limits: Limits, logs: seq<QueuedLog>)
    ensures forall log <- Refused(limits, logs) :: limits.predict(FieldOf(log)) > limits.maxBytes
    ensures forall log <- Kept(limits, logs) :: limits.predict(FieldOf(log)) <= limits.maxBytes
  {
    if logs != [] {
      var init, last := logs[..|logs| - 1], logs[|logs| - 1];
      RefusedAreOversize(limits, init);
      KeptAppend(limits, init, last);
      assert logs == init + [last];
    }
  }

  /** Assembles one batch of `first` and records from `supply`: the parked record, if any, then
      what the receives of this batch return until one of them returns nothing. Consumes a
      prefix of the supply; of that prefix every record ends up in the batch, in order, or
      refused as oversize, or parked as the one that would have overflowed the batch.
      Assembly stops only at a limit or when the supply runs dry. */
  method Assemble(limits: Limits, first: QueuedLog, supply: seq<QueuedLog>)
    returns (batch: seq<QueuedLog>, refused: seq<QueuedLog>, parked: seq<QueuedLog>, taken: nat)
    ensures |parked| <= taken <= |supply| && |parked| <= 1
    ensures batch == Kept(limits, [first] + supply[..taken - |parked|])
    ensures refused == Refused(limits, [first] + supply[..taken - |parked|])
    ensures multiset(batch) + multiset(refused) + multiset(parked) == multiset([first] + supply[..taken])
    ensures limits.predict(FieldOf(first)) > limits.maxBytes ==> batch == [] && taken == 0
    ensures limits.predict(FieldOf(first)) <= limits.maxBytes ==>
      limits.predict(Total(batch)) <= limits.maxBytes && (|batch| == 1 || 1 < |batch| <= limits.maxRecords)
    ensures forall log <- refused :: limits.predict(FieldOf(log)) > limits.maxBytes
    ensures forall log <- batch :: limits.predict(FieldOf(log)) <= limits.maxBytes
    ensures parked != [] ==>
      && parked == [supply[taken - 1]] && limits.predict(FieldOf(parked[0])) <= limits.maxBytes
      && limits.predict(Total(batch + parked)) > limits.maxBytes
    ensures batch == [] || |batch| >= limits.maxRecords || parked != [] || taken == |supply|
  {
    if !limits.Within(FieldOf(first)) {
      StartsWith(limits, first);
      return [], [first], [], 0;
    }
    batch, refused, parked, taken := Fill(limits, first, supply);
    KeptOrRefused(limits, [first] + supply[..taken - |parked|]);
    RefusedAreOversize(limits, [first] + supply[..taken - |parked|]);
    assert [first] + supply[..taken] == [first] + supply[..taken - |parked|] + parked;
  }

  /** The loop. The running byte total is kept instead of being recomputed. */
  method Fill(limits: Limits, first: QueuedLog, supply: seq<QueuedLog>)
    returns (batch: seq<QueuedLog>, refused: seq<QueuedLog>, parked: seq<QueuedLog>, taken: nat)
    requires !limits.Oversize(first)
    ensures |parked| <= taken <= |supply| && |parked| <= 1
    ensures batch == Kept(limits, [first] + supply[..taken - |parked|])
    ensures refused == Refused(limits, [first] + supply[..taken - |parked|])
    ensures limits.Fits(batch) && (|batch| == 1 || 1 < |batch| <= limits.maxRecords)
    ensures parked != [] ==>
      parked == [supply[taken - 1]] && !limits.Oversize(parked[0]) && !limits.Fits(batch + parked)
    ensures |batch| >= limits.maxRecords || parked != [] || taken == |supply|
  {
    var total := FieldOf(first);
    batch, refused, parked, taken := [first], [], [], 0;
    TotalOfOne(first);
    StartsWith(limits, first);
    while |batch| < limits.maxRecords && taken < |supply|
      invariant taken <= |supply|
      invariant batch == Kept(limits, [first] + supply[..taken])
          && refused == Refused(limits, [first] + supply[..taken])
      invariant total == Total(batch) && limits.Within(total)
      invariant |batch| == 1 || 1 < |batch| <= limits.maxRecords
    {
      var log := supply[taken];
      taken := taken + 1;
      KeptAppend(limits, [first] + supply[..taken - 1], log);
      assert [first] + supply[..taken] == [first] + supply[..taken - 1] + [log];
      var len := FieldOf(log);
      if !limits.Within(len) {
        refused := refused + [log];
        continue;
      }
      TotalAppend(batch, log);
      var candidate := Sizing.SaturatingAdd(total, len);
      if !limits.Within(candidate) {
        parked := [log];
        return;
      }
      total := candidate;
      batch := batch + [log];
    }
  }

  lemma StartsWith(limits: Limits, first: QueuedLog)
    ensures Kept(limits, [first] + []) == if limits.Oversize(first) then [] else [first]
    ensures Refused(limits, [first] + []) == if limits.Oversize(first) then [first] else []
  {
    KeptAppend(limits, [], first);
    assert [] + [first] == [first] + [];
  }
}
