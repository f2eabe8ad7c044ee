/** What the collector said to the requests of a run, and what it amounts to. */
module Replies {
  import opened Records

  /** One answer of the collector to one request. */
  datatype Reply = Reply(records: seq<QueuedLog>, outcome: Outcome)

  /** The answer settles its request: it was taken, or it is a single record that was refused. */
  predicate Final(r: Reply) {
    r.outcome.Accepted? || (r.outcome.InvalidPayload? && |r.records| == 1)
  }

  function ExportedBy(r: Reply): int {
    if r.outcome.Accepted? then |r.records| - r.outcome.rejected else 0
  }

  function RejectedBy(r: Reply): int {
    match r.outcome
    case Accepted(rejected) => rejected
    case InvalidPayload => if |r.records| == 1 then 1 else 0
    case Retryable => 0
    case Permanent => 0
  }

  function TotalExported(replies: seq<Reply>): int {
    if replies == [] then 0 else TotalExported(replies[..|replies| - 1]) + ExportedBy(replies[|replies| - 1])
  }

  function TotalRejected(replies: seq<Reply>): int {
    if replies == [] then 0 else TotalRejected(replies[..|replies| - 1]) + RejectedBy(replies[|replies| - 1])
  }

  /** The records of the requests that were settled, in that order. */
  function FinalRecords(replies: seq<Reply>): seq<QueuedLog> {
    if replies == [] then []
    else
      FinalRecords(replies[..|replies| - 1])
        + (if Final(replies[|replies| - 1]) then replies[|replies| - 1].records else [])
  }

  lemma OneMore(replies: seq<Reply>, r: Reply)
    ensures TotalExported(replies + [r]) == TotalExported(replies) + ExportedBy(r)
    ensures TotalRejected(replies + [r]) == TotalRejected(replies) + RejectedBy(r)
    ensures FinalRecords(replies + [r]) == FinalRecords(replies) + (if Final(r) then r.records else [])
  {
    assert (replies + [r])[..|replies|] == replies;
  }

  lemma {:induction false} FinalMember(replies: seq<Reply>, log: QueuedLog)
    ensures log in FinalRecords(replies) <==> exists r <- replies :: Final(r) && log in r.records
  {
    if replies != [] {
      var init, last := replies[..|replies| - 1], replies[|replies| - 1];
      FinalMember(init, log);
      assert replies == init + [last];
    }
  }

  // ---------------------------------------------------------------- one request after another

  /** What is sent after an answer that settles nothing. */
  predicate FollowedBy(r: Reply, next: seq<QueuedLog>) {
    && (r.outcome.Retryable? ==> next == r.records)
    && (r.outcome.InvalidPayload? && |r.records| != 1 ==> next == r.records[..|r.records| / 2])
    && !r.outcome.Permanent?
  }

  ghost predicate Chained(replies: seq<Reply>) {
    |replies| < 2
    || (Chained(replies[..|replies| - 1])
        && FollowedBy(replies[|replies| - 2], replies[|replies| - 1].records))
  }

  lemma ChainedOn(replies: seq<Reply>, r: Reply)
    requires Chained(replies) && (replies == [] || FollowedBy(replies[|replies| - 1], r.records))
    ensures Chained(replies + [r])
  {
    assert (replies + [r])[..|replies|] == replies;
  }

  lemma {:induction false} ChainedAt(replies: seq<Reply>, i: nat)
    requires Chained(replies) && 0 < i < |replies|
    ensures FollowedBy(replies[i - 1], replies[i].records)
  {
    if i < |replies| - 1 {
      ChainedAt(replies[..|replies| - 1], i);
    }
  }
}
