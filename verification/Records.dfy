/** Queued log records and the pair of queues that a producer lane holds. */
module Records {

  const U64_MAX: nat := 0xFFFF_FFFF_FFFF_FFFF

  /** Acceptance tickets are 64-bit; the first one issued is 1. */
  type Ticket = t: nat | t <= U64_MAX

  datatype QueueKind = Normal | Reserved

  /** A queued record: the thread that logged it, the queue it was admitted to, its
      estimated size in memory, its acceptance ticket, and its encoded size. */
  datatype QueuedLog = QueuedLog(owner: nat, queue: QueueKind, bytes: nat, ticket: Ticket, size: nat)

  datatype LaneQueues = LaneQueues(normal: seq<QueuedLog>, reserved: seq<QueuedLog>) {

    function Of(kind: QueueKind): seq<QueuedLog> {
      if kind.Normal? then normal else reserved
    }

    function With(kind: QueueKind, q: seq<QueuedLog>): LaneQueues {
      if kind.Normal? then this.(normal := q) else this.(reserved := q)
    }

    function Push(log: QueuedLog): LaneQueues {
      With(log.queue, Of(log.queue) + [log])
    }

    predicate IsEmpty() {
      normal == [] && reserved == []
    }
  }

  const EMPTY_QUEUES := LaneQueues([], [])

  function EncodedSizes(logs: seq<QueuedLog>): (r: seq<nat>)
    ensures |r| == |logs|
  {
    seq(|logs|, i requires 0 <= i < |logs| => logs[i].size)
  }

  function Filter<T>(p: T -> bool, s: seq<T>): seq<T> {
    if s == [] then []
    else if p(s[|s| - 1]) then Filter(p, s[..|s| - 1]) + [s[|s| - 1]]
    else Filter(p, s[..|s| - 1])
  }

  lemma {:induction false} FilterConcat<T>(p: T -> bool, a: seq<T>, b: seq<T>)
    ensures Filter(p, a + b) == Filter(p, a) + Filter(p, b)
  {
    if b == [] {
      assert a + b == a;
    } else {
      assert (a + b)[..|a + b| - 1] == a + b[..|b| - 1];
      FilterConcat(p, a, b[..|b| - 1]);
    }
  }

  lemma {:induction false} FilterNone<T>(p: T -> bool, s: seq<T>)
    requires forall x <- s :: !p(x)
    ensures Filter(p, s) == []
  {
    if s != [] {
      FilterNone(p, s[..|s| - 1]);
    }
  }

  lemma FilterOne<T>(p: T -> bool, x: T)
    ensures Filter(p, [x]) == if p(x) then [x] else []
  {
    assert [x][..|[x]| - 1] == [];
    assert Filter(p, []) == [];
  }

  lemma SplitAt<T>(s: seq<T>, i: nat)
    requires i < |s|
    ensures s == s[..i] + [s[i]] + s[i + 1..]
  {
  }

  // ---------------------------------------------------------------- delivery

  /** One answer of the collector to a request; a request is accepted as a whole or in part. */
  datatype Outcome = Accepted(rejected: nat) | InvalidPayload | Retryable | Permanent

  /** A stack read from its top segment down. */
  function TopDown(stack: seq<seq<QueuedLog>>): seq<QueuedLog> {
    if stack == [] then [] else stack[|stack| - 1] + TopDown(stack[..|stack| - 1])
  }

  lemma TopDownPush(stack: seq<seq<QueuedLog>>, segment: seq<QueuedLog>)
    ensures TopDown(stack + [segment]) == segment + TopDown(stack)
  {
    assert (stack + [segment])[..|stack|] == stack;
  }

  predicate NoneEmpty(stack: seq<seq<QueuedLog>>) {
    forall i :: 0 <= i < |stack| ==> stack[i] != []
  }

  /** `split_records`: the left half ends up on top of the right half. */
  function Split(records: seq<QueuedLog>): seq<seq<QueuedLog>> {
    [records[|records| / 2..], records[..|records| / 2]]
  }

  /** Bisection keeps the order in which records are read off the stack. */
  lemma SplitKeepsOrder(stack: seq<seq<QueuedLog>>, records: seq<QueuedLog>)
    ensures TopDown(stack + Split(records)) == records + TopDown(stack)
  {
    var half := |records| / 2;
    TopDownPush(stack, records[half..]);
    TopDownPush(stack + [records[half..]], records[..half]);
    assert stack + Split(records) == stack + [records[half..]] + [records[..half]];
    assert records == records[..half] + records[half..];
  }
}
