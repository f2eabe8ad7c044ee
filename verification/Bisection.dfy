/**
Delivery of one batch: an explicit stack of segments, retries, and bisection that isolates
records the collector will not take.
*/
module Bisection {
  import opened Records
  import opened Replies

  /** What the collector answers to the k-th request, carrying the given records. */
  type Collector = (nat, seq<QueuedLog>) -> Outcome

  /** Accepted and rejected add up to the request; only the first `patience` requests may be told to retry. */
  ghost predicate Honest(collector: Collector, patience: nat) {
    forall k: nat, records: seq<QueuedLog> ::
      && (collector(k, records).Accepted? ==> collector(k, records).rejected <= |records|)
      && (k >= patience ==> !collector(k, records).Retryable?)
  }

  datatype BatchResult = Complete | Terminal(retained: seq<seq<QueuedLog>>)

  function Has(poison: QueuedLog -> bool, records: seq<QueuedLog>): bool {
    exists log <- records :: poison(log)
  }

  /** The collector may ask for a retry, or give up for good, at any request. But whenever it gives
      a verdict, it refuses exactly the requests that carry a poison record, and takes all others whole. */
  ghost predicate RefusesExactly(collector: Collector, poison: QueuedLog -> bool) {
    forall k: nat, records: seq<QueuedLog> ::
      || collector(k, records).Retryable? || collector(k, records).Permanent?
      || collector(k, records) == if Has(poison, records) then InvalidPayload else Accepted(0)
  }

  // ---------------------------------------------------------------- cost

  lemma {:induction false} SegmentsFit(stack: seq<seq<QueuedLog>>)
    requires NoneEmpty(stack)
    ensures |TopDown(stack)| >= |stack|
  {
    if stack != [] {
      SegmentsFit(stack[..|stack| - 1]);
    }
  }

  /** Requests that bisection needs to isolate the poison records among `records`. */
  function Requests(poison: QueuedLog -> bool, records: seq<QueuedLog>): nat
    decreases |records|
  {
    if |records| <= 1 || !Has(poison, records) then 1
    else 1 + Requests(poison, records[..|records| / 2]) + Requests(poison, records[|records| / 2..])
  }

  function StackRequests(poison: QueuedLog -> bool, stack: seq<seq<QueuedLog>>): nat {
    if stack == [] then 0 else StackRequests(poison, stack[..|stack| - 1]) + Requests(poison, stack[|stack| - 1])
  }

  lemma StackRequestsPush(poison: QueuedLog -> bool, stack: seq<seq<QueuedLog>>, segment: seq<QueuedLog>)
    ensures StackRequests(poison, stack + [segment]) == StackRequests(poison, stack) + Requests(poison, segment)
  {
    assert (stack + [segment])[..|stack|] == stack;
  }

  /** The least k with n <= 2^k. */
  function Power2(k: nat): (p: nat)
    ensures p >= 1
  {
    if k == 0 then 1 else 2 * Power2(k - 1)
  }

  function CeilLog2(n: nat): (k: nat) {
    if n <= 1 then 0 else 1 + CeilLog2((n + 1) / 2)
  }

  /** `CeilLog2` is the logarithm its name says. */
  lemma {:induction false} CeilLog2IsLeast(n: nat)
    ensures n <= Power2(CeilLog2(n))
    ensures CeilLog2(n) > 0 ==> Power2(CeilLog2(n) - 1) < n
    decreases n
  {
    if n > 1 {
      var half := (n + 1) / 2;
      CeilLog2IsLeast(half);
      if half == 1 {
        assert CeilLog2(half) == 0;
      }
    }
  }

  function Poisoned(poison: QueuedLog -> bool, records: seq<QueuedLog>): seq<QueuedLog> {
    Filter(poison, records)
  }

  function Good(poison: QueuedLog -> bool, records: seq<QueuedLog>): seq<QueuedLog> {
    Filter((log: QueuedLog) => !poison(log), records)
  }

  lemma {:induction false} HasIsCounted(poison: QueuedLog -> bool, records: seq<QueuedLog>)
    ensures Has(poison, records) <==> |Poisoned(poison, records)| > 0
  {
    if records != [] {
      var init, last := records[..|records| - 1], records[|records| - 1];
      HasIsCounted(poison, init);
      assert records == init + [last];
    }
  }

  lemma PartsAddUp(poison: QueuedLog -> bool, a: seq<QueuedLog>, b: seq<QueuedLog>)
    ensures Poisoned(poison, a + b) == Poisoned(poison, a) + Poisoned(poison, b)
    ensures Good(poison, a + b) == Good(poison, a) + Good(poison, b)
  {
    FilterConcat(poison, a, b);
    FilterConcat((log: QueuedLog) => !poison(log), a, b);
  }

  /** 1 + 2 * p * level, level by level. */
  function Bound(p: nat, level: nat): nat {
    if level == 0 then 1 else Bound(p, level - 1) + 2 * p
  }

  lemma {:induction false} BoundIsProduct(p: nat, level: nat)
    ensures Bound(p, level) == 1 + 2 * p * level
  {
    if level > 0 {
      BoundIsProduct(p, level - 1);
      assert 2 * p * level == 2 * p * (level - 1) + 2 * p;
    }
  }

  lemma {:induction false} BoundMonotone(p: nat, low: nat, level: nat)
    requires low <= level
    ensures Bound(p, low) <= Bound(p, level)
  {
    if low < level {
      BoundMonotone(p, low, level - 1);
    }
  }

  lemma {:induction false} BoundAdds(p: nat, q: nat, level: nat)
    ensures Bound(p, level) + Bound(q, level) == Bound(p + q, level) + 1
  {
    if level > 0 {
      BoundAdds(p, q, level - 1);
    }
  }

  /** The arithmetic of one split: two halves, each a level closer to single records. */
  lemma SplitCost(left: nat, right: nat, p: nat, q: nat, level: nat)
    requires left <= Bound(p, level) && right <= Bound(q, level) && p + q >= 1
    ensures 1 + left + right <= Bound(p + q, level + 1)
  {
    BoundAdds(p, q, level);
  }

  lemma PoisonedHalves(poison: QueuedLog -> bool, records: seq<QueuedLog>, half: nat)
    requires half <= |records|
    ensures |Poisoned(poison, records)| == |Poisoned(poison, records[..half])| + |Poisoned(poison, records[half..])|
  {
    PartsAddUp(poison, records[..half], records[half..]);
    assert records == records[..half] + records[half..];
  }

  /** A batch of at most 2^level records is down to single records after `level` splits. */
  lemma {:induction false} RequestsByLevel(poison: QueuedLog -> bool, records: seq<QueuedLog>, level: nat)
    requires |records| <= Power2(level)
    ensures Requests(poison, records) <= Bound(|Poisoned(poison, records)|, level)
    decreases |records|
  {
    BoundMonotone(|Poisoned(poison, records)|, 0, level);
    if |records| > 1 && Has(poison, records) {
      var left, right := records[..|records| / 2], records[|records| / 2..];
      RequestsByLevel(poison, left, level - 1);
      RequestsByLevel(poison, right, level - 1);
      PoisonedHalves(poison, records, |records| / 2);
      HasIsCounted(poison, records);
      SplitCost(Requests(poison, left), Requests(poison, right), |Poisoned(poison, left)|, |Poisoned(poison, right)|,
          level - 1);
    }
  }

  /** Isolating p poison records among n takes at most 1 + 2p * ceil(log2 n) requests. */
  lemma RequestBound(poison: QueuedLog -> bool, records: seq<QueuedLog>)
    ensures Requests(poison, records) <= 1 + 2 * |Poisoned(poison, records)| * CeilLog2(|records|)
  {
    CeilLog2IsLeast(|records|);
    RequestsByLevel(poison, records, CeilLog2(|records|));
    BoundIsProduct(|Poisoned(poison, records)|, CeilLog2(|records|));
  }

  // ---------------------------------------------------------------- the code

  /** The inner loop: repeats one request while the collector answers that it should be repeated. */
  method Deliver(collector: Collector, ghost patience: nat, records: seq<QueuedLog>, attempts: nat)
    returns (answer: Outcome, attempts': nat, retries: nat)
    requires Honest(collector, patience)
    ensures attempts' == attempts + retries + 1 && answer == collector(attempts' - 1, records) && !answer.Retryable?
    ensures forall k :: attempts <= k < attempts' - 1 ==> collector(k, records).Retryable?
  {
    answer, attempts', retries := collector(attempts, records), attempts + 1, 0;
    while answer.Retryable?
      invariant attempts' == attempts + retries + 1 && answer == collector(attempts' - 1, records)
      invariant forall k :: attempts <= k < attempts' - 1 ==> collector(k, records).Retryable?
      decreases if attempts' <= patience then patience - attempts' + 1 else 0
    {
      answer := collector(attempts', records);
      attempts', retries := attempts' + 1, retries + 1;
    }
  }

  method SplitRecords(records: seq<QueuedLog>, stack: seq<seq<QueuedLog>>) returns (stack': seq<seq<QueuedLog>>)
    requires |records| > 1 && NoneEmpty(stack)
    ensures NoneEmpty(stack') && TopDown(stack') == records + TopDown(stack)
    ensures stack' == stack + Split(records)
  {
    var half := |records| / 2;
    SplitKeepsOrder(stack, records);
    stack' := stack + [records[half..], records[..half]];
  }

  /** What one batch led to: the records completed, in order; those in requests accepted as a
      whole; those refused one by one; the two counters; requests made, not counting repetitions;
      the final answer to each request, and how many attempts had been made by then. */
  datatype Report = Report(completed: seq<QueuedLog>, taken: seq<QueuedLog>, refused: seq<QueuedLog>,
                           exported: nat, rejected: nat, requests: nat,
                           answers: seq<Reply>, attempts: seq<nat>)

  const NOTHING_YET := Report([], [], [], 0, 0, 0, [], [])

  function Made(attempts: seq<nat>): nat {
    if attempts == [] then 0 else attempts[|attempts| - 1]
  }

  /** The reply is what the collector said at the last of these attempts, having asked for
      nothing but repetitions of the request before. */
  ghost predicate Said(collector: Collector, r: Reply, before: nat, made: nat) {
    && before < made && r.outcome == collector(made - 1, r.records) && !r.outcome.Retryable?
    && (forall k :: before <= k < made - 1 ==> collector(k, r.records).Retryable?)
  }

  /** Every answer in the report is what the collector said to that request. */
  ghost predicate Heard(collector: Collector, answers: seq<Reply>, attempts: seq<nat>) {
    && |attempts| == |answers|
    && (answers != [] ==>
          && Heard(collector, answers[..|answers| - 1], attempts[..|answers| - 1])
          && Said(collector, answers[|answers| - 1], Made(attempts[..|answers| - 1]), attempts[|answers| - 1]))
  }

  lemma HeardOn(collector: Collector, answers: seq<Reply>, attempts: seq<nat>, r: Reply, made: nat)
    requires Heard(collector, answers, attempts) && Said(collector, r, Made(attempts), made)
    ensures Heard(collector, answers + [r], attempts + [made])
  {
    assert (answers + [r])[..|answers|] == answers && (attempts + [made])[..|answers|] == attempts;
  }

  lemma {:induction false} HeardAt(collector: Collector, answers: seq<Reply>, attempts: seq<nat>, i: nat)
    requires Heard(collector, answers, attempts) && i < |answers|
    ensures Said(collector, answers[i], if i == 0 then 0 else attempts[i - 1], attempts[i])
  {
    if i < |answers| - 1 {
      HeardAt(collector, answers[..|answers| - 1], attempts[..|answers| - 1], i);
    }
  }

  /** Counters and completed records are what the answers say. */
  ghost predicate Counted(r: Report) {
    && r.exported == TotalExported(r.answers) && r.rejected == TotalRejected(r.answers)
    && r.completed == FinalRecords(r.answers)
  }

  /** What is sent next: the batch; after a refused payload of several records, its first half. */
  ghost predicate Following(r: Report, stack: seq<seq<QueuedLog>>, batch: seq<QueuedLog>) {
    && Chained(r.answers)
    && (if r.answers == [] then stack == [batch]
        else
          && r.answers[0].records == batch
          && (Final(r.answers[|r.answers| - 1])
              || (stack != [] && FollowedBy(r.answers[|r.answers| - 1], stack[|stack| - 1]))))
  }

  ghost predicate Recorded(collector: Collector, r: Report) {
    && Heard(collector, r.answers, r.attempts) && |r.answers| == r.requests
    && Counted(r)
  }

  /** The part of the outcome that depends on the collector refusing exactly the poison records. */
  ghost predicate Isolating(poison: QueuedLog -> bool, r: Report, stack: seq<seq<QueuedLog>>, batch: seq<QueuedLog>) {
    && r.taken + Good(poison, TopDown(stack)) == Good(poison, batch)
    && r.refused + Poisoned(poison, TopDown(stack)) == Poisoned(poison, batch)
    && r.requests + StackRequests(poison, stack) == Requests(poison, batch)
    && r.exported == |r.taken| && r.rejected == |r.refused|
  }

  /** Bounds the requests still to be made for a stack of non-empty segments. */
  function Remaining(stack: seq<seq<QueuedLog>>): nat
    requires NoneEmpty(stack)
  {
    SegmentsFit(stack);
    2 * |TopDown(stack)| - |stack|
  }

  ghost predicate Progress(r: Report, stack: seq<seq<QueuedLog>>, batch: seq<QueuedLog>) {
    && NoneEmpty(stack) && r.completed + TopDown(stack) == batch && r.exported + r.rejected == |r.completed|
    && r.requests + Remaining(stack) <= 2 * |batch| - 1
  }

  /** One answer other than a retry, applied to the segment it was for. */
  function Apply(r: Report, records: seq<QueuedLog>, answer: Outcome, attempts: nat): Report
    requires answer.Accepted? ==> answer.rejected <= |records|
  {
    var noted := r.(requests := r.requests + 1, answers := r.answers + [Reply(records, answer)],
                    attempts := r.attempts + [attempts]);
    match answer
    case Accepted(rejected) =>
      noted.(completed := r.completed + records, taken := if rejected == 0 then r.taken + records else r.taken,
             exported := r.exported + (|records| - rejected), rejected := r.rejected + rejected)
    case InvalidPayload =>
      if |records| == 1 then
        noted.(completed := r.completed + records, refused := r.refused + records, rejected := r.rejected + 1)
      else noted
    case _ => noted
  }

  /** What is left on the stack below and in place of that segment. */
  function Left(rest: seq<seq<QueuedLog>>, records: seq<QueuedLog>, answer: Outcome): seq<seq<QueuedLog>> {
    if answer.Permanent? then rest + [records]
    else if answer.InvalidPayload? && |records| > 1 then rest + Split(records)
    else rest
  }

  /** A segment without poison leaves the stack and is taken. */
  lemma TakenKeepsIsolating(poison: QueuedLog -> bool, r: Report, rest: seq<seq<QueuedLog>>, records: seq<QueuedLog>,
                            batch: seq<QueuedLog>, attempts: nat)
    requires Isolating(poison, r, rest + [records], batch) && !Has(poison, records)
    ensures Isolating(poison, Apply(r, records, Accepted(0), attempts), rest, batch)
  {
    TopDownPush(rest, records);
    StackRequestsPush(poison, rest, records);
    PartsAddUp(poison, records, TopDown(rest));
    NothingPoisoned(poison, records);
    Regroup(r.taken, records, Good(poison, TopDown(rest)));
    assert [] + Poisoned(poison, TopDown(rest)) == Poisoned(poison, TopDown(rest));
  }

  /** A poison record on its own leaves the stack and is refused. */
  lemma RefusedKeepsIsolating(poison: QueuedLog -> bool, r: Report, rest: seq<seq<QueuedLog>>, log: QueuedLog,
                              batch: seq<QueuedLog>, attempts: nat)
    requires Isolating(poison, r, rest + [[log]], batch) && poison(log)
    ensures Isolating(poison, Apply(r, [log], InvalidPayload, attempts), rest, batch)
  {
    TopDownPush(rest, [log]);
    StackRequestsPush(poison, rest, [log]);
    PartsAddUp(poison, [log], TopDown(rest));
    OnePoisoned(poison, log);
    Regroup(r.refused, [log], Poisoned(poison, TopDown(rest)));
    assert [] + Good(poison, TopDown(rest)) == Good(poison, TopDown(rest));
    assert Requests(poison, [log]) == 1;
  }

  lemma Regroup(a: seq<QueuedLog>, b: seq<QueuedLog>, c: seq<QueuedLog>)
    ensures a + (b + c) == a + b + c && a + ([] + c) == a + c
  {
  }

  lemma {:induction false} NothingPoisoned(poison: QueuedLog -> bool, records: seq<QueuedLog>)
    requires !Has(poison, records)
    ensures Poisoned(poison, records) == [] && Good(poison, records) == records
  {
    if records != [] {
      var init, last := records[..|records| - 1], records[|records| - 1];
      assert last in records && forall log <- init :: log in records;
      NothingPoisoned(poison, init);
      assert records == init + [last];
    }
  }

  lemma OnePoisoned(poison: QueuedLog -> bool, log: QueuedLog)
    requires poison(log)
    ensures Poisoned(poison, [log]) == [log] && Good(poison, [log]) == []
  {
    FilterOne(poison, log);
    FilterOne((log: QueuedLog) => !poison(log), log);
  }

  lemma SplitKeepsIsolating(poison: QueuedLog -> bool, r: Report, rest: seq<seq<QueuedLog>>, records: seq<QueuedLog>,
                            batch: seq<QueuedLog>, attempts: nat)
    requires Isolating(poison, r, rest + [records], batch) && |records| > 1 && Has(poison, records)
    ensures Isolating(poison, Apply(r, records, InvalidPayload, attempts), rest + Split(records), batch)
  {
    var right, left := records[|records| / 2..], records[..|records| / 2];
    TopDownPush(rest, records);
    TopDownPush(rest, right);
    TopDownPush(rest + [right], left);
    assert rest + [right, left] == rest + [right] + [left];
    assert records + TopDown(rest) == left + (right + TopDown(rest));
    StackRequestsPush(poison, rest, records);
    StackRequestsPush(poison, rest, right);
    StackRequestsPush(poison, rest + [right], left);
  }

  lemma StartsIsolating(poison: QueuedLog -> bool, batch: seq<QueuedLog>)
    ensures Isolating(poison, NOTHING_YET, [batch], batch)
  {
    assert [] + [batch] == [batch];
    TopDownPush([], batch);
    assert TopDown([batch]) == batch;
    StackRequestsPush(poison, [], batch);
  }

  lemma StartsProgress(batch: seq<QueuedLog>)
    requires batch != []
    ensures Progress(NOTHING_YET, [batch], batch)
  {
    assert [] + [batch] == [batch];
    TopDownPush([], batch);
    assert TopDown([batch]) == batch;
  }

  lemma PopKeepsProgress(r: Report, rest: seq<seq<QueuedLog>>, records: seq<QueuedLog>, answer: Outcome,
                         batch: seq<QueuedLog>, attempts: nat)
    requires Progress(r, rest + [records], batch) && records != []
    requires answer.Accepted? ==> answer.rejected <= |records|
    requires !answer.Retryable? && !answer.Permanent?
    ensures Progress(Apply(r, records, answer, attempts), Left(rest, records, answer), batch)
    ensures Remaining(Left(rest, records, answer)) < Remaining(rest + [records])
  {
    TopDownPush(rest, records);
    SplitKeepsOrder(rest, records);
    assert forall i :: 0 <= i < |rest| ==> (rest + [records])[i] == rest[i];
  }

  /** What the invariant says of the records completed so far, and of the requests made for them. */
  lemma IsolatedSoFar(poison: QueuedLog -> bool, r: Report, stack: seq<seq<QueuedLog>>, batch: seq<QueuedLog>)
    requires Isolating(poison, r, stack, batch) && Progress(r, stack, batch)
    ensures r.taken == Good(poison, r.completed) && r.refused == Poisoned(poison, r.completed)
    ensures r.requests <= Requests(poison, batch) && (stack != [] ==> r.requests < Requests(poison, batch))
  {
    PartsAddUp(poison, r.completed, TopDown(stack));
    SameHead(r.taken, Good(poison, r.completed), Good(poison, TopDown(stack)));
    SameHead(r.refused, Poisoned(poison, r.completed), Poisoned(poison, TopDown(stack)));
  }

  lemma SameHead(a: seq<QueuedLog>, b: seq<QueuedLog>, c: seq<QueuedLog>)
    requires a + c == b + c
    ensures a == b
  {
    assert |a| == |b|;
    assert a == (a + c)[..|a|] && b == (b + c)[..|b|];
  }

  lemma ApplyRecords(collector: Collector, r: Report, records: seq<QueuedLog>, answer: Outcome, attempts: nat)
    requires Recorded(collector, r) && Said(collector, Reply(records, answer), Made(r.attempts), attempts)
    requires answer.Accepted? ==> answer.rejected <= |records|
    ensures Recorded(collector, Apply(r, records, answer, attempts))
  {
    HeardOn(collector, r.answers, r.attempts, Reply(records, answer), attempts);
    OneMore(r.answers, Reply(records, answer));
  }

  lemma LeftFollows(r: Report, rest: seq<seq<QueuedLog>>, records: seq<QueuedLog>, answer: Outcome,
                    batch: seq<QueuedLog>, attempts: nat)
    requires Following(r, rest + [records], batch) && records != []
    requires answer.Accepted? ==> answer.rejected <= |records|
    requires !answer.Retryable?
    ensures var answers := Apply(r, records, answer, attempts).answers; Chained(answers) && answers[0].records == batch
    ensures !answer.Permanent? ==> Following(Apply(r, records, answer, attempts), Left(rest, records, answer), batch)
  {
    assert (rest + [records])[|rest + [records]| - 1] == records;
    ChainedOn(r.answers, Reply(records, answer));
    if answer.InvalidPayload? && |records| > 1 {
      var left := Left(rest, records, answer);
      assert left[|left| - 1] == records[..|records| / 2];
    }
  }

  lemma VerdictIsolates(poison: QueuedLog -> bool, r: Report, rest: seq<seq<QueuedLog>>, records: seq<QueuedLog>,
                        answer: Outcome, batch: seq<QueuedLog>, attempts: nat)
    requires Isolating(poison, r, rest + [records], batch) && records != []
    requires answer == if Has(poison, records) then InvalidPayload else Accepted(0)
    ensures Isolating(poison, Apply(r, records, answer, attempts), Left(rest, records, answer), batch)
  {
    if !Has(poison, records) {
      TakenKeepsIsolating(poison, r, rest, records, batch, attempts);
    } else if |records| > 1 {
      SplitKeepsIsolating(poison, r, rest, records, batch, attempts);
    } else {
      assert records == [records[0]];
      RefusedKeepsIsolating(poison, r, rest, records[0], batch, attempts);
    }
  }

  /** What holds whenever the outer loop starts a turn. */
  ghost predicate Underway(collector: Collector, poison: QueuedLog -> bool, r: Report, stack: seq<seq<QueuedLog>>,
                           batch: seq<QueuedLog>) {
    && Progress(r, stack, batch) && Recorded(collector, r) && Following(r, stack, batch)
    && (RefusesExactly(collector, poison) ==> Isolating(poison, r, stack, batch))
    && (stack == [] ==> r.answers != []) && (r.answers != [] ==> !r.answers[|r.answers| - 1].outcome.Permanent?)
  }

  /** What holds when the loop is left with this stack: empty, or topped by what failed. */
  ghost predicate Ended(collector: Collector, poison: QueuedLog -> bool, r: Report, stack: seq<seq<QueuedLog>>,
                        batch: seq<QueuedLog>) {
    && NoneEmpty(stack) && r.completed + TopDown(stack) == batch && r.requests <= 2 * |batch| - 1
    && Recorded(collector, r) && r.exported + r.rejected == |r.completed|
    && Chained(r.answers) && r.answers != [] && r.answers[0].records == batch
    && (stack == [] <==> !r.answers[|r.answers| - 1].outcome.Permanent?)
    && (RefusesExactly(collector, poison) ==> Isolated(poison, r, batch))
  }

  /** Of what is completed, the good records were taken and the poison ones refused, and counted so,
      within 1 + 2p * ceil(log2 n) requests. */
  ghost predicate Isolated(poison: QueuedLog -> bool, r: Report, batch: seq<QueuedLog>) {
    && r.taken == Good(poison, r.completed) && r.refused == Poisoned(poison, r.completed)
    && r.exported == |r.taken| && r.rejected == |r.refused|
    && r.requests <= 1 + 2 * |Poisoned(poison, batch)| * CeilLog2(|batch|)
  }

  lemma FailureIsolated(poison: QueuedLog -> bool, r: Report, stack: seq<seq<QueuedLog>>, records: seq<QueuedLog>,
                        batch: seq<QueuedLog>, attempts: nat)
    requires Isolating(poison, r, stack, batch) && Progress(r, stack, batch) && stack != []
    ensures Isolated(poison, Apply(r, records, Permanent, attempts), batch)
  {
    IsolatedSoFar(poison, r, stack, batch);
    RequestBound(poison, batch);
  }

  lemma RoomForOne(r: Report, stack: seq<seq<QueuedLog>>, batch: seq<QueuedLog>)
    requires Progress(r, stack, batch) && stack != []
    ensures r.requests + 1 <= 2 * |batch| - 1
  {
    SegmentsFit(stack);
  }

  lemma EmptyStackEnds(collector: Collector, poison: QueuedLog -> bool, r: Report, batch: seq<QueuedLog>)
    requires Underway(collector, poison, r, [], batch)
    ensures Ended(collector, poison, r, [], batch)
  {
    if RefusesExactly(collector, poison) {
      IsolatedSoFar(poison, r, [], batch);
      RequestBound(poison, batch);
    }
  }

  lemma FailureEnds(collector: Collector, poison: QueuedLog -> bool, r: Report, rest: seq<seq<QueuedLog>>,
                    records: seq<QueuedLog>, batch: seq<QueuedLog>, attempts: nat)
    requires Underway(collector, poison, r, rest + [records], batch)
    requires Said(collector, Reply(records, Permanent), Made(r.attempts), attempts)
    ensures Ended(collector, poison, Apply(r, records, Permanent, attempts), rest + [records], batch)
  {
    RoomForOne(r, rest + [records], batch);
    ApplyRecords(collector, r, records, Permanent, attempts);
    assert (rest + [records])[|rest|] == records;
    LeftFollows(r, rest, records, Permanent, batch, attempts);
    if RefusesExactly(collector, poison) {
      FailureIsolated(poison, r, rest + [records], records, batch, attempts);
    }
  }

  lemma TurnStaysUnderway(collector: Collector, poison: QueuedLog -> bool, r: Report, rest: seq<seq<QueuedLog>>,
                          records: seq<QueuedLog>, answer: Outcome, batch: seq<QueuedLog>, attempts: nat)
    requires Underway(collector, poison, r, rest + [records], batch) && !answer.Permanent?
    requires Said(collector, Reply(records, answer), Made(r.attempts), attempts)
    requires answer.Accepted? ==> answer.rejected <= |records|
    ensures Underway(collector, poison, Apply(r, records, answer, attempts), Left(rest, records, answer), batch)
    ensures Remaining(Left(rest, records, answer)) < Remaining(rest + [records])
  {
    assert (rest + [records])[|rest|] == records;
    ApplyRecords(collector, r, records, answer, attempts);
    LeftFollows(r, rest, records, answer, batch, attempts);
    PopKeepsProgress(r, rest, records, answer, batch, attempts);
    if RefusesExactly(collector, poison) {
      VerdictIsolates(poison, r, rest, records, answer, batch, attempts);
    }
  }

  /** One turn of the outer loop: pops the top segment, delivers it, and handles the answer. */
  method HandleTop(collector: Collector, ghost patience: nat, ghost poison: QueuedLog -> bool,
                   ghost batch: seq<QueuedLog>,
                   r: Report, stack: seq<seq<QueuedLog>>)
    returns (r': Report, stack': seq<seq<QueuedLog>>, failed: bool)
    requires Honest(collector, patience) && stack != [] && Underway(collector, poison, r, stack, batch)
    ensures !failed ==> Underway(collector, poison, r', stack', batch) && Remaining(stack') < Remaining(stack)
    ensures failed ==> stack' != [] && Ended(collector, poison, r', stack', batch)
  {
    var rest, records := stack[..|stack| - 1], stack[|stack| - 1];
    assert stack == rest + [records];
    var answer, attempts, retries := Deliver(collector, patience, records, Made(r.attempts));
    r' := Apply(r, records, answer, attempts);
    failed := answer.Permanent?;
    if failed {
      stack' := rest + [records];
      FailureEnds(collector, poison, r, rest, records, batch, attempts);
    } else {
      if answer.InvalidPayload? && |records| > 1 {
        stack' := SplitRecords(records, rest);
      } else {
        stack' := rest;
      }
      TurnStaysUnderway(collector, poison, r, rest, records, answer, batch, attempts);
    }
  }

  lemma StartsUnderway(collector: Collector, poison: QueuedLog -> bool, batch: seq<QueuedLog>)
    requires batch != []
    ensures Underway(collector, poison, NOTHING_YET, [batch], batch)
  {
    StartsIsolating(poison, batch);
    StartsProgress(batch);
  }

  /** Delivers a batch. The report lists the requests, each with what the collector answered once
      it stopped asking for repetitions. Exported is what it accepted and did not reject; rejected
      is what it rejected in accepted requests and the records that it refused one by one.
      Records are completed in their original order. `Complete` completes each record exactly
      once, and `Terminal`, after a `Permanent` answer, retains exactly the unhandled rest,
      whatever the collector does, in at most 2n - 1 requests besides retries. If the verdicts of
      the collector refuse exactly the requests that carry a poison record, then of the completed
      records exactly the good ones are exported and exactly the poison ones rejected, each in
      original order, and with p poison records in the batch at most 1 + 2p * ceil(log2 n)
      requests are made besides retries. */
  method ExportBatch(collector: Collector, ghost patience: nat, ghost poison: QueuedLog -> bool, batch: seq<QueuedLog>)
    returns (result: BatchResult, r: Report)
    requires Honest(collector, patience) && batch != []
    ensures match result
      case Complete => r.completed == batch
      case Terminal(retained) => retained != [] && NoneEmpty(retained) && r.completed + TopDown(retained) == batch
    ensures Heard(collector, r.answers, r.attempts) && |r.answers| == r.requests > 0
    ensures Chained(r.answers) && r.answers[0].records == batch
    ensures result.Terminal? <==> r.answers[|r.answers| - 1].outcome.Permanent?
    ensures r.exported == TotalExported(r.answers) && r.rejected == TotalRejected(r.answers)
    ensures r.completed == FinalRecords(r.answers) && r.exported + r.rejected == |r.completed|
    ensures r.requests <= 2 * |batch| - 1
    ensures RefusesExactly(collector, poison) ==> Isolated(poison, r, batch)
  {
    var stack := [batch];
    r := NOTHING_YET;
    StartsUnderway(collector, poison, batch);
    while stack != []
      invariant Underway(collector, poison, r, stack, batch)
      decreases Remaining(stack)
    {
      var failed;
      r, stack, failed := HandleTop(collector, patience, poison, batch, r, stack);
      if failed {
        return Terminal(stack), r;
      }
    }
    result := Complete;
    EmptyStackEnds(collector, poison, r, batch);
  }
}
