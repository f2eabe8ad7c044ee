/**
Bounded admission: four counters claimed by optimistic additions that may be rolled
back, and released by the worker. What has been granted never exceeds a capacity.
*/
module ExporterBudgets {
  import opened Records
  import opened Wrappers
  import opened Drain
  import opened Exporter
  import opened ExporterShape
  import opened ExporterTickets

  // ---------------------------------------------------------------- who holds what

  function Weight(log: QueuedLog, b: Budget): nat {
    if log.queue != b.queue then 0 else if b.unit.Slots? then 1 else log.bytes
  }

  function Amount(logs: seq<QueuedLog>, b: Budget): nat {
    if logs == [] then 0 else Amount(logs[..|logs| - 1], b) + Weight(logs[|logs| - 1], b)
  }

  function BytesOf(draft: Draft, queue: QueueKind, b: Budget): nat {
    if b == Budget(queue, Bytes) then draft.bytes else 0
  }

  function SlotOf(queue: QueueKind, b: Budget): nat {
    if b == Budget(queue, Slots) then 1 else 0
  }

  /** Capacity that a thread has been granted and has not yet handed over or returned. */
  function GrantedTo(pc: ProducerPc, b: Budget): nat {
    match pc
    case ClaimRecord(draft, queue) => BytesOf(draft, queue, b)
    case UndoRecord(draft, queue) => BytesOf(draft, queue, b)
    case ReturnBytes(draft, queue) => BytesOf(draft, queue, b)
    case Ticketing(draft, queue) => BytesOf(draft, queue, b) + SlotOf(queue, b)
    case Pushing(log) => Weight(log, b)
    case _ => 0
  }

  /** Over-claims that the counter still shows but the thread is about to roll back. */
  function AwaitingUndo(pc: ProducerPc, b: Budget): nat {
    match pc
    case UndoBytes(draft, queue) => BytesOf(draft, queue, b)
    case UndoRecord(_, queue) => SlotOf(queue, b)
    case _ => 0
  }

  function AllGranted(ps: seq<Producer>, b: Budget): nat {
    if ps == [] then 0 else AllGranted(ps[..|ps| - 1], b) + GrantedTo(ps[|ps| - 1].pc, b)
  }

  function AllAwaitingUndo(ps: seq<Producer>, b: Budget): nat {
    if ps == [] then 0 else AllAwaitingUndo(ps[..|ps| - 1], b) + AwaitingUndo(ps[|ps| - 1].pc, b)
  }

  /** Capacity of the records that the worker has taken but not yet released. */
  function GrantedAt(pc: WorkerPc, b: Budget): nat {
    match pc
    case Refresh(_, at) =>
      if at.Taking? then
        Amount(Concat(KindQueues(at.taken, Reserved)), b) + Amount(Concat(KindQueues(at.taken, Normal)), b)
      else 0
    case Input(at) =>
      (match at
       case ReleaseRecord(_, log) => Weight(log, b)
       case ReleaseBytes(_, log) => if b.unit.Bytes? then Weight(log, b) else 0
       case _ => 0)
    case _ => 0
  }

  function GrantedToWorker(w: Worker, b: Budget): nat {
    Amount(w.reserved, b) + Amount(w.normal, b) + GrantedAt(w.pc, b)
  }

  /** Everything granted on a budget and not yet released. */
  function Granted(s: State, b: Budget): nat {
    AllGranted(s.producers, b) + Amount(QueuedIn(s.lanes), b) + GrantedToWorker(s.w, b)
  }

  /** A counter is what is granted plus what awaits rollback, and the former fits the capacity. */
  ghost predicate Bounded(s: State, b: Budget) {
    && s.sh.used.Get(b) == Granted(s, b) + AllAwaitingUndo(s.producers, b)
    && Granted(s, b) <= s.cfg.Capacity(b)
  }

  ghost predicate BudgetsHold(s: State) {
    s.h.reset || forall b: Budget :: Bounded(s, b)
  }

  /** Only optimistic claims are ever rolled back, and each is within its capacity. */
  ghost predicate UndosFit(s: State) {
    forall t, b: Budget :: 0 <= t < |s.producers| ==> UndoFits(s.cfg, s.producers[t].pc, b)
  }

  // ---------------------------------------------------------------- sums

  lemma CounterMoves(c: Counters, b: Budget, amount: int, other: Budget)
    ensures c.Add(b, amount).Get(other) == c.Get(other) + (if other == b then amount else 0)
  {
    match b
    case Budget(Normal, Slots) =>
    case Budget(Normal, Bytes) =>
    case Budget(Reserved, Slots) =>
    case Budget(Reserved, Bytes) =>
  }

  lemma {:induction false} AmountConcat(x: seq<QueuedLog>, y: seq<QueuedLog>, b: Budget)
    ensures Amount(x + y, b) == Amount(x, b) + Amount(y, b)
  {
    if y == [] {
      assert x + y == x;
    } else {
      assert (x + y)[..|x + y| - 1] == x + y[..|y| - 1];
      AmountConcat(x, y[..|y| - 1], b);
    }
  }

  lemma AmountOne(log: QueuedLog, b: Budget)
    ensures Amount([log], b) == Weight(log, b)
  {
    assert [log][..0] == [];
  }

  lemma AmountHead(logs: seq<QueuedLog>, b: Budget)
    requires logs != []
    ensures Amount(logs, b) == Weight(logs[0], b) + Amount(logs[1..], b)
  {
    assert logs == [logs[0]] + logs[1..];
    AmountConcat([logs[0]], logs[1..], b);
    AmountOne(logs[0], b);
  }

  lemma RemoveOne(x: seq<QueuedLog>, y: seq<QueuedLog>, i: nat)
    requires x != [] && i < |y| && y[i] == x[0] && multiset(x) == multiset(y)
    ensures multiset(x[1..]) == multiset(y[..i] + y[i + 1..])
  {
    assert x == [x[0]] + x[1..];
    SplitAt(y, i);
    assert multiset(y) == multiset(y[..i]) + multiset{y[i]} + multiset(y[i + 1..]);
    assert multiset(x) - multiset{x[0]} == multiset(x[1..]);
    assert multiset(y) - multiset{x[0]} == multiset(y[..i]) + multiset(y[i + 1..]);
  }

  lemma AmountWithout(y: seq<QueuedLog>, i: nat, b: Budget)
    requires i < |y|
    ensures Amount(y, b) == Amount(y[..i] + y[i + 1..], b) + Weight(y[i], b)
  {
    SplitAt(y, i);
    AmountThree(y[..i], [y[i]], y[i + 1..], b);
    AmountConcat(y[..i], y[i + 1..], b);
    AmountOne(y[i], b);
  }

  /** The total does not depend on the order. */
  lemma {:induction false} AmountOfPermutation(x: seq<QueuedLog>, y: seq<QueuedLog>, b: Budget)
    requires multiset(x) == multiset(y)
    ensures Amount(x, b) == Amount(y, b)
    decreases |x|
  {
    if x == [] {
      assert |multiset(y)| == 0;
    } else {
      assert x[0] in multiset(y);
      var i :| 0 <= i < |y| && y[i] == x[0];
      RemoveOne(x, y, i);
      AmountOfPermutation(x[1..], y[..i] + y[i + 1..], b);
      AmountHead(x, b);
      AmountWithout(y, i, b);
    }
  }

  lemma {:induction false} GrantedConcat(x: seq<Producer>, y: seq<Producer>, b: Budget)
    ensures AllGranted(x + y, b) == AllGranted(x, b) + AllGranted(y, b)
    ensures AllAwaitingUndo(x + y, b) == AllAwaitingUndo(x, b) + AllAwaitingUndo(y, b)
  {
    if y == [] {
      assert x + y == x;
    } else {
      assert (x + y)[..|x + y| - 1] == x + y[..|y| - 1];
      GrantedConcat(x, y[..|y| - 1], b);
    }
  }

  lemma GrantedAround(before: seq<Producer>, p: Producer, after: seq<Producer>, b: Budget)
    ensures AllGranted(before + [p] + after, b) == AllGranted(before, b) + GrantedTo(p.pc, b) + AllGranted(after, b)
    ensures AllAwaitingUndo(before + [p] + after, b)
         == AllAwaitingUndo(before, b) + AwaitingUndo(p.pc, b) + AllAwaitingUndo(after, b)
  {
    GrantedConcat(before + [p], after, b);
    GrantedConcat(before, [p], b);
    assert [p][..0] == [];
  }

  lemma ClaimsChange(ps: seq<Producer>, t: nat, p: Producer, b: Budget)
    requires t < |ps|
    ensures AllGranted(ps[t := p], b) + GrantedTo(ps[t].pc, b) == AllGranted(ps, b) + GrantedTo(p.pc, b)
    ensures AllAwaitingUndo(ps[t := p], b) + AwaitingUndo(ps[t].pc, b) == AllAwaitingUndo(ps, b) + AwaitingUndo(p.pc, b)
  {
    SplitAt(ps, t);
    SplitAt(ps[t := p], t);
    GrantedAround(ps[..t], ps[t], ps[t + 1..], b);
    GrantedAround(ps[..t], p, ps[t + 1..], b);
    assert ps[t := p][..t] == ps[..t] && ps[t := p][t + 1..] == ps[t + 1..];
  }

  lemma LaneAmountChanges(lanes: seq<Lane>, l: nat, lane: Lane, b: Budget)
    requires l < |lanes|
    ensures Amount(QueuedIn(lanes[l := lane]), b) + Amount(LogsOf(lanes[l].queues), b)
         == Amount(QueuedIn(lanes), b) + Amount(LogsOf(lane.queues), b)
  {
    QueuedAt(lanes, l);
    QueuedAt(lanes[l := lane], l);
    assert lanes[l := lane][..l] == lanes[..l] && lanes[l := lane][l + 1..] == lanes[l + 1..];
    AmountThree(QueuedIn(lanes[..l]), LogsOf(lanes[l].queues), QueuedIn(lanes[l + 1..]), b);
    AmountThree(QueuedIn(lanes[..l]), LogsOf(lane.queues), QueuedIn(lanes[l + 1..]), b);
  }

  lemma AmountThree(x: seq<QueuedLog>, y: seq<QueuedLog>, z: seq<QueuedLog>, b: Budget)
    ensures Amount(x + y + z, b) == Amount(x, b) + Amount(y, b) + Amount(z, b)
  {
    AmountConcat(x + y, z, b);
    AmountConcat(x, y, b);
  }

  lemma {:induction false} NothingGranted(ps: seq<Producer>, b: Budget)
    requires forall i :: 0 <= i < |ps| ==> GrantedTo(ps[i].pc, b) == 0 && AwaitingUndo(ps[i].pc, b) == 0
    ensures AllGranted(ps, b) == 0 && AllAwaitingUndo(ps, b) == 0
  {
    if ps != [] {
      NothingGranted(ps[..|ps| - 1], b);
    }
  }

  lemma InitBudgets(cfg: Config)
    ensures BudgetsHold(Init(cfg)) && UndosFit(Init(cfg))
  {
    forall b: Budget
      ensures Bounded(Init(cfg), b)
    {
      NothingGranted(Init(cfg).producers, b);
    }
  }

  // ---------------------------------------------------------------- producers

  /** A thread's step balances one counter against that thread's own claims, and a new
      grant is within what the counter showed. */
  ghost predicate Balanced(s: State, s': State, before: ProducerPc, after: ProducerPc, b: Budget) {
    && s'.sh.used.Get(b) - s.sh.used.Get(b)
         == GrantedTo(after, b) + AwaitingUndo(after, b) - GrantedTo(before, b) - AwaitingUndo(before, b)
    && (GrantedTo(after, b) > GrantedTo(before, b) ==>
          s.sh.used.Get(b) + GrantedTo(after, b) - GrantedTo(before, b) <= s.cfg.Capacity(b))
    && UndoFits(s.cfg, after, b)
  }

  predicate UndoFits(cfg: Config, pc: ProducerPc, b: Budget) {
    AwaitingUndo(pc, b) > 0 ==> AwaitingUndo(pc, b) <= cfg.Capacity(b) <= U64_MAX / 2
  }

  lemma ClaimKeepsBound(s: State, s': State, t: nat, p: Producer, b: Budget)
    requires Bounded(s, b) && t < |s.producers| && s'.producers == s.producers[t := p]
    requires s'.cfg == s.cfg && s'.w == s.w && QueuedIn(s'.lanes) == QueuedIn(s.lanes)
    requires Balanced(s, s', s.producers[t].pc, p.pc, b)
    ensures Bounded(s', b)
  {
    ClaimsChange(s.producers, t, p, b);
  }

  lemma MoveBalances(s: State, t: nat, m: ProducerMove, b: Budget)
    requires t < |s.producers| && OnlyMoves(s.producers[t], m) && ProducerStep(s, t, m).Some?
    ensures Balanced(s, ProducerStep(s, t, m).value, s.producers[t].pc, ProducerStep(s, t, m).value.producers[t].pc, b)
  {
    match s.producers[t].pc
    case Outside =>
    case Loaded =>
    case Resolving(_) =>
    case ClaimBytes(draft, queue) => ClaimBytesBalances(s, t, m, draft, queue, b);
    case UndoBytes(draft, queue) => CounterMoves(s.sh.used, Budget(queue, Bytes), -(draft.bytes as int), b);
    case ClaimRecord(draft, queue) => ClaimRecordBalances(s, t, m, draft, queue, b);
    case UndoRecord(_, queue) => CounterMoves(s.sh.used, Budget(queue, Slots), -1, b);
    case ReturnBytes(draft, queue) => CounterMoves(s.sh.used, Budget(queue, Bytes), -(draft.bytes as int), b);
    case Ticketing(_, _) =>
    case Notifying =>
    case Leaving =>
    case Closing =>
    case Gone =>
  }

  /** A claim is granted exactly when it fits what is unused, on both branches; what is more than
      the capacity is refused at once; what is refused for lack of room is an over-claim on the
      optimistic branch, which capacities below 2^63 take. */
  lemma ClaimVerdict(used: int, capacity: nat, amount: nat)
    ensures Claim(used, capacity, amount).Claimed? <==> amount <= capacity && used + amount <= capacity
    ensures Claim(used, capacity, amount).Overclaimed? <==>
      amount <= capacity < 0x8000_0000_0000_0000 && used + amount > capacity
    ensures Claim(used, capacity, amount).Refused? <==>
      amount > capacity || (capacity >= 0x8000_0000_0000_0000 && used + amount > capacity)
  {
  }

  lemma ClaimBytesBalances(s: State, t: nat, m: ProducerMove, draft: Draft, queue: QueueKind, b: Budget)
    requires t < |s.producers| && s.producers[t].pc == ClaimBytes(draft, queue)
    ensures Balanced(s, ProducerStep(s, t, m).value, s.producers[t].pc, ProducerStep(s, t, m).value.producers[t].pc, b)
  {
    var mine := Budget(queue, Bytes);
    var r := Claim(s.sh.used.Get(mine), s.cfg.Capacity(mine), draft.bytes);
    ClaimVerdict(s.sh.used.Get(mine), s.cfg.Capacity(mine), draft.bytes);
    CounterMoves(s.sh.used, mine, ClaimCharge(r, draft.bytes), b);
    var after := ProducerStep(s, t, m).value.producers[t].pc;
    match r
    case Claimed => assert after == ClaimRecord(draft, queue);
    case Refused => assert after == AfterRefusal(draft, queue);
    case Overclaimed => assert after == UndoBytes(draft, queue);
  }

  lemma ClaimRecordBalances(s: State, t: nat, m: ProducerMove, draft: Draft, queue: QueueKind, b: Budget)
    requires t < |s.producers| && s.producers[t].pc == ClaimRecord(draft, queue)
    ensures Balanced(s, ProducerStep(s, t, m).value, s.producers[t].pc, ProducerStep(s, t, m).value.producers[t].pc, b)
  {
    var mine := Budget(queue, Slots);
    var r := Claim(s.sh.used.Get(mine), s.cfg.Capacity(mine), 1);
    ClaimVerdict(s.sh.used.Get(mine), s.cfg.Capacity(mine), 1);
    CounterMoves(s.sh.used, mine, ClaimCharge(r, 1), b);
    var after := ProducerStep(s, t, m).value.producers[t].pc;
    match r
    case Claimed => assert after == Ticketing(draft, queue);
    case Refused => assert after == ReturnBytes(draft, queue);
    case Overclaimed => assert after == UndoRecord(draft, queue);
  }

  lemma PushAmount(q: LaneQueues, log: QueuedLog, b: Budget)
    ensures Amount(LogsOf(q.Push(log)), b) == Amount(LogsOf(q), b) + Weight(log, b)
  {
    var q' := q.Push(log);
    AmountConcat(q.reserved, q.normal, b);
    AmountConcat(q'.reserved, q'.normal, b);
    AmountConcat(q.Of(log.queue), [log], b);
    AmountOne(log, b);
  }

  lemma PushedKeepsBound(s: State, s': State, t: nat, p: Producer, l: nat, lane: Lane, log: QueuedLog, b: Budget)
    requires Bounded(s, b) && t < |s.producers| && l < |s.lanes|
    requires s.producers[t].pc == Pushing(log) && GrantedTo(p.pc, b) == 0 == AwaitingUndo(p.pc, b)
    requires s'.producers == s.producers[t := p] && s'.lanes == s.lanes[l := lane]
    requires lane.queues == s.lanes[l].queues.Push(log)
    requires s'.cfg == s.cfg && s'.w == s.w && s'.sh.used == s.sh.used
    ensures Bounded(s', b)
  {
    ClaimsChange(s.producers, t, p, b);
    LaneAmountChanges(s.lanes, l, lane, b);
    PushAmount(s.lanes[l].queues, log, b);
  }

  lemma PushKeepsBound(s: State, t: nat, log: QueuedLog, b: Budget)
    requires Bounded(s, b) && LanesOwned(s) && t < |s.producers| && s.producers[t].pc == Pushing(log)
    ensures Push(s, t, log).Some? && Bounded(Push(s, t, log).value, b)
  {
    var l := s.producers[t].lane.value;
    var s' := Push(s, t, log).value;
    PushedKeepsBound(s, s', t, s'.producers[t], l, s'.lanes[l], log, b);
  }

  lemma ProducerKeepsBound(s: State, t: nat, m: ProducerMove, b: Budget)
    requires Bounded(s, b) && LanesOwned(s) && ProducerStep(s, t, m).Some?
    ensures Bounded(ProducerStep(s, t, m).value, b)
  {
    var p := s.producers[t];
    if OnlyMoves(p, m) {
      var pc := ProducerMoves(s, t, m);
      MoveBalances(s, t, m, b);
      ClaimKeepsBound(s, ProducerStep(s, t, m).value, t, p.(pc := pc), b);
    } else {
      match p.pc
      case Outside => ExitKeepsBound(s, t, b);
      case Resolving(draft) => RegisteringKeepsBound(s, t, draft, b);
      case Pushing(log) => PushKeepsBound(s, t, log, b);
    }
  }

  lemma ExitKeepsBound(s: State, t: nat, b: Budget)
    requires Bounded(s, b) && LanesOwned(s)
    requires t < |s.producers| && s.producers[t].pc.Outside? && s.producers[t].lane.Some?
    ensures EnterOrExit(s, t, Exit).Some? && Bounded(EnterOrExit(s, t, Exit).value, b)
  {
    var s' := EnterOrExit(s, t, Exit).value;
    ExitKeepsQueued(s, s.producers[t].lane.value);
    ClaimKeepsBound(s, s', t, s'.producers[t], b);
  }

  lemma RegisteringKeepsBound(s: State, t: nat, draft: Draft, b: Budget)
    requires Bounded(s, b) && t < |s.producers| && s.producers[t].pc == Resolving(draft)
    requires s.producers[t].lane.None? && ResolveLane(s, t, draft).Some?
    ensures Bounded(ResolveLane(s, t, draft).value, b)
  {
    RegisteringMoves(s, t, draft);
    ClaimKeepsBound(s, ResolveLane(s, t, draft).value, t, Producer(Some(|s.lanes|), ClaimBytes(draft, Normal)), b);
  }

  lemma RegisteringMoves(s: State, t: nat, draft: Draft)
    requires t < |s.producers| && s.producers[t].lane.None? && ResolveLane(s, t, draft).Some?
    ensures var s' := ResolveLane(s, t, draft).value;
      && s'.producers == s.producers[t := Producer(Some(|s.lanes|), ClaimBytes(draft, Normal))]
      && s'.cfg == s.cfg && s'.w == s.w && s'.sh == s.sh && QueuedIn(s'.lanes) == QueuedIn(s.lanes)
  {
    EmptyLaneAddsNothing(s.lanes, t);
  }

  lemma ProducerKeepsUndos(s: State, t: nat, m: ProducerMove)
    requires UndosFit(s) && ProducerStep(s, t, m).Some?
    ensures UndosFit(ProducerStep(s, t, m).value)
  {
    var s' := ProducerStep(s, t, m).value;
    if OnlyMoves(s.producers[t], m) {
      var pc := ProducerMoves(s, t, m);
      forall b: Budget
        ensures UndoFits(s.cfg, pc, b)
      {
        MoveBalances(s, t, m, b);
      }
    }
  }

  // ---------------------------------------------------------------- worker

  /** A worker step changes a counter only by what it releases itself. */
  lemma HandlingKeepsBound(s: State, s': State, b: Budget)
    requires Bounded(s, b) && s'.producers == s.producers && s'.lanes == s.lanes && s'.cfg == s.cfg
    requires s'.sh.used.Get(b) - s.sh.used.Get(b) == GrantedToWorker(s'.w, b) - GrantedToWorker(s.w, b)
    requires GrantedToWorker(s'.w, b) <= GrantedToWorker(s.w, b)
    ensures Bounded(s', b)
  {
  }

  ghost predicate Releases(s: State, s': State, b: Budget) {
    && s'.sh.used.Get(b) - s.sh.used.Get(b) == GrantedToWorker(s'.w, b) - GrantedToWorker(s.w, b)
    && GrantedToWorker(s'.w, b) <= GrantedToWorker(s.w, b)
  }

  lemma InputReleases(s: State, at: InputPc, b: Budget)
    requires s.w.pc == Input(at)
    ensures Releases(s, InputStep(s, at), b)
  {
    match at
    case Top =>
    case Choose =>
    case Poll(_) =>
    case Pop(site) => PopReleases(s, site, b);
    case ReleaseRecord(_, log) => CounterMoves(s.sh.used, Budget(log.queue, Slots), -1, b);
    case ReleaseBytes(site, log) => ReceivedReleases(s, site, log, b);
  }

  lemma PopReleases(s: State, site: Site, b: Budget)
    requires s.w.pc == Input(Pop(site))
    ensures Releases(s, InputStep(s, Pop(site)), b)
  {
    if s.w.reserved != [] {
      AmountHead(s.w.reserved, b);
    } else if s.w.normal != [] {
      AmountHead(s.w.normal, b);
    } else {
      match site case AtTop => case InReceive => case InDrain => case InLastPoll => case InBatch(_) =>
          case InBatchWoken(_) =>
    }
  }

  lemma ReleasedBytes(s: State, s': State, site: Site, log: QueuedLog, b: Budget)
    requires s.w.pc == Input(ReleaseBytes(site, log)) && GrantedAt(s'.w.pc, b) == 0
    requires s'.w.reserved == s.w.reserved && s'.w.normal == s.w.normal
    requires s'.sh.used == s.sh.used.Add(Budget(log.queue, Bytes), -(log.bytes as int))
    ensures Releases(s, s', b)
  {
    CounterMoves(s.sh.used, Budget(log.queue, Bytes), -(log.bytes as int), b);
    assert GrantedAt(s.w.pc, b) == if b == Budget(log.queue, Bytes) then log.bytes else 0;
  }

  lemma ReceivedReleases(s: State, site: Site, log: QueuedLog, b: Budget)
    requires s.w.pc == Input(ReleaseBytes(site, log))
    ensures Releases(s, InputStep(s, ReleaseBytes(site, log)), b)
  {
    var s' := InputStep(s, ReleaseBytes(site, log));
    match site case InLastPoll => case InBatch(_) => case InBatchWoken(_) => case _ =>
    ReleasedBytes(s, s', site, log, b);
  }

  lemma RefreshHolds(s: State, site: Site, at: RefreshPc, b: Budget)
    requires s.w.pc == Refresh(site, at) && RefreshStep(s, site, at).Some?
    ensures var s' := RefreshStep(s, site, at).value;
      && s'.sh.used == s.sh.used
      && GrantedToWorker(s'.w, b) + Amount(QueuedIn(s'.lanes), b)
          == GrantedToWorker(s.w, b) + Amount(QueuedIn(s.lanes), b)
  {
    match at
    case Retiring(_) =>
    case RetireCheck(_) =>
    case Taking(todo, visited, taken) =>
      if todo == [] {
        MergeHolds(s, site, taken, b);
      } else {
        TakeHolds(s, todo[0], taken, b);
      }
  }

  lemma MergeHolds(s: State, site: Site, taken: seq<LaneQueues>, b: Budget)
    requires s.w.pc.Refresh? && s.w.pc.refresh.Taking? && s.w.pc.refresh.taken == taken
    ensures GrantedToWorker(MergeTaken(s, site, taken).w, b) == GrantedToWorker(s.w, b)
  {
    var reserved, normal := KindQueues(taken, Reserved), KindQueues(taken, Normal);
    InterleaveIsPermutation(reserved);
    InterleaveIsPermutation(normal);
    AmountOfPermutation(Interleave(reserved), Concat(reserved), b);
    AmountOfPermutation(Interleave(normal), Concat(normal), b);
    AmountConcat(s.w.reserved, Interleave(reserved), b);
    AmountConcat(s.w.normal, Interleave(normal), b);
  }

  lemma TakeHolds(s: State, l: nat, taken: seq<LaneQueues>, b: Budget)
    requires l < |s.lanes|
    ensures
      var q, after := s.lanes[l].queues, taken + [s.lanes[l].queues];
      Amount(Concat(KindQueues(after, Reserved)), b) + Amount(Concat(KindQueues(after, Normal)), b)
        + Amount(QueuedIn(s.lanes[l := s.lanes[l].(queues := EMPTY_QUEUES)]), b)
      == Amount(Concat(KindQueues(taken, Reserved)), b) + Amount(Concat(KindQueues(taken, Normal)), b)
          + Amount(QueuedIn(s.lanes), b)
  {
    var q := s.lanes[l].queues;
    LaneAmountChanges(s.lanes, l, s.lanes[l].(queues := EMPTY_QUEUES), b);
    TakenGrows(taken, q, Reserved);
    TakenGrows(taken, q, Normal);
    AmountConcat(Concat(KindQueues(taken, Reserved)), q.reserved, b);
    AmountConcat(Concat(KindQueues(taken, Normal)), q.normal, b);
    AmountConcat(q.reserved, q.normal, b);
  }

  lemma RefreshKeepsBound(s: State, site: Site, at: RefreshPc, b: Budget)
    requires Bounded(s, b) && s.w.pc == Refresh(site, at) && RefreshStep(s, site, at).Some?
    ensures Bounded(RefreshStep(s, site, at).value, b)
  {
    RefreshHolds(s, site, at, b);
    RefreshFrame(s, site, at);
  }

  /** Once the fence is closed no thread holds anything, so `clear` may zero the counters. */
  lemma DiscardKeepsBound(s: State, stack: seq<seq<QueuedLog>>, b: Budget)
    requires FenceExact(s) && s.sh.fence.ProducersClosed()
    ensures Bounded(Discard(s, stack), b)
  {
    EmptyLanesHoldNothing(s.lanes);
    NothingGranted(s.producers, b);
  }

  lemma OtherWorkKeepsBound(s: State, m: WorkerMove, b: Budget)
    requires Bounded(s, b) && WorkerStep(s, m).Some?
    requires !s.w.pc.Input? && !TouchesLanes(s.w.pc)
    ensures Bounded(WorkerStep(s, m).value, b)
  {
    OtherWorkKeepsInbox(s, m);
    HandlingKeepsBound(s, WorkerStep(s, m).value, b);
  }

  lemma OtherWorkKeepsInbox(s: State, m: WorkerMove)
    requires WorkerStep(s, m).Some? && !s.w.pc.Input? && !TouchesLanes(s.w.pc)
    ensures Quiet(s, WorkerStep(s, m).value) && KeepsInbox(s, WorkerStep(s, m).value)
  {
    match s.w.pc
    case Assemble(at) => BatchFrame(s, at);
    case Wait(at) => WaitFrame(s, at, m);
    case Transmit(stack, at) => TransmitFrame(s, stack, at, m);
    case Settle(logs, resume, at) => SettleFrame(s, logs, resume, at);
    case Fail(stack, at) => FailFrame(s, stack, at);
  }

  lemma InputKeepsBound(s: State, at: InputPc, b: Budget)
    requires Bounded(s, b) && s.w.pc == Input(at)
    ensures Bounded(InputStep(s, at), b)
  {
    InputReleases(s, at, b);
    InputFrame(s, at);
    HandlingKeepsBound(s, InputStep(s, at), b);
  }

  lemma WorkerKeepsBound(s: State, m: WorkerMove, b: Budget)
    requires Bounded(s, b) && FenceExact(s) && ExitsFenced(s) && WorkerStep(s, m).Some?
    ensures Bounded(WorkerStep(s, m).value, b)
  {
    if s.w.pc.Refresh? {
      RefreshKeepsBound(s, s.w.pc.site, s.w.pc.refresh, b);
    } else if s.w.pc.Input? {
      InputKeepsBound(s, s.w.pc.input, b);
    } else if TouchesLanes(s.w.pc) {
      DiscardKeepsBound(s, s.w.pc.retained, b);
    } else {
      OtherWorkKeepsBound(s, m, b);
    }
  }

  // ---------------------------------------------------------------- every step

  lemma StepKeepsBound(s: State, a: Action, b: Budget)
    requires Shape(s) && Bounded(s, b) && Step(s, a).Some? && !Step(s, a).value.h.reset
    ensures Bounded(Step(s, a).value, b)
  {
    match a
    case ByProducer(t, m) => ProducerKeepsBound(s, t, m, b);
    case ByWorker(m) => WorkerKeepsBound(s, m, b);
    case ByFlusher(f, m) => FlushFrame(s, f, m);
    case ByHandle(m) => HandleFrame(s, m);
  }

  lemma ResetStays(s: State, a: Action)
    requires Step(s, a).Some?
    ensures s.h.reset ==> Step(s, a).value.h.reset
  {
    match a
    case ByProducer(t, m) => ProducerKeepsReset(s, t, m);
    case ByWorker(m) => WorkerKeepsReset(s, m);
    case ByFlusher(f, m) => FlushFrame(s, f, m);
    case ByHandle(m) => HandleFrame(s, m);
  }

  lemma ProducerKeepsReset(s: State, t: nat, m: ProducerMove)
    requires ProducerStep(s, t, m).Some?
    ensures ProducerStep(s, t, m).value.h.reset == s.h.reset
  {
    match s.producers[t].pc
    case Outside =>
    case Loaded =>
    case Resolving(_) =>
    case ClaimBytes(_, _) =>
    case UndoBytes(_, _) =>
    case ClaimRecord(_, _) =>
    case UndoRecord(_, _) =>
    case ReturnBytes(_, _) =>
    case Ticketing(_, _) =>
    case Pushing(_) =>
    case Notifying =>
    case Leaving =>
    case Closing =>
    case Gone =>
  }

  lemma WorkerKeepsReset(s: State, m: WorkerMove)
    requires WorkerStep(s, m).Some?
    ensures WorkerStep(s, m).value.h.reset == s.h.reset
  {
    match s.w.pc
    case Refresh(site, at) =>
    case Input(at) => { match at case Top => case Choose => case Poll(_) => case Pop(_) =>
        case ReleaseRecord(_, _) => case ReleaseBytes(_, _) => }
    case Assemble(at) =>
    case Wait(at) =>
    case Transmit(stack, at) =>
    case Settle(logs, resume, at) =>
    case Fail(stack, at) =>
  }

  lemma StepKeepsBudgets(s: State, a: Action)
    requires Shape(s) && BudgetsHold(s) && UndosFit(s) && Step(s, a).Some?
    ensures BudgetsHold(Step(s, a).value) && UndosFit(Step(s, a).value)
  {
    ResetStays(s, a);
    if !Step(s, a).value.h.reset {
      forall b: Budget
        ensures Bounded(Step(s, a).value, b)
      {
        StepKeepsBound(s, a, b);
      }
    }
    StepKeepsUndos(s, a);
  }

  lemma StepKeepsUndos(s: State, a: Action)
    requires UndosFit(s) && Step(s, a).Some?
    ensures UndosFit(Step(s, a).value)
  {
    match a
    case ByProducer(t, m) => ProducerKeepsUndos(s, t, m);
    case ByWorker(m) => WorkerFrame(s, m);
    case ByFlusher(f, m) => FlushFrame(s, f, m);
    case ByHandle(m) => HandleFrame(s, m);
  }

  // ---------------------------------------------------------------- consequences

  lemma {:induction false} UndosAreFew(cfg: Config, ps: seq<Producer>, b: Budget)
    requires forall i :: 0 <= i < |ps| ==> UndoFits(cfg, ps[i].pc, b)
    ensures AllAwaitingUndo(ps, b) <= |ps| * cfg.Capacity(b)
    ensures cfg.Capacity(b) > U64_MAX / 2 ==> AllAwaitingUndo(ps, b) == 0
  {
    if ps != [] {
      UndosAreFew(cfg, ps[..|ps| - 1], b);
      assert |ps| * cfg.Capacity(b) == (|ps| - 1) * cfg.Capacity(b) + cfg.Capacity(b);
    }
  }

  /** A counter never goes below zero, and never above what 64 bits hold as long as
      every thread may over-claim once on top of the capacity. */
  lemma CounterStaysInRange(s: State, b: Budget)
    requires BudgetsHold(s) && UndosFit(s) && !s.h.reset
    requires s.cfg.Capacity(b) <= U64_MAX
    requires (|s.producers| + 1) * s.cfg.Capacity(b) <= U64_MAX || s.cfg.Capacity(b) > U64_MAX / 2
    ensures 0 <= s.sh.used.Get(b) <= U64_MAX
  {
    assert Bounded(s, b);
    UndosAreFew(s.cfg, s.producers, b);
    assert (|s.producers| + 1) * s.cfg.Capacity(b) == |s.producers| * s.cfg.Capacity(b) + s.cfg.Capacity(b);
  }
}
