/**
Where every accepted record is: with a producer, in a lane, with the worker, completed, or
discarded by the terminal branch; exactly one of these, in every reachable state.
*/
module ExporterTickets {
  import opened Records
  import opened Wrappers
  import opened Watermark
  import opened Drain
  import opened Exporter
  import opened ExporterShape

  // ---------------------------------------------------------------- places

  function SiteLogs(site: Site): seq<QueuedLog> {
    if site.InBatch? || site.InBatchWoken? then site.batch else []
  }

  function ResumeLogs(resume: Resume): seq<QueuedLog> {
    match resume
    case ToTop => []
    case ToFill(batch) => batch
    case ToNextSegment(stack) => TopDown(stack)
  }

  function TakenLogs(taken: seq<LaneQueues>): seq<QueuedLog> {
    Concat(KindQueues(taken, Reserved)) + Concat(KindQueues(taken, Normal))
  }

  function RefreshLogs(site: Site, at: RefreshPc): seq<QueuedLog> {
    if at.Taking? then SiteLogs(site) + TakenLogs(at.taken)
    else SiteLogs(site)
  }

  function InputLogs(at: InputPc): seq<QueuedLog> {
    match at
    case Top => []
    case Choose => []
    case Poll(site) => SiteLogs(site)
    case Pop(site) => SiteLogs(site)
    case ReleaseRecord(site, log) => SiteLogs(site) + [log]
    case ReleaseBytes(site, log) => SiteLogs(site) + [log]
  }

  function BatchLogs(at: BatchPc): seq<QueuedLog> {
    match at
    case First(log) => [log]
    case Fill(batch) => batch
    case Next(batch, log) => batch + [log]
    case Export(batch) => batch
  }

  function TransmitLogs(stack: seq<seq<QueuedLog>>, at: TransmitPc): seq<QueuedLog> {
    match at
    case NextSegment => TopDown(stack)
    case Send(records) => records + TopDown(stack)
    case Backoff(records) => records + TopDown(stack)
  }

  /** The records held by the worker's live locals. */
  function PcLogs(pc: WorkerPc): seq<QueuedLog> {
    match pc
    case Refresh(site, at) => RefreshLogs(site, at)
    case Input(at) => InputLogs(at)
    case Assemble(at) => BatchLogs(at)
    case Wait(at) => if at.WaitBatch? then at.batch else []
    case Transmit(stack, at) => TransmitLogs(stack, at)
    case Settle(logs, resume, _) => logs + ResumeLogs(resume)
    case Fail(stack, _) => TopDown(stack)
    case Aborted(_) => []
  }

  function Count(logs: seq<QueuedLog>, log: QueuedLog): nat {
    if logs == [] then 0 else Count(logs[..|logs| - 1], log) + (if logs[|logs| - 1] == log then 1 else 0)
  }

  lemma {:induction false} CountConcat(a: seq<QueuedLog>, b: seq<QueuedLog>, log: QueuedLog)
    ensures Count(a + b, log) == Count(a, log) + Count(b, log)
  {
    if b == [] {
      assert a + b == a;
    } else {
      assert (a + b)[..|a + b| - 1] == a + b[..|b| - 1];
      CountConcat(a, b[..|b| - 1], log);
    }
  }

  lemma {:induction false} CountIsMultiplicity(logs: seq<QueuedLog>, log: QueuedLog)
    ensures Count(logs, log) == multiset(logs)[log]
  {
    if logs != [] {
      assert logs == logs[..|logs| - 1] + [logs[|logs| - 1]];
      CountIsMultiplicity(logs[..|logs| - 1], log);
    }
  }

  function WorkerCount(w: Worker, log: QueuedLog): nat {
    Count(PcLogs(w.pc), log) + Count(w.reserved, log) + Count(w.normal, log) + Count(w.pending, log)
  }

  function HeldBy(p: Producer): seq<QueuedLog> {
    if p.pc.Pushing? then [p.pc.log] else []
  }

  function HeldByThreads(ps: seq<Producer>): seq<QueuedLog> {
    if ps == [] then [] else HeldByThreads(ps[..|ps| - 1]) + HeldBy(ps[|ps| - 1])
  }

  /** How often `log` occurs over all places. */
  function Occurrences(s: State, log: QueuedLog): nat {
    Count(s.h.done, log) + WorkerCount(s.w, log) + Count(QueuedIn(s.lanes), log)
      + Count(HeldByThreads(s.producers), log) + Count(s.h.cleared, log)
  }

  /** The i-th ticket issued is i. */
  ghost predicate Numbered(s: State) {
    && |s.h.issued| == s.sh.nextTicket
    && (forall i :: 0 <= i < |s.h.issued| ==> s.h.issued[i].ticket == i + 1)
  }

  /** Every issued record is in exactly one place, and nothing else is anywhere. */
  ghost predicate Accounted(s: State) {
    s.w.pc.Aborted? || forall log :: Occurrences(s, log) == Count(s.h.issued, log)
  }

  predicate AfterClear(pc: WorkerPc) {
    pc.Aborted? || (pc.Fail? && (pc.fail.TermStatus? || pc.fail.TermNotify? || pc.fail.Discarded?))
  }

  /** Only the terminal branch discards records. */
  ghost predicate ClearedLate(s: State) {
    s.h.cleared != [] ==> AfterClear(s.w.pc)
  }

  lemma InitAccounted(cfg: Config)
    ensures Numbered(Init(cfg)) && Accounted(Init(cfg))
  {
    NobodyHolds(Init(cfg).producers);
  }

  lemma {:induction false} NobodyHolds(ps: seq<Producer>)
    requires forall i :: 0 <= i < |ps| ==> HeldBy(ps[i]) == []
    ensures HeldByThreads(ps) == []
  {
    if ps != [] {
      NobodyHolds(ps[..|ps| - 1]);
    }
  }

  // ---------------------------------------------------------------- changing one place

  lemma {:induction false} HeldConcat(a: seq<Producer>, b: seq<Producer>)
    ensures HeldByThreads(a + b) == HeldByThreads(a) + HeldByThreads(b)
  {
    if b == [] {
      assert a + b == a;
    } else {
      assert (a + b)[..|a + b| - 1] == a + b[..|b| - 1];
      HeldConcat(a, b[..|b| - 1]);
    }
  }

  lemma CountThree(a: seq<QueuedLog>, b: seq<QueuedLog>, c: seq<QueuedLog>, log: QueuedLog)
    ensures Count(a + b + c, log) == Count(a, log) + Count(b, log) + Count(c, log)
  {
    CountConcat(a + b, c, log);
    CountConcat(a, b, log);
  }

  lemma ThreadChanges(ps: seq<Producer>, t: nat, p: Producer, log: QueuedLog)
    requires t < |ps|
    ensures Count(HeldByThreads(ps[t := p]), log) + Count(HeldBy(ps[t]), log)
         == Count(HeldByThreads(ps), log) + Count(HeldBy(p), log)
  {
    HeldAt(ps, t);
    HeldAt(ps[t := p], t);
    CountThree(HeldByThreads(ps[..t]), HeldBy(ps[t]), HeldByThreads(ps[t + 1..]), log);
    CountThree(HeldByThreads(ps[..t]), HeldBy(p), HeldByThreads(ps[t + 1..]), log);
    assert ps[t := p][..t] == ps[..t] && ps[t := p][t + 1..] == ps[t + 1..];
  }

  lemma HeldAt(ps: seq<Producer>, t: nat)
    requires t < |ps|
    ensures HeldByThreads(ps) == HeldByThreads(ps[..t]) + HeldBy(ps[t]) + HeldByThreads(ps[t + 1..])
  {
    SplitAt(ps, t);
    HeldAround(ps[..t], ps[t], ps[t + 1..]);
  }

  lemma HeldAround(before: seq<Producer>, p: Producer, after: seq<Producer>)
    ensures HeldByThreads(before + [p] + after) == HeldByThreads(before) + HeldBy(p) + HeldByThreads(after)
  {
    HeldConcat(before + [p], after);
    HeldConcat(before, [p]);
    HeldByOne(p);
  }

  lemma HeldByOne(p: Producer)
    ensures HeldByThreads([p]) == HeldBy(p)
  {
    assert [p][..0] == [];
  }

  function LogsOf(q: LaneQueues): seq<QueuedLog> {
    q.reserved + q.normal
  }

  lemma {:induction false} QueuedConcat(a: seq<Lane>, b: seq<Lane>)
    ensures QueuedIn(a + b) == QueuedIn(a) + QueuedIn(b)
  {
    if b == [] {
      assert a + b == a;
    } else {
      assert (a + b)[..|a + b| - 1] == a + b[..|b| - 1];
      QueuedConcat(a, b[..|b| - 1]);
    }
  }

  lemma LaneChanges(lanes: seq<Lane>, l: nat, lane: Lane, log: QueuedLog)
    requires l < |lanes|
    ensures Count(QueuedIn(lanes[l := lane]), log) + Count(LogsOf(lanes[l].queues), log)
         == Count(QueuedIn(lanes), log) + Count(LogsOf(lane.queues), log)
  {
    QueuedAt(lanes, l);
    QueuedAt(lanes[l := lane], l);
    CountThree(QueuedIn(lanes[..l]), LogsOf(lanes[l].queues), QueuedIn(lanes[l + 1..]), log);
    CountThree(QueuedIn(lanes[..l]), LogsOf(lane.queues), QueuedIn(lanes[l + 1..]), log);
    assert lanes[l := lane][..l] == lanes[..l] && lanes[l := lane][l + 1..] == lanes[l + 1..];
  }

  lemma QueuedAt(lanes: seq<Lane>, l: nat)
    requires l < |lanes|
    ensures QueuedIn(lanes) == QueuedIn(lanes[..l]) + LogsOf(lanes[l].queues) + QueuedIn(lanes[l + 1..])
  {
    SplitAt(lanes, l);
    QueuedAround(lanes[..l], lanes[l], lanes[l + 1..]);
  }

  lemma QueuedAround(before: seq<Lane>, lane: Lane, after: seq<Lane>)
    ensures QueuedIn(before + [lane] + after) == QueuedIn(before) + LogsOf(lane.queues) + QueuedIn(after)
  {
    QueuedConcat(before + [lane], after);
    QueuedConcat(before, [lane]);
    QueuedInOne(lane);
  }

  lemma QueuedInOne(lane: Lane)
    ensures QueuedIn([lane]) == LogsOf(lane.queues)
  {
    assert [lane][..0] == [];
  }

  lemma {:induction false} EmptyLanesHoldNothing(lanes: seq<Lane>)
    ensures QueuedIn(EmptyLanes(lanes)) == []
  {
    if lanes != [] {
      assert EmptyLanes(lanes)[..|lanes| - 1] == EmptyLanes(lanes[..|lanes| - 1]);
      EmptyLanesHoldNothing(lanes[..|lanes| - 1]);
    }
  }

  lemma TakenGrows(taken: seq<LaneQueues>, q: LaneQueues, kind: QueueKind)
    ensures Concat(KindQueues(taken + [q], kind)) == Concat(KindQueues(taken, kind)) + q.Of(kind)
  {
    assert KindQueues(taken + [q], kind)[..|taken|] == KindQueues(taken, kind);
  }

  // ---------------------------------------------------------------- preservation

  /** Steps of a thread that neither draw a ticket nor push. */
  lemma ThreadKeepsAccount(s: State, s': State, t: nat, p: Producer)
    requires Accounted(s) && t < |s.producers| && s'.producers == s.producers[t := p]
    requires HeldBy(p) == [] == HeldBy(s.producers[t])
    requires QueuedIn(s'.lanes) == QueuedIn(s.lanes)
    requires s'.w == s.w && s'.h == s.h
    ensures Accounted(s')
  {
    forall log
      ensures !s.w.pc.Aborted? ==> Occurrences(s', log) == Count(s'.h.issued, log)
    {
      ThreadChanges(s.producers, t, p, log);
    }
  }

  /** Drawing a ticket issues the record that the thread now holds. */
  lemma IssuingKeepsAccount(s: State, s': State, t: nat, p: Producer, log: QueuedLog)
    requires Accounted(s) && t < |s.producers| && s'.producers == s.producers[t := p]
    requires HeldBy(s.producers[t]) == [] && HeldBy(p) == [log]
    requires s'.lanes == s.lanes && s'.w == s.w
    requires s'.h.issued == s.h.issued + [log] && s'.h.done == s.h.done && s'.h.cleared == s.h.cleared
    ensures Accounted(s')
  {
    forall other
      ensures !s.w.pc.Aborted? ==> Occurrences(s', other) == Count(s'.h.issued, other)
    {
      ThreadChanges(s.producers, t, p, other);
      CountConcat(s.h.issued, [log], other);
    }
  }

  lemma TicketKeepsAccount(s: State, t: nat, draft: Draft, queue: QueueKind)
    requires Accounted(s) && t < |s.producers| && s.producers[t].pc == Ticketing(draft, queue)
    requires TakeTicket(s, t, draft, queue).Some?
    ensures Accounted(TakeTicket(s, t, draft, queue).value)
  {
    var s' := TakeTicket(s, t, draft, queue).value;
    IssuingKeepsAccount(s, s', t, s'.producers[t], s'.producers[t].pc.log);
  }

  lemma PushAdds(q: LaneQueues, pushed: QueuedLog, log: QueuedLog)
    ensures Count(LogsOf(q.Push(pushed)), log) == Count(LogsOf(q), log) + Count([pushed], log)
  {
    var q' := q.Push(pushed);
    CountConcat(q.reserved, q.normal, log);
    CountConcat(q'.reserved, q'.normal, log);
    CountConcat(q.Of(pushed.queue), [pushed], log);
  }

  /** What a push moves: the thread's record goes to its lane. */
  lemma PushPlaces(s: State, t: nat, pushed: QueuedLog)
    requires t < |s.producers| && s.producers[t].pc == Pushing(pushed) && Push(s, t, pushed).Some?
    ensures s.producers[t].lane.Some? && s.producers[t].lane.value < |s.lanes|
    ensures
      var s', l := Push(s, t, pushed).value, s.producers[t].lane.value;
      && s'.w == s.w && s'.h == s.h && |s'.producers| == |s.producers| && |s'.lanes| == |s.lanes|
      && s'.producers == s.producers[t := s'.producers[t]] && HeldBy(s'.producers[t]) == []
      && s'.lanes == s.lanes[l := s'.lanes[l]] && s'.lanes[l].queues == s.lanes[l].queues.Push(pushed)
  {
  }

  lemma PushKeepsAccount(s: State, t: nat, pushed: QueuedLog)
    requires Accounted(s) && t < |s.producers| && s.producers[t].pc == Pushing(pushed) && Push(s, t, pushed).Some?
    ensures Accounted(Push(s, t, pushed).value)
  {
    var s', l := Push(s, t, pushed).value, s.producers[t].lane.value;
    PushPlaces(s, t, pushed);
    PlacedKeepsAccount(s, s', t, s'.producers[t], l, s'.lanes[l], pushed);
  }

  lemma PlacedKeepsAccount(s: State, s': State, t: nat, p: Producer, l: nat, lane: Lane, pushed: QueuedLog)
    requires Accounted(s) && t < |s.producers| && l < |s.lanes| && s'.w == s.w && s'.h == s.h
    requires s'.producers == s.producers[t := p] && HeldBy(s.producers[t]) == [pushed] && HeldBy(p) == []
    requires s'.lanes == s.lanes[l := lane] && lane.queues == s.lanes[l].queues.Push(pushed)
    ensures Accounted(s')
  {
    forall log
      ensures !s.w.pc.Aborted? ==> Occurrences(s', log) == Count(s'.h.issued, log)
    {
      ThreadChanges(s.producers, t, p, log);
      LaneChanges(s.lanes, l, lane, log);
      PushAdds(s.lanes[l].queues, pushed, log);
    }
  }

  lemma ExitKeepsQueued(s: State, l: nat)
    requires l < |s.lanes|
    ensures QueuedIn(s.lanes[l := s.lanes[l].(closed := true)]) == QueuedIn(s.lanes)
  {
    SameQueuesSameLogs(s.lanes, s.lanes[l := s.lanes[l].(closed := true)]);
  }

  lemma {:induction false} SameQueuesSameLogs(a: seq<Lane>, b: seq<Lane>)
    requires |a| == |b| && forall i :: 0 <= i < |a| ==> a[i].queues == b[i].queues
    ensures QueuedIn(a) == QueuedIn(b)
  {
    if a != [] {
      SameQueuesSameLogs(a[..|a| - 1], b[..|b| - 1]);
    }
  }

  lemma ProducerKeepsAccount(s: State, t: nat, m: ProducerMove)
    requires Accounted(s) && LanesOwned(s) && ProducerStep(s, t, m).Some?
    ensures Accounted(ProducerStep(s, t, m).value)
  {
    var p := s.producers[t];
    if p.pc.Ticketing? {
      TicketKeepsAccount(s, t, p.pc.draft, p.pc.queue);
    } else if OnlyMoves(p, m) {
      var pc := ProducerMoves(s, t, m);
      ThreadKeepsAccount(s, ProducerStep(s, t, m).value, t, p.(pc := pc));
    } else {
      match p.pc
      case Outside => ExitKeepsAccount(s, t);
      case Resolving(draft) => RegisteringKeepsAccount(s, t, draft);
      case Pushing(log) => PushKeepsAccount(s, t, log);
    }
  }

  lemma ExitKeepsAccount(s: State, t: nat)
    requires Accounted(s) && LanesOwned(s)
    requires t < |s.producers| && s.producers[t].pc.Outside? && s.producers[t].lane.Some?
    ensures EnterOrExit(s, t, Exit).Some? && Accounted(EnterOrExit(s, t, Exit).value)
  {
    var s' := EnterOrExit(s, t, Exit).value;
    ExitKeepsQueued(s, s.producers[t].lane.value);
    ThreadKeepsAccount(s, s', t, s'.producers[t]);
  }

  lemma EmptyLaneAddsNothing(lanes: seq<Lane>, owner: nat)
    ensures QueuedIn(lanes + [Lane(owner, EMPTY_QUEUES, false)]) == QueuedIn(lanes)
  {
    assert (lanes + [Lane(owner, EMPTY_QUEUES, false)])[..|lanes|] == lanes;
  }

  lemma RegisteringKeepsAccount(s: State, t: nat, draft: Draft)
    requires Accounted(s) && t < |s.producers| && s.producers[t].pc == Resolving(draft)
    requires s.producers[t].lane.None? && ResolveLane(s, t, draft).Some?
    ensures Accounted(ResolveLane(s, t, draft).value)
  {
    EmptyLaneAddsNothing(s.lanes, t);
    ThreadKeepsAccount(s, ResolveLane(s, t, draft).value, t, Producer(Some(|s.lanes|), ClaimBytes(draft, Normal)));
  }

  // ---------------------------------------------------------------- worker steps

  lemma CountHead(logs: seq<QueuedLog>, log: QueuedLog)
    requires logs != []
    ensures Count(logs, log) == Count([logs[0]], log) + Count(logs[1..], log)
  {
    assert logs == [logs[0]] + logs[1..];
    CountConcat([logs[0]], logs[1..], log);
  }

  /** Records in the worker's hands or completed. */
  function Handled(s: State, log: QueuedLog): nat {
    Count(s.h.done, log) + WorkerCount(s.w, log)
  }

  /** A step that only renames the worker's locals. */
  lemma SameHands(s: State, s': State, log: QueuedLog)
    requires PcLogs(s'.w.pc) == PcLogs(s.w.pc) && s'.h.done == s.h.done
    requires s'.w.reserved == s.w.reserved && s'.w.normal == s.w.normal && s'.w.pending == s.w.pending
    ensures Handled(s', log) == Handled(s, log)
  {
  }

  /** A step that moves the head of a queue into the worker's locals, or back. */
  lemma MovedHead(s: State, s': State, queue: seq<QueuedLog>, log: QueuedLog)
    requires queue != [] && s'.h.done == s.h.done
    requires PcLogs(s'.w.pc) == PcLogs(s.w.pc) + [queue[0]]
    requires
      || (queue == s.w.reserved && s'.w.reserved == queue[1..] && s'.w.normal == s.w.normal
          && s'.w.pending == s.w.pending)
      || (queue == s.w.normal && s'.w.normal == queue[1..] && s'.w.reserved == s.w.reserved
          && s'.w.pending == s.w.pending)
      || (queue == s.w.pending && s'.w.pending == queue[1..] && s'.w.reserved == s.w.reserved
          && s'.w.normal == s.w.normal)
    ensures Handled(s', log) == Handled(s, log)
  {
    CountHead(queue, log);
    CountConcat(PcLogs(s.w.pc), [queue[0]], log);
  }

  lemma ParkedAgain(s: State, s': State, r: QueuedLog, log: QueuedLog)
    requires s'.h.done == s.h.done && s'.w.reserved == s.w.reserved && s'.w.normal == s.w.normal
    requires PcLogs(s.w.pc) == PcLogs(s'.w.pc) + [r]
    requires s'.w.pending == [r] + s.w.pending || s'.w.pending == s.w.pending + [r]
    ensures Handled(s', log) == Handled(s, log)
  {
    CountConcat(PcLogs(s'.w.pc), [r], log);
    CountConcat([r], s.w.pending, log);
    CountConcat(s.w.pending, [r], log);
  }

  lemma InputBalances(s: State, at: InputPc, log: QueuedLog)
    requires WorkerShape(s.w) && s.w.pc == Input(at)
    ensures Handled(InputStep(s, at), log) == Handled(s, log)
  {
    var s' := InputStep(s, at);
    match at
    case Top => SameHands(s, s', log);
    case Choose => ChooseBalances(s, log);
    case Poll(site) => SameHands(s, s', log);
    case Pop(site) => PopBalances(s, site, log);
    case ReleaseRecord(_, _) => SameHands(s, s', log);
    case ReleaseBytes(site, r) => ReceivedBalances(s, site, r, log);
  }

  lemma InputClearsNothing(s: State, at: InputPc)
    ensures InputStep(s, at).h.cleared == s.h.cleared
  {
    match at
    case Top =>
    case Choose =>
    case Poll(_) =>
    case Pop(_) =>
    case ReleaseRecord(_, _) =>
    case ReleaseBytes(InLastPoll, _) =>
    case ReleaseBytes(InBatch(_), _) =>
    case ReleaseBytes(InBatchWoken(_), _) =>
    case ReleaseBytes(_, _) =>
  }

  lemma ChooseBalances(s: State, log: QueuedLog)
    requires s.w.pc == Input(Choose)
    ensures Handled(InputStep(s, Choose), log) == Handled(s, log)
  {
    if s.w.pending != [] {
      MovedHead(s, InputStep(s, Choose), s.w.pending, log);
    } else {
      SameHands(s, InputStep(s, Choose), log);
    }
  }

  lemma PopBalances(s: State, site: Site, log: QueuedLog)
    requires WorkerShape(s.w) && s.w.pc == Input(Pop(site))
    ensures Handled(InputStep(s, Pop(site)), log) == Handled(s, log)
  {
    var s' := InputStep(s, Pop(site));
    if s.w.reserved != [] {
      MovedHead(s, s', s.w.reserved, log);
    } else if s.w.normal != [] {
      MovedHead(s, s', s.w.normal, log);
    } else {
      match site case InReceive => case InDrain => case InLastPoll => case InBatch(_) => case InBatchWoken(_) =>
      SameHands(s, s', log);
    }
  }

  lemma ReceivedBalances(s: State, site: Site, r: QueuedLog, log: QueuedLog)
    requires s.w.pc == Input(ReleaseBytes(site, r))
    ensures Handled(InputStep(s, ReleaseBytes(site, r)), log) == Handled(s, log)
  {
    var s' := InputStep(s, ReleaseBytes(site, r));
    match site
    case InLastPoll => ParkedAgain(s, s', r, log);
    case InBatch(_) => SameHands(s, s', log);
    case InBatchWoken(_) => SameHands(s, s', log);
    case _ => SameHands(s, s', log);
  }

  lemma BatchBalances(s: State, at: BatchPc, log: QueuedLog)
    requires s.w.pc == Assemble(at)
    ensures Handled(BatchStep(s, at), log) == Handled(s, log)
    ensures BatchStep(s, at).h.cleared == s.h.cleared
  {
    match at
    case First(r) => FirstBalances(s, r, log);
    case Fill(batch) => FillBalances(s, batch, log);
    case Next(batch, r) => NextBalances(s, batch, r, log);
    case Export(batch) => ExportBalances(s, batch, log);
  }

  lemma FirstBalances(s: State, r: QueuedLog, log: QueuedLog)
    requires s.w.pc == Assemble(First(r))
    ensures Handled(BatchStep(s, First(r)), log) == Handled(s, log)
  {
    assert [r] + ResumeLogs(ToTop) == [r];
    SameHands(s, BatchStep(s, First(r)), log);
  }

  lemma FillBalances(s: State, batch: seq<QueuedLog>, log: QueuedLog)
    requires s.w.pc == Assemble(Fill(batch))
    ensures Handled(BatchStep(s, Fill(batch)), log) == Handled(s, log)
  {
    if |batch| < s.cfg.maxBatchRecords && s.w.pending != [] {
      MovedHead(s, BatchStep(s, Fill(batch)), s.w.pending, log);
    } else {
      SameHands(s, BatchStep(s, Fill(batch)), log);
    }
  }

  lemma ExportBalances(s: State, batch: seq<QueuedLog>, log: QueuedLog)
    requires s.w.pc == Assemble(Export(batch))
    ensures Handled(BatchStep(s, Export(batch)), log) == Handled(s, log)
  {
    TopDownPush([], batch);
    assert [] + [batch] == [batch];
    SameHands(s, BatchStep(s, Export(batch)), log);
  }

  lemma NextBalances(s: State, batch: seq<QueuedLog>, r: QueuedLog, log: QueuedLog)
    requires s.w.pc == Assemble(Next(batch, r))
    ensures Handled(BatchStep(s, Next(batch, r)), log) == Handled(s, log)
  {
    var s' := BatchStep(s, Next(batch, r));
    if !s.cfg.Fits([r]) {
      CountConcat([r], batch, log);
      CountConcat(batch, [r], log);
    } else if !s.cfg.Fits(batch + [r]) {
      ParkedAgain(s, s', r, log);
    } else {
      SameHands(s, s', log);
    }
  }

  lemma WaitBalances(s: State, at: WaitPc, m: WorkerMove, log: QueuedLog)
    requires s.w.pc == Wait(at) && WaitStep(s, at, m).Some?
    ensures Handled(WaitStep(s, at, m).value, log) == Handled(s, log)
    ensures WaitStep(s, at, m).value.h.cleared == s.h.cleared
  {
    match at
    case WaitReceive =>
    case WaitBatch(_) =>
    case WaitFence =>
    case CheckFence =>
    case StopStatus =>
    case StopNotify =>
    case Drained =>
  }

  lemma TransmitBalances(s: State, stack: seq<seq<QueuedLog>>, at: TransmitPc, m: WorkerMove, log: QueuedLog)
    requires s.w.pc == Transmit(stack, at) && TransmitStep(s, stack, at, m).Some?
    ensures Handled(TransmitStep(s, stack, at, m).value, log) == Handled(s, log)
    ensures TransmitStep(s, stack, at, m).value.h.cleared == s.h.cleared
  {
    match at
    case NextSegment =>
    case Send(records) => AnswerBalances(s, stack, records, m.outcome, log);
    case Backoff(_) =>
  }

  lemma AnswerBalances(s: State, stack: seq<seq<QueuedLog>>, records: seq<QueuedLog>, outcome: Outcome, log: QueuedLog)
    requires s.w.pc == Transmit(stack, Send(records)) && AnswerStep(s, stack, records, outcome).Some?
    ensures Handled(AnswerStep(s, stack, records, outcome).value, log) == Handled(s, log)
    ensures AnswerStep(s, stack, records, outcome).value.h.cleared == s.h.cleared
  {
    AnswerKeepsLogs(s, stack, records, outcome);
    SameHands(s, AnswerStep(s, stack, records, outcome).value, log);
  }

  lemma AnswerKeepsLogs(s: State, stack: seq<seq<QueuedLog>>, records: seq<QueuedLog>, outcome: Outcome)
    requires s.w.pc == Transmit(stack, Send(records)) && AnswerStep(s, stack, records, outcome).Some?
    ensures var s' := AnswerStep(s, stack, records, outcome).value;
      && PcLogs(s'.w.pc) == PcLogs(s.w.pc) && s'.h.done == s.h.done && s'.h.cleared == s.h.cleared
      && s'.w.reserved == s.w.reserved && s'.w.normal == s.w.normal && s'.w.pending == s.w.pending
  {
    match outcome
    case Accepted(_) =>
    case InvalidPayload => SplitKeepsOrder(stack, records);
    case Retryable =>
    case Permanent => TopDownPush(stack, records);
  }

  lemma SettleBalances(s: State, logs: seq<QueuedLog>, resume: Resume, at: SettlePc, log: QueuedLog)
    requires s.w.pc == Settle(logs, resume, at)
    ensures Handled(SettleStep(s, logs, resume, at), log) == Handled(s, log)
    ensures SettleStep(s, logs, resume, at).h.cleared == s.h.cleared
  {
    match at
    case Complete => if logs == [] { ResumeBalances(s, resume, log); } else { CompleteBalances(s, logs, resume, log); }
    case Publish =>
    case Progress =>
  }

  lemma ResumedLogs(resume: Resume)
    ensures PcLogs(Resumed(resume)) == ResumeLogs(resume)
  {
    match resume case ToTop => case ToFill(_) => case ToNextSegment(_) =>
  }

  lemma ResumeBalances(s: State, resume: Resume, log: QueuedLog)
    requires s.w.pc == Settle([], resume, Complete)
    ensures Handled(SettleStep(s, [], resume, Complete), log) == Handled(s, log)
    ensures SettleStep(s, [], resume, Complete).h.cleared == s.h.cleared
  {
    ResumedLogs(resume);
    assert [] + ResumeLogs(resume) == ResumeLogs(resume);
    SameHands(s, To(s, Resumed(resume)), log);
  }

  lemma CompleteBalances(s: State, logs: seq<QueuedLog>, resume: Resume, log: QueuedLog)
    requires s.w.pc == Settle(logs, resume, Complete) && logs != []
    ensures Handled(SettleStep(s, logs, resume, Complete), log) == Handled(s, log)
    ensures SettleStep(s, logs, resume, Complete).h.cleared == s.h.cleared
  {
    CountHead(logs, log);
    CountConcat(logs, ResumeLogs(resume), log);
    CountConcat(logs[1..], ResumeLogs(resume), log);
    CountConcat(s.h.done, [logs[0]], log);
  }

  lemma FailBalances(s: State, stack: seq<seq<QueuedLog>>, at: FailPc, m: WorkerMove, log: QueuedLog)
    requires s.w.pc == Fail(stack, at) && !at.TermClear? && FailStep(s, stack, at).Some?
    ensures Handled(FailStep(s, stack, at).value, log) == Handled(s, log)
    ensures FailStep(s, stack, at).value.h.cleared == s.h.cleared
  {
    match at
    case Terminal =>
    case TermShutdown =>
    case TermFence =>
    case TermWait =>
    case TermStatus(_) =>
    case TermNotify(_) =>
    case Discarded(_) =>
  }

  /** `clear` discards the inbox and the lanes, and nothing else: neither `pending` nor the stack. */
  lemma DiscardKeepsAccount(s: State, stack: seq<seq<QueuedLog>>)
    requires Accounted(s) && s.w.pc == Fail(stack, TermClear) && s.h.cleared == []
    ensures Accounted(Discard(s, stack))
  {
    var s' := Discard(s, stack);
    EmptyLanesHoldNothing(s.lanes);
    forall log
      ensures Occurrences(s', log) == Count(s'.h.issued, log)
    {
      CountConcat(s.w.reserved + s.w.normal, QueuedIn(s.lanes), log);
      CountConcat(s.w.reserved, s.w.normal, log);
    }
  }

  lemma RefreshBalances(s: State, site: Site, at: RefreshPc, log: QueuedLog)
    requires s.w.pc == Refresh(site, at) && RefreshStep(s, site, at).Some?
    ensures var s' := RefreshStep(s, site, at).value;
      Handled(s', log) + Count(QueuedIn(s'.lanes), log) == Handled(s, log) + Count(QueuedIn(s.lanes), log)
    ensures RefreshStep(s, site, at).value.h == s.h
  {
    match at
    case Retiring(i) => RetiringBalances(s, site, i, log);
    case RetireCheck(i) => RetireCheckBalances(s, site, i, log);
    case Taking(todo, visited, taken) =>
      if todo == [] {
        MergeBalances(s, site, todo, visited, taken, log);
      } else {
        TakeBalances(s, site, todo, visited, taken, log);
      }
  }

  lemma RetiringBalances(s: State, site: Site, i: nat, log: QueuedLog)
    requires s.w.pc == Refresh(site, Retiring(i))
    ensures RefreshStep(s, site, Retiring(i)).Some?
    ensures var s' := RefreshStep(s, site, Retiring(i)).value;
      Handled(s', log) == Handled(s, log) && s'.lanes == s.lanes && s'.h == s.h
  {
    NothingTaken(site);
    SameHands(s, RefreshStep(s, site, Retiring(i)).value, log);
  }

  lemma RetireCheckBalances(s: State, site: Site, i: nat, log: QueuedLog)
    requires s.w.pc == Refresh(site, RetireCheck(i))
    ensures RefreshStep(s, site, RetireCheck(i)).Some?
    ensures var s' := RefreshStep(s, site, RetireCheck(i)).value;
      Handled(s', log) == Handled(s, log) && s'.lanes == s.lanes && s'.h == s.h
  {
    SameHands(s, RefreshStep(s, site, RetireCheck(i)).value, log);
  }

  lemma NothingTaken(site: Site)
    ensures SiteLogs(site) + TakenLogs([]) == SiteLogs(site)
  {
  }

  lemma InterleaveCount(qs: seq<seq<QueuedLog>>, log: QueuedLog)
    ensures Count(Interleave(qs), log) == Count(Concat(qs), log)
  {
    InterleaveIsPermutation(qs);
    CountIsMultiplicity(Interleave(qs), log);
    CountIsMultiplicity(Concat(qs), log);
  }

  lemma MergeBalances(s: State, site: Site, todo: seq<nat>, visited: seq<nat>, taken: seq<LaneQueues>, log: QueuedLog)
    requires s.w.pc == Refresh(site, Taking(todo, visited, taken))
    ensures Handled(MergeTaken(s, site, taken), log) == Handled(s, log)
    ensures MergeTaken(s, site, taken).lanes == s.lanes
  {
    var reserved, normal := KindQueues(taken, Reserved), KindQueues(taken, Normal);
    InterleaveCount(reserved, log);
    InterleaveCount(normal, log);
    CountConcat(s.w.reserved, Interleave(reserved), log);
    CountConcat(s.w.normal, Interleave(normal), log);
    CountConcat(SiteLogs(site), Concat(reserved) + Concat(normal), log);
    CountConcat(Concat(reserved), Concat(normal), log);
  }

  /** What taking lane `l` changes. */
  lemma TakePlaces(s: State, site: Site, todo: seq<nat>, visited: seq<nat>, taken: seq<LaneQueues>)
    requires s.w.pc == Refresh(site, Taking(todo, visited, taken)) && todo != [] && todo[0] < |s.lanes|
    ensures RefreshStep(s, site, s.w.pc.refresh).Some?
    ensures var s' := RefreshStep(s, site, s.w.pc.refresh).value;
      && s'.lanes == s.lanes[todo[0] := s.lanes[todo[0]].(queues := EMPTY_QUEUES)] && s'.h == s.h
      && s'.w.reserved == s.w.reserved && s'.w.normal == s.w.normal && s'.w.pending == s.w.pending
      && PcLogs(s'.w.pc) == SiteLogs(site) + TakenLogs(taken + [s.lanes[todo[0]].queues])
  {
  }

  lemma TakeBalances(s: State, site: Site, todo: seq<nat>, visited: seq<nat>, taken: seq<LaneQueues>, log: QueuedLog)
    requires s.w.pc == Refresh(site, Taking(todo, visited, taken)) && todo != [] && todo[0] < |s.lanes|
    ensures var s' := RefreshStep(s, site, s.w.pc.refresh).value;
      && Handled(s', log) + Count(QueuedIn(s'.lanes), log) == Handled(s, log) + Count(QueuedIn(s.lanes), log)
      && s'.h == s.h
  {
    TakePlaces(s, site, todo, visited, taken);
    LaneChanges(s.lanes, todo[0], s.lanes[todo[0]].(queues := EMPTY_QUEUES), log);
    TakenCount(site, taken, s.lanes[todo[0]].queues, log);
    assert LogsOf(EMPTY_QUEUES) == [];
  }

  lemma TakenCount(site: Site, taken: seq<LaneQueues>, q: LaneQueues, log: QueuedLog)
    ensures Count(SiteLogs(site) + TakenLogs(taken + [q]), log)
        == Count(SiteLogs(site) + TakenLogs(taken), log) + Count(LogsOf(q), log)
  {
    TakenGrows(taken, q, Reserved);
    TakenGrows(taken, q, Normal);
    var r, n := Concat(KindQueues(taken, Reserved)), Concat(KindQueues(taken, Normal));
    CountConcat(SiteLogs(site), r + n, log);
    CountConcat(SiteLogs(site), (r + q.reserved) + (n + q.normal), log);
    CountConcat(r, n, log);
    CountConcat(r + q.reserved, n + q.normal, log);
    CountConcat(r, q.reserved, log);
    CountConcat(n, q.normal, log);
    CountConcat(q.reserved, q.normal, log);
  }

  lemma WorkerBalances(s: State, m: WorkerMove, log: QueuedLog)
    requires WorkerShape(s.w) && WorkerStep(s, m).Some? && !TouchesLanes(s.w.pc)
    ensures Handled(WorkerStep(s, m).value, log) == Handled(s, log)
    ensures WorkerStep(s, m).value.h.cleared == s.h.cleared
  {
    match s.w.pc
    case Input(at) => InputBalances(s, at, log); InputClearsNothing(s, at);
    case Assemble(at) => BatchBalances(s, at, log);
    case Wait(at) => WaitBalances(s, at, m, log);
    case Transmit(stack, at) => TransmitBalances(s, stack, at, m, log);
    case Settle(logs, resume, at) => SettleBalances(s, logs, resume, at, log);
    case Fail(stack, at) => FailBalances(s, stack, at, m, log);
  }

  lemma QuietKeepsAccount(s: State, m: WorkerMove)
    requires Accounted(s) && WorkerShape(s.w) && WorkerStep(s, m).Some? && !TouchesLanes(s.w.pc)
    ensures Accounted(WorkerStep(s, m).value)
  {
    WorkerFrame(s, m);
    var s' := WorkerStep(s, m).value;
    forall log
      ensures Occurrences(s', log) == Count(s'.h.issued, log)
    {
      WorkerBalances(s, m, log);
      assert Occurrences(s, log) == Count(s.h.issued, log);
    }
  }

  lemma RefreshKeepsAccount(s: State, site: Site, at: RefreshPc)
    requires Accounted(s) && s.w.pc == Refresh(site, at) && RefreshStep(s, site, at).Some?
    ensures Accounted(RefreshStep(s, site, at).value)
  {
    RefreshFrame(s, site, at);
    var s' := RefreshStep(s, site, at).value;
    forall log
      ensures Occurrences(s', log) == Count(s'.h.issued, log)
    {
      RefreshBalances(s, site, at, log);
      assert Occurrences(s, log) == Count(s.h.issued, log);
    }
  }

  lemma WorkerKeepsAccount(s: State, m: WorkerMove)
    requires Accounted(s) && ClearedLate(s) && WorkerShape(s.w) && WorkerStep(s, m).Some?
    ensures Accounted(WorkerStep(s, m).value)
  {
    if s.w.pc.Refresh? {
      RefreshKeepsAccount(s, s.w.pc.site, s.w.pc.refresh);
    } else if TouchesLanes(s.w.pc) {
      DiscardKeepsAccount(s, s.w.pc.retained);
    } else {
      QuietKeepsAccount(s, m);
    }
  }

  lemma WorkerKeepsClearing(s: State, m: WorkerMove)
    requires ClearedLate(s) && WorkerStep(s, m).Some?
    ensures ClearedLate(WorkerStep(s, m).value)
  {
    match s.w.pc
    case Refresh(site, at) =>
    case Input(at) => InputFrame(s, at);
    case Assemble(at) => BatchFrame(s, at);
    case Wait(at) => WaitFrame(s, at, m);
    case Transmit(stack, at) => TransmitFrame(s, stack, at, m);
    case Settle(logs, resume, at) => SettleFrame(s, logs, resume, at);
    case Fail(stack, at) =>
  }

  /** Every step of every actor keeps the account of records. */
  lemma StepKeepsAccount(s: State, a: Action)
    requires Shape(s) && Numbered(s) && Accounted(s) && ClearedLate(s) && Step(s, a).Some?
    ensures Numbered(Step(s, a).value) && Accounted(Step(s, a).value) && ClearedLate(Step(s, a).value)
  {
    match a
    case ByProducer(t, m) =>
      ProducerKeepsAccount(s, t, m);
      ProducerKeepsNumbers(s, t, m);
    case ByWorker(m) =>
      WorkerKeepsAccount(s, m);
      WorkerKeepsClearing(s, m);
      WorkerFrame(s, m);
    case ByFlusher(f, m) => FlushFrame(s, f, m);
    case ByHandle(m) => HandleKeepsAccount(s, m);
  }

  lemma ProducerKeepsNumbers(s: State, t: nat, m: ProducerMove)
    requires Numbered(s) && ClearedLate(s) && ProducerStep(s, t, m).Some?
    ensures Numbered(ProducerStep(s, t, m).value) && ClearedLate(ProducerStep(s, t, m).value)
  {
    if OnlyMoves(s.producers[t], m) {
      var pc := ProducerMoves(s, t, m);
    }
    ProducerKeepsWorker(s, t, m);
  }

  lemma HandleKeepsAccount(s: State, m: HandleMove)
    requires Numbered(s) && Accounted(s) && ClearedLate(s) && HandleStep(s, m).Some?
    ensures Numbered(HandleStep(s, m).value) && Accounted(HandleStep(s, m).value) && ClearedLate(HandleStep(s, m).value)
  {
    HandleFrame(s, m);
    var s' := HandleStep(s, m).value;
    if !s'.w.pc.Aborted? {
      forall log
        ensures Occurrences(s', log) == Count(s'.h.issued, log)
      {
        assert Occurrences(s, log) == Count(s.h.issued, log);
      }
    }
  }

  // ---------------------------------------------------------------- what the account means

  /** No two issued records are equal: tickets are distinct. */
  lemma {:induction false} IssuedOnce(issued: seq<QueuedLog>, log: QueuedLog)
    requires forall i :: 0 <= i < |issued| ==> issued[i].ticket == i + 1
    ensures Count(issued, log) == if log in issued then 1 else 0
  {
    if issued != [] {
      var init, last := issued[..|issued| - 1], issued[|issued| - 1];
      IssuedOnce(init, log);
      assert issued == init + [last];
      assert last !in init;
    }
  }

  lemma {:induction false} CountMember(logs: seq<QueuedLog>, log: QueuedLog)
    ensures log in logs <==> Count(logs, log) > 0
  {
    if logs != [] {
      CountMember(logs[..|logs| - 1], log);
      assert logs == logs[..|logs| - 1] + [logs[|logs| - 1]];
    }
  }
}
