/**
Conservation of accepted records: the shared counters, the records they stand for,
and what the terminal exit reports as remaining.
*/
module ExporterConservation {
  import opened Records
  import opened Wrappers
  import opened Exporter
  import opened ExporterShape
  import opened ExporterTickets
  import opened ExporterFlush
  import opened ExporterBudgets

  // ---------------------------------------------------------------- how many records there are

  function Everything(s: State): seq<QueuedLog> {
    s.h.done + PcLogs(s.w.pc) + s.w.reserved + s.w.normal + s.w.pending
      + QueuedIn(s.lanes) + HeldByThreads(s.producers) + s.h.cleared
  }

  lemma EverythingCounts(s: State, log: QueuedLog)
    ensures Count(Everything(s), log) == Occurrences(s, log)
  {
    var a := s.h.done + PcLogs(s.w.pc) + s.w.reserved + s.w.normal + s.w.pending;
    CountConcat(a + QueuedIn(s.lanes) + HeldByThreads(s.producers), s.h.cleared, log);
    CountConcat(a + QueuedIn(s.lanes), HeldByThreads(s.producers), log);
    CountConcat(a, QueuedIn(s.lanes), log);
    CountConcat(s.h.done + PcLogs(s.w.pc) + s.w.reserved + s.w.normal, s.w.pending, log);
    CountConcat(s.h.done + PcLogs(s.w.pc) + s.w.reserved, s.w.normal, log);
    CountConcat(s.h.done + PcLogs(s.w.pc), s.w.reserved, log);
    CountConcat(s.h.done, PcLogs(s.w.pc), log);
  }

  lemma SameCountsSameLength(a: seq<QueuedLog>, b: seq<QueuedLog>)
    requires forall log :: Count(a, log) == Count(b, log)
    ensures |a| == |b|
  {
    forall log
      ensures multiset(a)[log] == multiset(b)[log]
    {
      CountIsMultiplicity(a, log);
      CountIsMultiplicity(b, log);
      assert Count(a, log) == Count(b, log);
    }
    assert multiset(a) == multiset(b);
    assert |multiset(a)| == |a| && |multiset(b)| == |b|;
  }

  /** The last ticket drawn is the number of records over all places. */
  lemma TicketsAddUp(s: State)
    requires Numbered(s) && Accounted(s) && !s.w.pc.Aborted?
    ensures s.sh.nextTicket == |s.h.done| + |PcLogs(s.w.pc)| + |s.w.reserved| + |s.w.normal| + |s.w.pending|
              + |QueuedIn(s.lanes)| + |HeldByThreads(s.producers)| + |s.h.cleared|
  {
    forall log
      ensures Count(Everything(s), log) == Count(s.h.issued, log)
    {
      EverythingCounts(s, log);
      assert Occurrences(s, log) == Count(s.h.issued, log);
    }
    SameCountsSameLength(Everything(s), s.h.issued);
  }

  // ---------------------------------------------------------------- what the depth counters show

  /** Threads that hold a slot of a queue but have not drawn their ticket yet. */
  function Unticketed(ps: seq<Producer>): nat {
    if ps == [] then 0 else Unticketed(ps[..|ps| - 1]) + (if ps[|ps| - 1].pc.Ticketing? then 1 else 0)
  }

  /** Threads that over-claimed a slot and have not rolled it back yet. */
  function Overclaiming(ps: seq<Producer>): nat {
    if ps == [] then 0 else Overclaiming(ps[..|ps| - 1]) + (if ps[|ps| - 1].pc.UndoRecord? then 1 else 0)
  }

  function Depth(s: State): int {
    s.sh.used.normalDepth + s.sh.used.reservedDepth
  }

  lemma {:induction false} SlotsAreRecords(logs: seq<QueuedLog>)
    ensures Amount(logs, Budget(Normal, Slots)) + Amount(logs, Budget(Reserved, Slots)) == |logs|
  {
    if logs != [] {
      SlotsAreRecords(logs[..|logs| - 1]);
    }
  }

  lemma {:induction false} SlotsOfThreads(ps: seq<Producer>)
    ensures AllGranted(ps, Budget(Normal, Slots)) + AllGranted(ps, Budget(Reserved, Slots))
         == |HeldByThreads(ps)| + Unticketed(ps)
    ensures AllAwaitingUndo(ps, Budget(Normal, Slots)) + AllAwaitingUndo(ps, Budget(Reserved, Slots))
        == Overclaiming(ps)
  {
    if ps != [] {
      SlotsOfThreads(ps[..|ps| - 1]);
      SlotsOfThread(ps[|ps| - 1]);
    }
  }

  lemma SlotsOfThread(p: Producer)
    ensures GrantedTo(p.pc, Budget(Normal, Slots)) + GrantedTo(p.pc, Budget(Reserved, Slots))
         == |HeldBy(p)| + (if p.pc.Ticketing? then 1 else 0)
    ensures AwaitingUndo(p.pc, Budget(Normal, Slots)) + AwaitingUndo(p.pc, Budget(Reserved, Slots))
         == (if p.pc.UndoRecord? then 1 else 0)
  {
    match p.pc
    case Outside =>
    case Loaded =>
    case Resolving(_) =>
    case ClaimBytes(_, _) =>
    case UndoBytes(_, _) =>
    case ClaimRecord(_, _) =>
    case UndoRecord(_, queue) => { match queue case Normal => case Reserved => }
    case ReturnBytes(_, _) =>
    case Ticketing(_, queue) => { match queue case Normal => case Reserved => }
    case Pushing(log) => { match log.queue case Normal => case Reserved => }
    case Notifying =>
    case Leaving =>
    case Closing =>
    case Gone =>
  }

  /** Control points at which no record is between two hands. */
  predicate NothingInFlight(pc: WorkerPc) {
    (pc.Input? && (pc.input.Top? || pc.input.Choose?)) || (pc.Wait? && !pc.wait.WaitBatch?) || pc.Fail?
  }

  /** The two depth counters together: lanes, inbox, and what producers have claimed. */
  lemma DepthAddsUp(s: State)
    requires BudgetsHold(s) && !s.h.reset && NothingInFlight(s.w.pc)
    ensures Depth(s) == |QueuedIn(s.lanes)| + |s.w.reserved| + |s.w.normal|
              + |HeldByThreads(s.producers)| + Unticketed(s.producers) + Overclaiming(s.producers)
  {
    assert Bounded(s, Budget(Normal, Slots)) && Bounded(s, Budget(Reserved, Slots));
    SlotsOfThreads(s.producers);
    SlotsAreRecords(QueuedIn(s.lanes));
    SlotsAreRecords(s.w.reserved);
    SlotsAreRecords(s.w.normal);
  }

  /** At the head of the main loop everything accepted, or claimed and about to be, has
      been exported, has been rejected, is counted by a depth counter, or is parked in
      `pending`. An oversize record is counted once, as rejected. */
  lemma CountersAreConserved(s: State)
    requires Numbered(s) && Accounted(s) && ClearedLate(s) && Tallied(s) && BudgetsHold(s) && !s.h.reset
    requires WorkerShape(s.w) && s.w.pc == Input(Top)
    ensures s.sh.nextTicket + Unticketed(s.producers) + Overclaiming(s.producers)
         == s.sh.exported + s.sh.rejected + Depth(s) + |s.w.pending|
    ensures |s.w.pending| <= 1
  {
    TicketsAddUp(s);
    DepthAddsUp(s);
  }

  // ---------------------------------------------------------------- behind the fence

  /** A closed fence leaves no thread inside the callback, so nothing is held or claimed. */
  lemma NobodyInside(s: State)
    requires FenceExact(s) && !s.sh.fence.Alive?
    ensures HeldByThreads(s.producers) == [] && Unticketed(s.producers) == 0 && Overclaiming(s.producers) == 0
  {
    NothingClaimed(s.producers);
  }

  lemma {:induction false} NothingClaimed(ps: seq<Producer>)
    requires forall t :: 0 <= t < |ps| ==> !ps[t].pc.HoldsCallback()
    ensures HeldByThreads(ps) == [] && Unticketed(ps) == 0 && Overclaiming(ps) == 0
  {
    if ps != [] {
      NothingClaimed(ps[..|ps| - 1]);
    }
  }

  lemma {:induction false} NothingQueued(lanes: seq<Lane>)
    requires forall l :: 0 <= l < |lanes| ==> lanes[l].queues == EMPTY_QUEUES
    ensures QueuedIn(lanes) == []
  {
    if lanes != [] {
      NothingQueued(lanes[..|lanes| - 1]);
    }
  }

  // ---------------------------------------------------------------- the terminal exit

  /** What the terminal exit has reported, once it has cleared the queues. */
  function Reported(pc: WorkerPc): Option<nat> {
    match pc
    case Fail(_, TermStatus(remaining)) => Some(remaining)
    case Fail(_, TermNotify(remaining)) => Some(remaining)
    case Fail(_, Discarded(remaining)) => Some(remaining)
    case _ => None
  }

  ghost predicate ReportCounts(s: State) {
    Reported(s.w.pc).Some? ==>
      && Reported(s.w.pc).value == |TopDown(s.w.pc.retained)| + |s.h.cleared|
      && s.registry == [] && s.w.reserved == [] && s.w.normal == []
  }

  ghost predicate ResetMeansAborted(s: State) {
    s.h.reset ==> s.w.pc.Aborted?
  }

  lemma ClearingReports(s: State, stack: seq<seq<QueuedLog>>)
    requires Shape(s) && BudgetsHold(s) && !s.h.reset && s.w.pc == Fail(stack, TermClear)
    ensures ReportCounts(Discard(s, stack))
  {
    NobodyInside(s);
    DepthAddsUp(s);
  }

  lemma WorkerKeepsReport(s: State, m: WorkerMove)
    requires Shape(s) && BudgetsHold(s) && ResetMeansAborted(s) && ReportCounts(s) && WorkerStep(s, m).Some?
    ensures ReportCounts(WorkerStep(s, m).value)
  {
    match s.w.pc
    case Refresh(site, at) => { match at case Retiring(_) => case RetireCheck(_) => case Taking(_, _, _) => }
    case Input(at) => InputFrame(s, at);
    case Assemble(at) => BatchFrame(s, at);
    case Wait(at) => WaitFrame(s, at, m); WorkerLeavesWait(s, at, m);
    case Transmit(stack, at) => TransmitFrame(s, stack, at, m);
    case Settle(logs, resume, at) => SettleFrame(s, logs, resume, at);
    case Fail(stack, at) => FailKeepsReport(s, stack, at);
  }

  lemma WorkerLeavesWait(s: State, at: WaitPc, m: WorkerMove)
    requires WaitStep(s, at, m).Some?
    ensures !WaitStep(s, at, m).value.w.pc.Fail?
  {
    match at
    case WaitReceive =>
    case WaitBatch(_) =>
    case WaitFence =>
    case CheckFence =>
    case StopStatus =>
    case StopNotify =>
    case Drained =>
  }

  lemma FailKeepsReport(s: State, stack: seq<seq<QueuedLog>>, at: FailPc)
    requires Shape(s) && BudgetsHold(s) && ResetMeansAborted(s) && ReportCounts(s)
    requires s.w.pc == Fail(stack, at) && FailStep(s, stack, at).Some?
    ensures ReportCounts(FailStep(s, stack, at).value)
  {
    match at
    case Terminal =>
    case TermShutdown =>
    case TermFence =>
    case TermWait =>
    case TermClear => ClearingReports(s, stack);
    case TermStatus(_) =>
    case TermNotify(_) =>
    case Discarded(_) =>
  }

  lemma ProducerKeepsReport(s: State, t: nat, m: ProducerMove)
    requires Shape(s) && ReportCounts(s) && ProducerStep(s, t, m).Some?
    ensures ReportCounts(ProducerStep(s, t, m).value)
  {
    ProducerKeepsWorker(s, t, m);
    if Reported(s.w.pc).Some? {
      assert !s.producers[t].pc.HoldsCallback();
      match s.producers[t].pc
      case Outside =>
      case Closing =>
      case Gone =>
    }
  }

  lemma StepKeepsReport(s: State, a: Action)
    requires Shape(s) && BudgetsHold(s) && ResetMeansAborted(s) && ReportCounts(s) && Step(s, a).Some?
    ensures ReportCounts(Step(s, a).value) && ResetMeansAborted(Step(s, a).value)
  {
    match a
    case ByProducer(t, m) => ProducerKeepsReport(s, t, m); ProducerKeepsWorker(s, t, m); ProducerKeepsReset(s, t, m);
    case ByWorker(m) => WorkerKeepsReport(s, m); WorkerKeepsReset(s, m);
    case ByFlusher(f, m) => FlushFrame(s, f, m);
    case ByHandle(m) => HandleFrame(s, m);
  }

  /** On the terminal exit the report is short by exactly the parked record: the tickets
      that were never completed are those reported and those in `pending`. So the report
      is exact if and only if nothing was parked. */
  lemma TerminalExitReport(s: State)
    requires Shape(s) && Numbered(s) && Accounted(s) && ReportCounts(s)
    requires s.w.pc.Fail? && s.w.pc.fail.Discarded?
    ensures s.sh.nextTicket - |s.h.done| == s.w.pc.fail.remaining + |s.w.pending|
    ensures s.w.pc.fail.remaining == s.sh.nextTicket - |s.h.done| <==> s.w.pending == []
    ensures |s.w.pending| <= 1
  {
    TicketsAddUp(s);
    NobodyInside(s);
    NothingQueued(s.lanes);
  }
}
