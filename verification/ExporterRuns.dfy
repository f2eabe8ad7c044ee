/**
The main results about one exporter generation, over every run: any number of threads
and flush callers, any interleaving, any collector behaviour.
*/
module ExporterRuns {
  import opened Records
  import opened Wrappers
  import opened Exporter
  import opened ExporterShape
  import opened ExporterTickets
  import opened ExporterFlush
  import opened ExporterBudgets
  import opened ExporterWake
  import opened ExporterConservation
  import opened ExporterShutdown
  import opened ExporterOrder
  import opened ExporterLimits
  import Protobuf
  import Sizing

  // ---------------------------------------------------------------- the invariant of all runs

  ghost predicate Accounts(s: State) {
    Numbered(s) && Accounted(s) && ClearedLate(s) && ReportCounts(s) && ResetMeansAborted(s)
  }

  ghost predicate Flushing(s: State) {
    Tracked(s) && Tallied(s) && Published(s) && FlushersSound(s) && StopAnnounced(s) && FailureIsTerminal(s)
  }

  ghost predicate Admission(s: State) {
    BudgetsHold(s) && UndosFit(s)
  }

  ghost predicate Waking(s: State) {
    WakeupsHold(s) && FenceSignalKept(s)
  }

  ghost predicate Draining(s: State) {
    SeenSettled(s) && ClosedSeesAll(s) && DoneWasSeen(s)
  }

  ghost predicate Ordering(s: State) {
    OrderHolds(s) && InboxFiled(s)
  }

  ghost predicate Inv(s: State) {
    Shape(s) && Accounts(s) && Flushing(s) && Admission(s) && Waking(s) && Draining(s) && Ordering(s)
  }

  lemma InitInv(cfg: Config)
    ensures Inv(Init(cfg))
  {
    InitShape(cfg);
    InitAccounted(cfg);
    InitFlush(cfg);
    InitBudgets(cfg);
    InitWake(cfg);
    InitShutdown(cfg);
    InitOrder(cfg);
  }

  lemma StepKeepsAccounts(s: State, a: Action)
    requires Shape(s) && Accounts(s) && BudgetsHold(s) && Step(s, a).Some?
    ensures Accounts(Step(s, a).value)
  {
    StepKeepsAccount(s, a);
    StepKeepsReport(s, a);
  }

  lemma StepKeepsFlushing(s: State, a: Action)
    requires Accounted(s) && Flushing(s) && Step(s, a).Some?
    ensures Flushing(Step(s, a).value)
  {
    StepKeepsFlush(s, a);
    StepKeepsAnnounced(s, a);
    StepKeepsFailure(s, a);
  }

  /** Every enabled step of every actor keeps the invariant. */
  lemma StepKeepsInv(s: State, a: Action)
    requires Inv(s) && Step(s, a).Some?
    ensures Inv(Step(s, a).value)
  {
    StepKeepsShape(s, a);
    StepKeepsAccounts(s, a);
    StepKeepsFlushing(s, a);
    StepKeepsBudgets(s, a);
    StepKeepsWake(s, a);
    StepKeepsSeen(s, a);
    StepKeepsDoneSeen(s, a);
    StepKeepsOrder(s, a);
  }

  lemma {:induction false} RunKeepsInv(s: State, schedule: seq<Action>)
    requires Inv(s) && Run(s, schedule).Some?
    ensures Inv(Run(s, schedule).value) && Run(s, schedule).value.cfg == s.cfg
  {
    if schedule != [] {
      var init, last := schedule[..|schedule| - 1], schedule[|schedule| - 1];
      RunKeepsInv(s, init);
      StepKeepsInv(Run(s, init).value, last);
      StepKeepsConfig(Run(s, init).value, last);
    }
  }

  /** What the schedule `schedule` of a fresh generation leads to, if it can be executed. */
  function Reach(cfg: Config, schedule: seq<Action>): Option<State> {
    Run(Init(cfg), schedule)
  }

  lemma ReachKeepsInv(cfg: Config, schedule: seq<Action>)
    requires Reach(cfg, schedule).Some?
    ensures Inv(Reach(cfg, schedule).value) && Reach(cfg, schedule).value.cfg == cfg
  {
    InitInv(cfg);
    RunKeepsInv(Init(cfg), schedule);
  }

  // ---------------------------------------------------------------- no record lost or duplicated

  /** Every accepted record is in exactly one place; a record that was not accepted is nowhere. */
  lemma EachRecordOnce(cfg: Config, schedule: seq<Action>, log: QueuedLog)
    requires Reach(cfg, schedule).Some? && !Reach(cfg, schedule).value.w.pc.Aborted?
    ensures var s := Reach(cfg, schedule).value;
      Occurrences(s, log) == if log in s.h.issued then 1 else 0
  {
    ReachKeepsInv(cfg, schedule);
    var s := Reach(cfg, schedule).value;
    IssuedOnce(s.h.issued, log);
    assert Occurrences(s, log) == Count(s.h.issued, log);
  }

  // ---------------------------------------------------------------- exact flush

  function TargetOf(f: FlusherPc): Option<Ticket> {
    match f
    case FlushIdle => None
    case FlushWake(target) => Some(target)
    case FlushEnable(target) => Some(target)
    case FlushLoad(target, _) => Some(target)
    case FlushLoadStatus(target, _, _) => Some(target)
    case FlushWait(target, _) => Some(target)
    case FlushDone(_, target, _) => Some(target)
  }

  ghost predicate KeepsCall(s: State, s': State, f: nat, target: Ticket) {
    && |s'.flushers| == |s.flushers| && s.h.issued <= s'.h.issued
    && (f < |s.flushers| && TargetOf(s.flushers[f]) == Some(target) ==> TargetOf(s'.flushers[f]) == Some(target))
  }

  lemma WokenKeepTarget(fs: seq<FlusherPc>, f: nat)
    requires f < |fs|
    ensures TargetOf(WakeFlushers(fs)[f]) == TargetOf(fs[f])
  {
  }

  lemma StepKeepsCall(s: State, a: Action, f: nat, target: Ticket)
    requires Step(s, a).Some?
    ensures KeepsCall(s, Step(s, a).value, f, target)
  {
    if f < |s.flushers| {
      WokenKeepTarget(s.flushers, f);
    }
    match a
    case ByProducer(t, m) => ProducerAnnouncesNothing(s, t, m); ProducerOnlyIssues(s, t, m);
    case ByWorker(m) => WorkerAnnounces(s, m); WorkerFrame(s, m);
    case ByFlusher(i, m) => FlushFrame(s, i, m); FlusherKeepsTarget(s, i, m, f, target);
    case ByHandle(m) => HandleFrame(s, m); HandleKeepsTargets(s, m);
  }

  lemma ProducerOnlyIssues(s: State, t: nat, m: ProducerMove)
    requires ProducerStep(s, t, m).Some?
    ensures s.h.issued <= ProducerStep(s, t, m).value.h.issued
  {
    match s.producers[t].pc
    case Outside =>
    case Loaded =>
    case Resolving(_) =>
    case ClaimBytes(_, _) =>
    case UndoBytes(_, _) =>
    case ClaimRecord(_, _) =>
    case UndoRecord(_, _) =>
    case ReturnBytes(_, _) =>
    case Ticketing(_, _) =>
    case Pushing(_) =>
    case Notifying =>
    case Leaving =>
    case Closing =>
    case Gone =>
  }

  lemma FlusherKeepsTarget(s: State, i: nat, m: FlushMove, f: nat, target: Ticket)
    requires FlushStep(s, i, m).Some?
    ensures var s' := FlushStep(s, i, m).value;
      |s'.flushers| == |s.flushers|
      && (f < |s.flushers| && TargetOf(s.flushers[f]) == Some(target) ==> TargetOf(s'.flushers[f]) == Some(target))
  {
    match s.flushers[i]
    case FlushIdle =>
    case FlushWake(_) =>
    case FlushEnable(_) =>
    case FlushLoad(_, _) =>
    case FlushLoadStatus(_, _, _) =>
    case FlushWait(_, _) =>
    case FlushDone(_, _, _) =>
  }

  lemma HandleKeepsTargets(s: State, m: HandleMove)
    requires HandleStep(s, m).Some?
    ensures var s' := HandleStep(s, m).value; s'.flushers == s.flushers || s'.flushers == WakeFlushers(s.flushers)
  {
    match m
    case StopAcceptance =>
    case ClearSlot =>
    case ReleaseHandle =>
    case FenceStore =>
    case FenceNotify =>
    case Abort =>
    case ResetStep =>
  }

  lemma {:induction false} RunKeepsCall(s: State, schedule: seq<Action>, f: nat, target: Ticket)
    requires Run(s, schedule).Some?
    ensures KeepsCall(s, Run(s, schedule).value, f, target)
  {
    if schedule != [] {
      var init, last := schedule[..|schedule| - 1], schedule[|schedule| - 1];
      RunKeepsCall(s, init, f, target);
      StepKeepsCall(Run(s, init).value, last, f, target);
    }
  }

  /** Exact flush. However the steps interleave between a `force_flush` call and its
      `Flushed` report, every record accepted before the call has been completed by then. */
  lemma ExactFlush(cfg: Config, before: seq<Action>, f: nat, m: FlushMove, after: seq<Action>)
    requires Reach(cfg, before).Some? && f < |Reach(cfg, before).value.flushers|
    requires Reach(cfg, before).value.flushers[f].FlushIdle?
    requires Reach(cfg, before + [ByFlusher(f, m)] + after).Some?
    ensures var atCall, end := Reach(cfg, before).value, Reach(cfg, before + [ByFlusher(f, m)] + after).value;
      && |end.flushers| == |atCall.flushers|
      && (end.flushers[f].FlushDone? && end.flushers[f].status.Flushed? ==>
            forall log <- atCall.h.issued :: log in end.h.done)
  {
    var atCall := Reach(cfg, before).value;
    RunInTwo(Init(cfg), before + [ByFlusher(f, m)], after);
    RunInTwo(Init(cfg), before, [ByFlusher(f, m)]);
    assert [ByFlusher(f, m)][..0] == [];
    var called := Step(atCall, ByFlusher(f, m)).value;
    assert Run(atCall, [ByFlusher(f, m)]) == Some(called);
    FlushFrame(atCall, f, m);
    RunKeepsCall(called, after, f, atCall.sh.nextTicket);
    ReachKeepsInv(cfg, before);
    ReachKeepsInv(cfg, before + [ByFlusher(f, m)] + after);
    FlushedCovers(Reach(cfg, before + [ByFlusher(f, m)] + after).value, f, atCall);
  }

  lemma FlushedCovers(end: State, f: nat, atCall: State)
    requires Inv(end) && Numbered(atCall) && atCall.h.issued <= end.h.issued
    requires f < |end.flushers| && TargetOf(end.flushers[f]) == Some(atCall.sh.nextTicket)
    ensures end.flushers[f].FlushDone? && end.flushers[f].status.Flushed? ==>
      forall log <- atCall.h.issued :: log in end.h.done
  {
    if end.flushers[f].FlushDone? && end.flushers[f].status.Flushed? {
      assert FlusherSound(end.flushers[f], end.sh.nextTicket, end.sh.completedTicket, AboutToWake(end.w.pc));
      forall log <- atCall.h.issued
        ensures log in end.h.done
      {
        var i :| 0 <= i < |atCall.h.issued| && atCall.h.issued[i] == log;
        assert log.ticket == i + 1 && end.w.tracker.Has(log.ticket);
        SameTicketSameRecord(end, log);
      }
    }
  }

  /** Tickets identify records, so a completed ticket is a completed record. */
  lemma SameTicketSameRecord(s: State, log: QueuedLog)
    requires Numbered(s) && Tracked(s) && log in s.h.issued && Finished(s.h.done, log.ticket)
    ensures log in s.h.done
  {
    var d :| d in s.h.done && d.ticket == log.ticket;
    var i :| 0 <= i < |s.h.issued| && s.h.issued[i] == log;
    assert d in s.h.issued;
    var j :| 0 <= j < |s.h.issued| && s.h.issued[j] == d;
    assert i + 1 == log.ticket == d.ticket == j + 1;
  }

  /** What `force_flush` waits for. */
  predicate MayReturn(s: State, target: Ticket) {
    s.sh.completedTicket >= target || s.sh.status.Stopped? || s.sh.status.TerminalFailure?
  }

  predicate AboutToWakeCallers(pc: WorkerPc) {
    AboutToWake(pc) || AboutToAnnounce(pc)
  }

  /** A caller that sleeps un-notified although it could return is about to be woken, by the
      worker or by a handle that has aborted it, if and only if the status is not
      `TerminalFailure` or the worker has been aborted. So no caller is missed by a completion
      nor by `Stopped`, and every caller that sleeps through the failure is. */
  lemma FlushCallerIsWoken(cfg: Config, schedule: seq<Action>, f: nat)
    requires Reach(cfg, schedule).Some? && f < |Reach(cfg, schedule).value.flushers|
    requires Reach(cfg, schedule).value.flushers[f].FlushWait? && !Reach(cfg, schedule).value.flushers[f].notified
    requires MayReturn(Reach(cfg, schedule).value, Reach(cfg, schedule).value.flushers[f].target)
    ensures var s := Reach(cfg, schedule).value;
      && (AboutToWakeCallers(s.w.pc) <==> !s.sh.status.TerminalFailure? || Resetting(s.w.pc))
      && (s.sh.status.Stopped? ==> AboutToAnnounce(s.w.pc))
      && (!s.sh.status.TerminalFailure? && !s.sh.status.Stopped? ==> AboutToWake(s.w.pc))
  {
    ReachKeepsInv(cfg, schedule);
    var s := Reach(cfg, schedule).value;
    assert FlusherSound(s.flushers[f], s.sh.nextTicket, s.sh.completedTicket, AboutToWake(s.w.pc));
  }

  // ---------------------------------------------------------------- no lost wake-up

  /** A worker asleep on `records` never overlooks a non-empty lane, nor the closed fence. */
  lemma NoLostWakeup(cfg: Config, schedule: seq<Action>, l: nat)
    requires Reach(cfg, schedule).Some? && l < |Reach(cfg, schedule).value.lanes|
    requires Reach(cfg, schedule).value.w.pc.Wait? && Reach(cfg, schedule).value.w.pc.wait.BlockedOnRecords()
    ensures var s := Reach(cfg, schedule).value;
      && (!s.lanes[l].queues.IsEmpty() ==> s.sh.recordsPermit || SomeoneNotifying(s))
      && (s.sh.fence.Signalled? && s.w.pc.wait.WaitFence? ==> s.sh.recordsPermit)
  {
    ReachKeepsInv(cfg, schedule);
    var s := Reach(cfg, schedule).value;
    if !s.lanes[l].queues.IsEmpty() {
      assert Attended(s, l);
    }
  }

  // ---------------------------------------------------------------- bounded admission

  /** Until a timed-out shutdown zeroes the counters: what is granted never exceeds the
      capacity, the counter shows it together with what awaits rollback, and the counter
      stays within 64 bits. */
  lemma AdmissionIsBounded(cfg: Config, schedule: seq<Action>, b: Budget)
    requires Reach(cfg, schedule).Some? && !Reach(cfg, schedule).value.h.reset
    requires cfg.Capacity(b) <= U64_MAX
    requires (cfg.threads + 1) * cfg.Capacity(b) <= U64_MAX || cfg.Capacity(b) > U64_MAX / 2
    ensures var s := Reach(cfg, schedule).value;
      && Granted(s, b) <= cfg.Capacity(b)
      && s.sh.used.Get(b) == Granted(s, b) + AllAwaitingUndo(s.producers, b)
      && 0 <= s.sh.used.Get(b) <= U64_MAX
  {
    ReachKeepsInv(cfg, schedule);
    ThreadsStay(cfg, schedule);
    var s := Reach(cfg, schedule).value;
    assert Bounded(s, b);
    CounterStaysInRange(s, b);
  }

  lemma {:induction false} ThreadsStay(cfg: Config, schedule: seq<Action>)
    requires Reach(cfg, schedule).Some?
    ensures |Reach(cfg, schedule).value.producers| == cfg.threads
  {
    if schedule != [] {
      var init, last := schedule[..|schedule| - 1], schedule[|schedule| - 1];
      ThreadsStay(cfg, init);
      StepKeepsThreads(Reach(cfg, init).value, last);
    }
  }

  lemma StepKeepsThreads(s: State, a: Action)
    requires Step(s, a).Some?
    ensures |Step(s, a).value.producers| == |s.producers|
  {
    match a
    case ByProducer(t, m) => ProducerLeavesSent(s, t, m);
    case ByWorker(m) => WorkerFrame(s, m);
    case ByFlusher(f, m) => FlushFrame(s, f, m);
    case ByHandle(m) => HandleFrame(s, m);
  }

  /** `release` never takes a counter below zero. */
  lemma ReleaseNeverUnderflows(cfg: Config, schedule: seq<Action>, log: QueuedLog)
    requires Reach(cfg, schedule).Some? && Reach(cfg, schedule).value.w.pc.Input?
    ensures var s := Reach(cfg, schedule).value;
      && (s.w.pc.input.ReleaseRecord? && s.w.pc.input.log == log ==> s.sh.used.Get(Budget(log.queue, Slots)) >= 1)
      && (s.w.pc.input.ReleaseBytes? && s.w.pc.input.log == log ==>
            s.sh.used.Get(Budget(log.queue, Bytes)) >= log.bytes)
  {
    ReachKeepsInv(cfg, schedule);
    var s := Reach(cfg, schedule).value;
    assert Bounded(s, Budget(log.queue, Slots)) && Bounded(s, Budget(log.queue, Bytes));
  }

  // ---------------------------------------------------------------- quiescence fence

  ghost predicate Quiescent(s: State, s': State) {
    && s'.sh.fence.ProducersClosed() && s'.h.issued == s.h.issued && |s'.lanes| == |s.lanes|
    && (forall l :: 0 <= l < |s.lanes| ==>
          s'.lanes[l].queues == s.lanes[l].queues || s'.lanes[l].queues == EMPTY_QUEUES)
  }

  /** No thread executes the callback, and none can enter it. */
  ghost predicate NobodyCalls(s: State) {
    forall t :: 0 <= t < |s.producers| ==>
      !s.producers[t].pc.HoldsCallback() && (s.producers[t].pc.Outside? ==> ProducerStep(s, t, Enter).None?)
  }

  lemma ClosedStepIsQuiescent(s: State, a: Action)
    requires Shape(s) && s.sh.fence.ProducersClosed() && Step(s, a).Some?
    ensures Quiescent(s, Step(s, a).value)
  {
    match a
    case ByProducer(t, m) => ClosedProducerIsQuiescent(s, t, m);
    case ByWorker(m) => ClosedWorkerIsQuiescent(s, m);
    case ByFlusher(f, m) => FlushFrame(s, f, m);
    case ByHandle(m) => HandleFrame(s, m); HandleKeepsFence(s, m);
  }

  lemma ClosedProducerIsQuiescent(s: State, t: nat, m: ProducerMove)
    requires Shape(s) && s.sh.fence.ProducersClosed() && ProducerStep(s, t, m).Some?
    ensures Quiescent(s, ProducerStep(s, t, m).value)
  {
    assert !s.producers[t].pc.HoldsCallback();
    match s.producers[t].pc
    case Outside =>
    case Closing =>
    case Gone =>
  }

  lemma ClosedWorkerIsQuiescent(s: State, m: WorkerMove)
    requires s.sh.fence.ProducersClosed() && WorkerStep(s, m).Some?
    ensures Quiescent(s, WorkerStep(s, m).value)
  {
    WorkerFrame(s, m);
    if s.w.pc.Refresh? {
      match s.w.pc.refresh case Retiring(_) => case RetireCheck(_) => case Taking(_, _, _) =>
    }
  }

  lemma {:induction false} RunStaysQuiescent(s: State, schedule: seq<Action>)
    requires Inv(s) && s.sh.fence.ProducersClosed() && Run(s, schedule).Some?
    ensures Quiescent(s, Run(s, schedule).value)
  {
    if schedule != [] {
      var init, last := schedule[..|schedule| - 1], schedule[|schedule| - 1];
      RunStaysQuiescent(s, init);
      RunKeepsInv(s, init);
      ClosedStepIsQuiescent(Run(s, init).value, last);
    }
  }

  /** Quiescence fence. Once `producers_closed` is set no callback is running and none can
      start, so whatever happens next, nothing is accepted and no lane gains a record. */
  lemma FenceMeansQuiescence(cfg: Config, before: seq<Action>, after: seq<Action>)
    requires Reach(cfg, before).Some? && Reach(cfg, before).value.sh.fence.ProducersClosed()
    requires Reach(cfg, before + after).Some?
    ensures var s, s' := Reach(cfg, before).value, Reach(cfg, before + after).value;
      && NobodyCalls(s)
      && Quiescent(s, s')
  {
    ReachKeepsInv(cfg, before);
    RunInTwo(Init(cfg), before, after);
    RunStaysQuiescent(Reach(cfg, before).value, after);
    ClosedAdmitsNobody(Reach(cfg, before).value);
  }

  lemma ClosedAdmitsNobody(s: State)
    requires Shape(s) && s.sh.fence.ProducersClosed()
    ensures NobodyCalls(s)
  {
    assert Unreferenced(s);
  }

  /** Behind the fence, what the handle has zeroed stays so. */
  ghost predicate ZeroedSoFar(s: State) {
    && s.w.pc.Aborted? && s.sh.fence.ProducersClosed()
    && (!s.w.pc.reset.ZeroNormalDepth? ==> s.sh.used.normalDepth == 0)
    && (!s.w.pc.reset.ZeroNormalDepth? && !s.w.pc.reset.ZeroReservedDepth? ==> s.sh.used.reservedDepth == 0)
    && (s.w.pc.reset.ZeroReservedBytes? || CountersZeroed(s) ==> s.sh.used.normalBytes == 0)
    && (CountersZeroed(s) ==> s.sh.used.reservedBytes == 0)
  }

  predicate CountersZeroed(s: State) {
    s.w.pc.Aborted? && (s.w.pc.reset.StoreStopped? || s.w.pc.reset.WakeCallers? || s.w.pc.reset.ResetDone?)
  }

  lemma StepStaysZeroed(s: State, a: Action)
    requires Shape(s) && ZeroedSoFar(s) && Step(s, a).Some?
    ensures ZeroedSoFar(Step(s, a).value)
  {
    ClosedStepIsQuiescent(s, a);
    match a
    case ByProducer(t, m) =>
      assert !s.producers[t].pc.HoldsCallback();
      ProducerKeepsWorker(s, t, m);
      { match s.producers[t].pc case Outside => case Closing => case Gone => }
    case ByFlusher(f, m) => FlushFrame(s, f, m);
    case ByHandle(m) => HandleStaysZeroed(s, m);
  }

  lemma HandleStaysZeroed(s: State, m: HandleMove)
    requires FenceExact(s) && ZeroedSoFar(s) && HandleStep(s, m).Some?
    ensures ZeroedSoFar(HandleStep(s, m).value)
  {
    HandleKeepsFence(s, m);
    match m
    case StopAcceptance => StopSharedFrame(s.sh);
    case ClearSlot =>
    case ReleaseHandle =>
    case FenceStore =>
    case FenceNotify =>
    case ResetStep => { match s.w.pc.reset case ZeroNormalDepth => case ZeroReservedDepth => case ZeroNormalBytes =>
                                           case ZeroReservedBytes => case StoreStopped => case WakeCallers => }
  }

  lemma {:induction false} RunStaysZeroed(s: State, schedule: seq<Action>)
    requires Inv(s) && ZeroedSoFar(s) && Run(s, schedule).Some?
    ensures ZeroedSoFar(Run(s, schedule).value)
  {
    if schedule != [] {
      var init, last := schedule[..|schedule| - 1], schedule[|schedule| - 1];
      RunStaysZeroed(s, init);
      RunKeepsInv(s, init);
      StepStaysZeroed(Run(s, init).value, last);
    }
  }

  /** A timed-out shutdown zeroes the counters for good if the fence is closed by then;
      module ExporterUnderflow says when a thread may take one below zero otherwise. */
  lemma ResetBehindFence(cfg: Config, before: seq<Action>, after: seq<Action>)
    requires Reach(cfg, before).Some? && Reach(cfg, before).value.sh.fence.ProducersClosed()
    requires Reach(cfg, before + [ByHandle(Abort)] + after).Some?
    ensures var s := Reach(cfg, before + [ByHandle(Abort)] + after).value;
      s.w.pc.Aborted? && (CountersZeroed(s) ==> s.sh.used == ZERO)
  {
    RunInTwo(Init(cfg), before + [ByHandle(Abort)], after);
    RunOn(Init(cfg), before, ByHandle(Abort));
    ReachKeepsInv(cfg, before + [ByHandle(Abort)]);
    RunStaysZeroed(Reach(cfg, before + [ByHandle(Abort)]).value, after);
  }

  /** The raw lane pointer that `submit` dereferences belongs to an open lane that the
      registry still owns. */
  lemma SubmittedLaneIsRegistered(cfg: Config, schedule: seq<Action>, t: nat)
    requires Reach(cfg, schedule).Some? && t < |Reach(cfg, schedule).value.producers|
    requires Reach(cfg, schedule).value.producers[t].pc.UsesLane()
    ensures var s := Reach(cfg, schedule).value;
      && s.producers[t].lane.Some? && s.producers[t].lane.value in s.registry
      && s.producers[t].lane.value < |s.lanes| && !s.lanes[s.producers[t].lane.value].closed
  {
    ReachKeepsInv(cfg, schedule);
    LanePointerIsLive(Reach(cfg, schedule).value, t);
  }

  /** `clear` and both exits of the worker come after the fence. */
  lemma ClearIsQuiescent(cfg: Config, schedule: seq<Action>)
    requires Reach(cfg, schedule).Some? && BeyondFence(Reach(cfg, schedule).value.w.pc)
    ensures var s := Reach(cfg, schedule).value;
      s.sh.fence.ProducersClosed() && forall t :: 0 <= t < |s.producers| ==> !s.producers[t].pc.HoldsCallback()
  {
    ReachKeepsInv(cfg, schedule);
    ClosedAdmitsNobody(Reach(cfg, schedule).value);
  }

  // ---------------------------------------------------------------- shutdown

  /** Clean exit. Nothing parked, in the inbox or in a batch is abandoned: a record that is
      not completed lies in a lane. The completed ones are exactly those that had been pushed
      when the last refresh began; so if the fence was closed by then, everything accepted. */
  lemma CleanExit(cfg: Config, schedule: seq<Action>, log: QueuedLog)
    requires Reach(cfg, schedule).Some? && Reach(cfg, schedule).value.w.pc == Wait(Drained)
    requires log in Reach(cfg, schedule).value.h.issued
    ensures var s := Reach(cfg, schedule).value;
      && (log in s.h.done <==> log !in QueuedIn(s.lanes))
      && (log in s.h.done <==> log in s.h.seen)
      && (s.h.seenClosed ==> log in s.h.done)
  {
    ReachKeepsInv(cfg, schedule);
    DrainedOrInLane(Reach(cfg, schedule).value, log);
    CleanExitLeavesOnlyLatecomers(Reach(cfg, schedule).value, log);
  }

  /** The clean exit reports no remaining record. That is true if and only if both depth
      counters are zero at that point; in general they show how many records are left. */
  lemma CleanExitCount(cfg: Config, schedule: seq<Action>)
    requires Reach(cfg, schedule).Some? && Reach(cfg, schedule).value.w.pc == Wait(Drained)
    ensures var s := Reach(cfg, schedule).value;
      && s.sh.nextTicket - |s.h.done| == s.sh.used.normalDepth + s.sh.used.reservedDepth
      && (|s.h.done| == s.sh.nextTicket <==> s.sh.used.normalDepth == 0 && s.sh.used.reservedDepth == 0)
  {
    ReachKeepsInv(cfg, schedule);
    CleanExitReport(Reach(cfg, schedule).value);
  }

  /** Terminal exit. What was never completed is what is reported plus the parked record,
      of which there is at most one; the report is exact if and only if none was parked. */
  lemma TerminalExitCount(cfg: Config, schedule: seq<Action>)
    requires Reach(cfg, schedule).Some?
    requires Reach(cfg, schedule).value.w.pc.Fail? && Reach(cfg, schedule).value.w.pc.fail.Discarded?
    ensures var s := Reach(cfg, schedule).value;
      && s.sh.nextTicket - |s.h.done| == s.w.pc.fail.remaining + |s.w.pending|
      && |s.w.pending| <= 1
      && (s.w.pc.fail.remaining == s.sh.nextTicket - |s.h.done| <==> s.w.pending == [])
  {
    ReachKeepsInv(cfg, schedule);
    TerminalExitReport(Reach(cfg, schedule).value);
  }

  /** Conservation of the counters whenever the main loop starts over. */
  lemma LoopHeadConservation(cfg: Config, schedule: seq<Action>)
    requires Reach(cfg, schedule).Some? && Reach(cfg, schedule).value.w.pc == Input(Top)
    ensures var s := Reach(cfg, schedule).value;
      && s.sh.nextTicket + Unticketed(s.producers) + Overclaiming(s.producers)
           == s.sh.exported + s.sh.rejected + s.sh.used.normalDepth + s.sh.used.reservedDepth + |s.w.pending|
      && |s.w.pending| <= 1 && s.sh.oversize <= s.sh.rejected
  {
    ReachKeepsInv(cfg, schedule);
    CountersAreConserved(Reach(cfg, schedule).value);
  }

  // ---------------------------------------------------------------- order and limits

  /** One thread's records of one queue kind are first sent in the order of their tickets. */
  lemma SentOrder(cfg: Config, schedule: seq<Action>, i: nat, j: nat)
    requires Reach(cfg, schedule).Some? && i < j < |Reach(cfg, schedule).value.h.sent|
    requires Reach(cfg, schedule).value.h.sent[i].owner == Reach(cfg, schedule).value.h.sent[j].owner < cfg.threads
    requires Reach(cfg, schedule).value.h.sent[i].queue == Reach(cfg, schedule).value.h.sent[j].queue
    ensures Reach(cfg, schedule).value.h.sent[i].ticket < Reach(cfg, schedule).value.h.sent[j].ticket
  {
    ReachKeepsInv(cfg, schedule);
    ThreadsStay(cfg, schedule);
    SentInTicketOrder(Reach(cfg, schedule).value, i, j);
  }

  lemma {:induction false} RunKeepsFit(cfg: Config, schedule: seq<Action>)
    requires Divisible(cfg) && Reach(cfg, schedule).Some?
    ensures PcFits(cfg, Reach(cfg, schedule).value.w.pc) && Reach(cfg, schedule).value.cfg == cfg
  {
    if schedule != [] {
      var init, last := schedule[..|schedule| - 1], schedule[|schedule| - 1];
      RunKeepsFit(cfg, init);
      StepKeepsFit(Reach(cfg, init).value, last);
      StepKeepsConfig(Reach(cfg, init).value, last);
    }
  }

  /** Every request that is ever sent, bisected or not, encodes to at most `maxBytes`. */
  lemma EveryRequestFits(cfg: Config, schedule: seq<Action>, r: Protobuf.Request, maxBytes: nat)
    requires SizedBy(cfg, Sizing.NewSizer(|r.resource|, |r.scope|), maxBytes) && maxBytes < Sizing.USIZE_MAX
    requires Reach(cfg, schedule).Some?
    requires Reach(cfg, schedule).value.w.pc.Transmit? && Reach(cfg, schedule).value.w.pc.transmit.Send?
    requires Carries(r, Reach(cfg, schedule).value.w.pc.transmit.records)
    ensures |Protobuf.EncodeRequest(r)| <= maxBytes
    ensures |r.records| <= 1 || |r.records| <= cfg.maxBatchRecords
  {
    SizedIsDivisible(cfg, Sizing.NewSizer(|r.resource|, |r.scope|), maxBytes);
    RunKeepsFit(cfg, schedule);
    SentRequestFits(Reach(cfg, schedule).value, r, maxBytes);
  }
}
