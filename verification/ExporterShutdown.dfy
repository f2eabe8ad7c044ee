/**
The clean worker exit: which accepted records it can leave behind, and when it leaves none.
*/
module ExporterShutdown {
  import opened Records
  import opened Wrappers
  import opened Drain
  import opened Exporter
  import opened ExporterShape
  import opened ExporterTickets
  import opened ExporterFlush
  import opened ExporterBudgets
  import opened ExporterConservation

  // ---------------------------------------------------------------- what a refresh is bound to find

  ghost predicate Unseen(q: LaneQueues, seen: set<QueuedLog>) {
    && (forall log <- q.normal :: log !in seen)
    && (forall log <- q.reserved :: log !in seen)
  }

  /** Lane `l` has been swapped out since the latest refresh began. */
  predicate Visited(pc: WorkerPc, l: nat) {
    if pc.Refresh? then pc.refresh.Taking? && l !in pc.refresh.todo else !pc.Aborted?
  }

  /** A record that had reached its lane when the latest refresh began is in no thread's
      hands, and in no lane that this refresh has already swapped out. */
  ghost predicate SeenSettled(s: State) {
    && (forall log <- s.h.seen :: log in s.h.issued)
    && (forall t :: 0 <= t < |s.producers| && s.producers[t].pc.Pushing? ==> s.producers[t].pc.log !in s.h.seen)
    && (forall l :: 0 <= l < |s.lanes| && Visited(s.w.pc, l) ==> Unseen(s.lanes[l].queues, s.h.seen))
  }

  /** If the fence was closed when the latest refresh began, that refresh was bound to find everything. */
  ghost predicate ClosedSeesAll(s: State) {
    s.h.seenClosed ==> !s.sh.fence.Alive? && forall log <- s.h.issued :: log in s.h.seen
  }

  lemma InitShutdown(cfg: Config)
    ensures SeenSettled(Init(cfg)) && ClosedSeesAll(Init(cfg)) && DoneWasSeen(Init(cfg))
    ensures ReportCounts(Init(cfg)) && ResetMeansAborted(Init(cfg))
  {
  }

  // ---------------------------------------------------------------- preservation

  lemma BeginRefreshSettles(s: State, site: Site)
    requires Shape(s)
    ensures SeenSettled(BeginRefresh(s, site)) && ClosedSeesAll(BeginRefresh(s, site))
  {
    if s.sh.fence.ProducersClosed() {
      forall log <- s.h.issued
        ensures log in Pushed(s)
      {
        forall t | 0 <= t < |s.producers|
          ensures s.producers[t].pc != Pushing(log)
        {
          assert !s.producers[t].pc.HoldsCallback();
        }
      }
    }
  }

  lemma RefreshKeepsSeen(s: State, site: Site, at: RefreshPc)
    requires Shape(s) && SeenSettled(s) && ClosedSeesAll(s)
    requires s.w.pc == Refresh(site, at) && RefreshStep(s, site, at).Some?
    ensures SeenSettled(RefreshStep(s, site, at).value) && ClosedSeesAll(RefreshStep(s, site, at).value)
  {
    match at
    case Retiring(_) => RotatedIsDistinct(s.registry, s.cursor, |s.lanes|);
    case RetireCheck(_) =>
    case Taking(_, _, _) =>
  }

  /** Steps of the worker outside a refresh leave lanes alone, or empty them. */
  ghost predicate KeepsSeen(s: State, s': State) {
    && s'.h.issued == s.h.issued && s'.producers == s.producers && s'.sh.fence == s.sh.fence && |s'.lanes| == |s.lanes|
    && (forall l :: 0 <= l < |s.lanes| ==> s'.lanes[l] == s.lanes[l] || s'.lanes[l].queues == EMPTY_QUEUES)
    && s'.h.seen == s.h.seen && s'.h.seenClosed == s.h.seenClosed && !s'.w.pc.Refresh?
  }

  lemma KeepingSeen(s: State, s': State)
    requires SeenSettled(s) && ClosedSeesAll(s) && KeepsSeen(s, s') && !s.w.pc.Refresh? && !s.w.pc.Aborted?
    ensures SeenSettled(s') && ClosedSeesAll(s')
  {
  }

  lemma InputKeepsSeen(s: State, at: InputPc)
    requires !at.Top? && !(at.Poll? && s.w.reserved == [] && s.w.normal == [])
    ensures KeepsSeen(s, InputStep(s, at))
  {
    match at
    case Choose =>
    case Poll(_) =>
    case Pop(AtTop) =>
    case Pop(InReceive) =>
    case Pop(InDrain) =>
    case Pop(InLastPoll) =>
    case Pop(InBatch(_)) =>
    case Pop(InBatchWoken(_)) =>
    case ReleaseRecord(_, _) =>
    case ReleaseBytes(InLastPoll, _) =>
    case ReleaseBytes(InBatch(_), _) =>
    case ReleaseBytes(InBatchWoken(_), _) =>
    case ReleaseBytes(_, _) =>
  }

  lemma BatchKeepsSeen(s: State, at: BatchPc)
    ensures KeepsSeen(s, BatchStep(s, at))
  {
    match at
    case First(_) =>
    case Fill(_) =>
    case Next(_, _) =>
    case Export(_) =>
  }

  lemma WaitKeepsSeen(s: State, at: WaitPc, m: WorkerMove)
    requires WaitStep(s, at, m).Some?
    ensures KeepsSeen(s, WaitStep(s, at, m).value)
  {
    match at
    case WaitReceive =>
    case WaitBatch(_) =>
    case WaitFence =>
    case CheckFence =>
    case StopStatus =>
    case StopNotify =>
    case Drained =>
  }

  lemma TransmitKeepsSeen(s: State, stack: seq<seq<QueuedLog>>, at: TransmitPc, m: WorkerMove)
    requires TransmitStep(s, stack, at, m).Some?
    ensures KeepsSeen(s, TransmitStep(s, stack, at, m).value)
  {
    match at
    case NextSegment =>
    case Send(records) => { match m.outcome case Accepted(_) => case InvalidPayload => case Retryable =>
        case Permanent => }
    case Backoff(_) =>
  }

  lemma SettleKeepsSeen(s: State, logs: seq<QueuedLog>, resume: Resume, at: SettlePc)
    ensures KeepsSeen(s, SettleStep(s, logs, resume, at))
  {
    match at
    case Complete => { match resume case ToTop => case ToFill(_) => case ToNextSegment(_) => }
    case Publish =>
    case Progress =>
  }

  lemma FailKeepsSeen(s: State, stack: seq<seq<QueuedLog>>, at: FailPc)
    requires FailStep(s, stack, at).Some?
    ensures KeepsSeen(s, FailStep(s, stack, at).value)
  {
    match at
    case Terminal =>
    case TermShutdown =>
    case TermFence =>
    case TermWait =>
    case TermClear =>
    case TermStatus(_) =>
    case TermNotify(_) =>
    case Discarded(_) =>
  }

  lemma WorkerKeepsSeen(s: State, m: WorkerMove)
    requires Shape(s) && SeenSettled(s) && ClosedSeesAll(s) && WorkerStep(s, m).Some?
    ensures SeenSettled(WorkerStep(s, m).value) && ClosedSeesAll(WorkerStep(s, m).value)
  {
    if s.w.pc.Refresh? {
      RefreshKeepsSeen(s, s.w.pc.site, s.w.pc.refresh);
    } else if s.w.pc == Input(Top) {
      BeginRefreshSettles(s, AtTop);
    } else if s.w.pc.Input? && s.w.pc.input.Poll? && s.w.reserved == [] && s.w.normal == [] {
      BeginRefreshSettles(s, s.w.pc.input.site);
    } else {
      SteadyKeepsSeen(s, m);
      KeepingSeen(s, WorkerStep(s, m).value);
    }
  }

  lemma SteadyKeepsSeen(s: State, m: WorkerMove)
    requires !s.w.pc.Refresh? && s.w.pc != Input(Top) && WorkerStep(s, m).Some?
    requires !(s.w.pc.Input? && s.w.pc.input.Poll? && s.w.reserved == [] && s.w.normal == [])
    ensures KeepsSeen(s, WorkerStep(s, m).value)
  {
    match s.w.pc
    case Input(at) => InputKeepsSeen(s, at);
    case Assemble(at) => BatchKeepsSeen(s, at);
    case Wait(at) => WaitKeepsSeen(s, at, m);
    case Transmit(stack, at) => TransmitKeepsSeen(s, stack, at, m);
    case Settle(logs, resume, at) => SettleKeepsSeen(s, logs, resume, at);
    case Fail(stack, at) => FailKeepsSeen(s, stack, at);
  }

  lemma ProducerKeepsSeen(s: State, t: nat, m: ProducerMove)
    requires Shape(s) && Numbered(s) && SeenSettled(s) && ClosedSeesAll(s) && ProducerStep(s, t, m).Some?
    ensures SeenSettled(ProducerStep(s, t, m).value) && ClosedSeesAll(ProducerStep(s, t, m).value)
  {
    var s' := ProducerStep(s, t, m).value;
    if s.producers[t].pc.Ticketing? {
      assert s.producers[t].pc.HoldsCallback();
      assert s'.h.issued[|s.h.issued|].ticket == |s.h.issued| + 1;
    } else if OnlyMoves(s.producers[t], m) {
      var pc := ProducerMoves(s, t, m);
      MovingKeepsSeen(s, s', t, pc);
    } else {
      match s.producers[t].pc
      case Outside =>
      case Resolving(_) =>
      case Pushing(log) => PushingKeepsSeen(s, t, log);
    }
    ProducerKeepsFence(s, t, m);
  }

  lemma MovingKeepsSeen(s: State, s': State, t: nat, pc: ProducerPc)
    requires SeenSettled(s) && ClosedSeesAll(s) && FenceExact(s) && Moved(s, s', t, pc)
    requires !s.producers[t].pc.Ticketing? && (s.producers[t].pc.Leaving? ==> FenceExact(s'))
    ensures SeenSettled(s') && (!s.producers[t].pc.Leaving? ==> ClosedSeesAll(s'))
  {
  }

  lemma PushingKeepsSeen(s: State, t: nat, log: QueuedLog)
    requires SeenSettled(s) && ClosedSeesAll(s)
    requires t < |s.producers| && s.producers[t].pc == Pushing(log) && Push(s, t, log).Some?
    ensures SeenSettled(Push(s, t, log).value) && ClosedSeesAll(Push(s, t, log).value)
  {
  }

  lemma HandleKeepsSeen(s: State, m: HandleMove)
    requires FenceExact(s) && SeenSettled(s) && ClosedSeesAll(s) && HandleStep(s, m).Some?
    ensures SeenSettled(HandleStep(s, m).value) && ClosedSeesAll(HandleStep(s, m).value)
  {
    HandleFrame(s, m);
    HandleLeavesFence(s, m);
  }

  lemma HandleLeavesFence(s: State, m: HandleMove)
    requires HandleStep(s, m).Some?
    ensures !s.sh.fence.Alive? ==> !HandleStep(s, m).value.sh.fence.Alive?
  {
    match m
    case StopAcceptance => StopFrame(s);
    case ClearSlot =>
    case ReleaseHandle =>
    case FenceStore =>
    case FenceNotify =>
    case Abort =>
    case ResetStep =>
  }

  lemma StepKeepsSeen(s: State, a: Action)
    requires Shape(s) && Numbered(s) && SeenSettled(s) && ClosedSeesAll(s) && Step(s, a).Some?
    ensures SeenSettled(Step(s, a).value) && ClosedSeesAll(Step(s, a).value)
  {
    match a
    case ByProducer(t, m) => ProducerKeepsSeen(s, t, m);
    case ByWorker(m) => WorkerKeepsSeen(s, m);
    case ByFlusher(f, m) => FlushFrame(s, f, m);
    case ByHandle(m) => HandleKeepsSeen(s, m);
  }

  // ---------------------------------------------------------------- the last look

  /** The worker's last look at the lanes has begun: it exits unless that look finds something. */
  predicate LastLook(w: Worker) {
    match w.pc
    case Refresh(site, _) => site.InLastPoll?
    case Input(at) => at.Pop? && at.site.InLastPoll? && w.reserved == [] && w.normal == []
    case Wait(at) => at.CheckFence? || at.StopStatus? || at.StopNotify? || at.Drained?
    case _ => false
  }

  /** While the last look lasts, what is completed was pushed before it began. */
  ghost predicate DoneWasSeen(s: State) {
    LastLook(s.w) ==> forall log <- s.h.done :: log in s.h.seen
  }

  lemma RefreshLooks(s: State, site: Site, at: RefreshPc)
    requires WorkerShape(s.w) && s.w.pc == Refresh(site, at) && RefreshStep(s, site, at).Some?
    ensures LastLook(RefreshStep(s, site, at).value.w) ==> LastLook(s.w)
    ensures RefreshStep(s, site, at).value.h == s.h
  {
    match at
    case Retiring(_) =>
    case RetireCheck(_) =>
    case Taking(_, _, _) =>
  }

  lemma BatchLooksAway(s: State, at: BatchPc)
    ensures !LastLook(BatchStep(s, at).w)
  {
    match at
    case First(_) =>
    case Fill(_) =>
    case Next(_, _) =>
    case Export(_) =>
  }

  lemma TransmitLooksAway(s: State, stack: seq<seq<QueuedLog>>, at: TransmitPc, m: WorkerMove)
    requires TransmitStep(s, stack, at, m).Some?
    ensures !LastLook(TransmitStep(s, stack, at, m).value.w)
  {
    match at
    case NextSegment =>
    case Send(records) => { match m.outcome case Accepted(_) => case InvalidPayload => case Retryable =>
        case Permanent => }
    case Backoff(_) =>
  }

  lemma SettleLooksAway(s: State, logs: seq<QueuedLog>, resume: Resume, at: SettlePc)
    ensures !LastLook(SettleStep(s, logs, resume, at).w)
  {
    match at
    case Complete => { match resume case ToTop => case ToFill(_) => case ToNextSegment(_) => }
    case Publish =>
    case Progress =>
  }

  lemma FailLooksAway(s: State, stack: seq<seq<QueuedLog>>, at: FailPc)
    requires FailStep(s, stack, at).Some?
    ensures !LastLook(FailStep(s, stack, at).value.w)
  {
    match at
    case Terminal =>
    case TermShutdown =>
    case TermFence =>
    case TermWait =>
    case TermClear =>
    case TermStatus(_) =>
    case TermNotify(_) =>
    case Discarded(_) =>
  }

  lemma WaitLooks(s: State, at: WaitPc, m: WorkerMove)
    requires s.w.pc == Wait(at) && WaitStep(s, at, m).Some?
    ensures LastLook(WaitStep(s, at, m).value.w) ==> LastLook(s.w)
  {
    match at
    case WaitReceive =>
    case WaitBatch(_) =>
    case WaitFence =>
    case CheckFence =>
    case StopStatus =>
    case StopNotify =>
    case Drained =>
  }

  /** A completed record is in no thread's hands. */
  lemma DoneWasPushed(s: State, log: QueuedLog)
    requires Numbered(s) && Accounted(s) && !s.w.pc.Aborted? && log in s.h.done
    ensures log in Pushed(s)
  {
    IssuedOnce(s.h.issued, log);
    CountMember(s.h.done, log);
    CountMember(s.h.issued, log);
    assert Occurrences(s, log) == Count(s.h.issued, log);
    forall t | 0 <= t < |s.producers|
      ensures s.producers[t].pc != Pushing(log)
    {
      HeldAt(s.producers, t);
      CountThree(HeldByThreads(s.producers[..t]), HeldBy(s.producers[t]), HeldByThreads(s.producers[t + 1..]), log);
    }
  }

  lemma BeginRefreshSeesDone(s: State, site: Site)
    requires Numbered(s) && Accounted(s) && !s.w.pc.Aborted?
    ensures DoneWasSeen(BeginRefresh(s, site))
  {
    forall log <- s.h.done
      ensures log in Pushed(s)
    {
      DoneWasPushed(s, log);
    }
  }

  lemma InputKeepsDoneSeen(s: State, at: InputPc)
    requires WorkerShape(s.w) && Numbered(s) && Accounted(s) && DoneWasSeen(s) && s.w.pc == Input(at)
    ensures DoneWasSeen(InputStep(s, at))
  {
    match at
    case Top => BeginRefreshSeesDone(s, AtTop);
    case Choose =>
    case Poll(site) => BeginRefreshSeesDone(s, site);
    case Pop(AtTop) =>
    case Pop(InReceive) =>
    case Pop(InDrain) =>
    case Pop(InLastPoll) =>
    case Pop(InBatch(_)) =>
    case Pop(InBatchWoken(_)) =>
    case ReleaseRecord(_, _) =>
    case ReleaseBytes(InLastPoll, _) =>
    case ReleaseBytes(InBatch(_), _) =>
    case ReleaseBytes(InBatchWoken(_), _) =>
    case ReleaseBytes(_, _) =>
  }

  lemma WaitKeepsHistory(s: State, at: WaitPc, m: WorkerMove)
    requires WaitStep(s, at, m).Some?
    ensures WaitStep(s, at, m).value.h == s.h
  {
    match at
    case WaitReceive =>
    case WaitBatch(_) =>
    case WaitFence =>
    case CheckFence =>
    case StopStatus =>
    case StopNotify =>
    case Drained =>
  }

  lemma WorkerKeepsDoneSeen(s: State, m: WorkerMove)
    requires WorkerShape(s.w) && Numbered(s) && Accounted(s) && DoneWasSeen(s) && WorkerStep(s, m).Some?
    ensures DoneWasSeen(WorkerStep(s, m).value)
  {
    match s.w.pc
    case Refresh(site, at) => RefreshLooks(s, site, at);
    case Input(at) => InputKeepsDoneSeen(s, at);
    case Assemble(at) => BatchLooksAway(s, at);
    case Wait(at) => WaitKeepsHistory(s, at, m); WaitLooks(s, at, m);
    case Transmit(stack, at) => TransmitLooksAway(s, stack, at, m);
    case Settle(logs, resume, at) => SettleLooksAway(s, logs, resume, at);
    case Fail(stack, at) => FailLooksAway(s, stack, at);
  }

  lemma ProducerKeepsDoneSeen(s: State, t: nat, m: ProducerMove)
    requires ProducerStep(s, t, m).Some?
    ensures var s' := ProducerStep(s, t, m).value; s'.w == s.w && s'.h.done == s.h.done && s'.h.seen == s.h.seen
  {
    match s.producers[t].pc
    case Outside =>
    case Loaded =>
    case Resolving(_) =>
    case ClaimBytes(_, _) =>
    case UndoBytes(_, _) =>
    case ClaimRecord(_, _) =>
    case UndoRecord(_, _) =>
    case ReturnBytes(_, _) =>
    case Ticketing(_, _) =>
    case Pushing(_) =>
    case Notifying =>
    case Leaving =>
    case Closing =>
    case Gone =>
  }

  lemma StepKeepsDoneSeen(s: State, a: Action)
    requires Shape(s) && Numbered(s) && Accounted(s) && DoneWasSeen(s) && Step(s, a).Some?
    ensures DoneWasSeen(Step(s, a).value)
  {
    match a
    case ByProducer(t, m) => ProducerKeepsDoneSeen(s, t, m);
    case ByWorker(m) => WorkerKeepsDoneSeen(s, m);
    case ByFlusher(f, m) => FlushFrame(s, f, m);
    case ByHandle(m) => HandleFrame(s, m);
  }

  // ---------------------------------------------------------------- the clean exit

  lemma {:induction false} QueuedSomewhere(lanes: seq<Lane>, log: QueuedLog)
    ensures log in QueuedIn(lanes) <==>
      exists l :: 0 <= l < |lanes| && (log in lanes[l].queues.reserved || log in lanes[l].queues.normal)
  {
    if lanes != [] {
      var init, last := lanes[..|lanes| - 1], lanes[|lanes| - 1];
      QueuedSomewhere(init, log);
      assert forall l :: 0 <= l < |init| ==> init[l] == lanes[l];
      if log in LogsOf(last.queues) {
        assert log in lanes[|lanes| - 1].queues.reserved || log in lanes[|lanes| - 1].queues.normal;
      }
    }
  }

  /** On the clean exit a record is completed, or it lies in a lane: no parked, inbox or batch record is abandoned. */
  lemma DrainedOrInLane(s: State, log: QueuedLog)
    requires Shape(s) && Numbered(s) && Accounted(s) && ClearedLate(s)
    requires s.w.pc == Wait(Drained) && log in s.h.issued
    ensures log in s.h.done <==> log !in QueuedIn(s.lanes)
  {
    NobodyInside(s);
    IssuedOnce(s.h.issued, log);
    CountMember(s.h.done, log);
    CountMember(QueuedIn(s.lanes), log);
    assert Occurrences(s, log) == Count(s.h.issued, log);
  }

  /** The clean exit leaves only records that reached their lane after the worker's last
      refresh had begun, and none at all if the fence was closed by then. */
  lemma CleanExitLeavesOnlyLatecomers(s: State, log: QueuedLog)
    requires Shape(s) && Numbered(s) && Accounted(s) && ClearedLate(s) && SeenSettled(s) && ClosedSeesAll(s)
    requires s.w.pc == Wait(Drained) && log in s.h.issued
    ensures log in s.h.seen || s.h.seenClosed ==> log in s.h.done
  {
    DrainedOrInLane(s, log);
    QueuedSomewhere(s.lanes, log);
  }

  /** `remaining_records: 0` on the clean exit is off by exactly what the two depth
      counters still show, so it is truthful if and only if both are zero. */
  lemma CleanExitReport(s: State)
    requires Shape(s) && Numbered(s) && Accounted(s) && ClearedLate(s) && BudgetsHold(s) && ResetMeansAborted(s)
    requires s.w.pc == Wait(Drained)
    ensures s.sh.nextTicket - |s.h.done| == Depth(s)
    ensures |s.h.done| == s.sh.nextTicket <==> s.sh.used.normalDepth == 0 && s.sh.used.reservedDepth == 0
  {
    NobodyInside(s);
    TicketsAddUp(s);
    DepthAddsUp(s);
    assert Bounded(s, Budget(Normal, Slots)) && Bounded(s, Budget(Reserved, Slots));
  }
}
