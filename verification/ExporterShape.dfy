/** What every step of the machine keeps true about lanes, the fence and the worker's own variables. */
module ExporterShape {
  import opened Records
  import opened Wrappers
  import opened Drain
  import opened Exporter

  // ---------------------------------------------------------------- lanes and threads

  /** Threads and lanes point at each other; a lane is closed exactly when its thread has exited. */
  ghost predicate LanesOwned(s: State) {
    && (forall t :: 0 <= t < |s.producers| && s.producers[t].lane.Some? ==>
          s.producers[t].lane.value < |s.lanes| && s.lanes[s.producers[t].lane.value].owner == t)
    && (forall l :: 0 <= l < |s.lanes| ==>
          && s.lanes[l].owner < |s.producers|
          && s.producers[s.lanes[l].owner].lane == Some(l)
          && (s.lanes[l].closed <==>
                s.producers[s.lanes[l].owner].pc.Closing? || s.producers[s.lanes[l].owner].pc.Gone?))
    && (forall t :: 0 <= t < |s.producers| && s.producers[t].pc.UsesLane() ==> s.producers[t].lane.Some?)
    && (forall t :: 0 <= t < |s.producers| && s.producers[t].pc.Pushing? ==> s.producers[t].pc.log.owner == t)
  }

  ghost predicate Filed(q: LaneQueues, owner: nat) {
    && (forall log <- q.normal :: log.owner == owner && log.queue == Normal)
    && (forall log <- q.reserved :: log.owner == owner && log.queue == Reserved)
  }

  ghost predicate LanesFiled(s: State) {
    forall l :: 0 <= l < |s.lanes| ==> Filed(s.lanes[l].queues, s.lanes[l].owner)
  }

  ghost predicate Distinct(ids: seq<nat>, bound: nat) {
    && (forall i :: 0 <= i < |ids| ==> ids[i] < bound)
    && (forall i, j :: 0 <= i < j < |ids| ==> ids[i] != ids[j])
  }

  /** A lane outside the registry holds nothing and can receive nothing. */
  ghost predicate RegistrySound(s: State) {
    && Distinct(s.registry, |s.lanes|)
    && (forall l :: 0 <= l < |s.lanes| && l !in s.registry ==>
          s.lanes[l].queues == EMPTY_QUEUES && (s.lanes[l].closed || s.sh.fence.ProducersClosed()))
    && (s.w.pc.Refresh? ==> RefreshSound(s, s.w.pc.refresh))
  }

  ghost predicate RefreshSound(s: State, at: RefreshPc)
    requires forall i :: 0 <= i < |s.registry| ==> s.registry[i] < |s.lanes|
  {
    && (at.RetireCheck? ==> at.i < |s.registry| && s.lanes[s.registry[at.i]].closed)
    && (at.Taking? ==> Distinct(at.visited + at.todo, |s.lanes|) && |at.visited| == |at.taken|)
  }

  /** The fence leaves `Alive` exactly when nothing can call the callback any more. */
  ghost predicate FenceExact(s: State) {
    s.sh.fence.Alive? <==> !Unreferenced(s)
  }

  // ---------------------------------------------------------------- the worker

  predicate SiteOpen(site: Site) {
    !site.AtTop? && (site.InBatch? || site.InBatchWoken? ==> site.batch != [])
  }

  predicate ResumeOpen(resume: Resume) {
    && (resume.ToFill? ==> resume.batch != [])
    && (resume.ToNextSegment? ==> NoneEmpty(resume.stack))
  }

  /** Batches and segments are never empty; a poll always has a caller below the loop head. */
  predicate PcShape(pc: WorkerPc) {
    match pc
    case Refresh(site, _) => site.AtTop? || SiteOpen(site)
    case Input(at) => at.Top? || at.Choose? || SiteOpen(at.site)
    case Assemble(at) => at.First? || at.batch != []
    case Wait(at) => at.WaitBatch? ==> at.batch != []
    case Transmit(stack, at) => NoneEmpty(stack) && (!at.NextSegment? ==> at.records != [])
    case Settle(_, resume, _) => ResumeOpen(resume)
    case Fail(stack, _) => NoneEmpty(stack)
    case Aborted(_) => true
  }

  /** Control points at which a record may be parked in `pending`. */
  predicate MayPark(pc: WorkerPc) {
    match pc
    case Refresh(site, _) => site.AtTop?
    case Input(at) => at.Top? || at.Choose?
    case Assemble(at) => at.Export?
    case Wait(_) => false
    case Transmit(_, _) => true
    case Settle(_, resume, _) => resume.ToNextSegment?
    case Fail(_, _) => true
    case Aborted(_) => true
  }

  /** Control points that are reached only with an empty inbox. */
  predicate InboxSpent(pc: WorkerPc) {
    match pc
    case Refresh(site, _) => !site.AtTop?
    case Wait(_) => true
    case _ => false
  }

  ghost predicate WorkerShape(w: Worker) {
    && PcShape(w.pc)
    && |w.pending| <= (if MayPark(w.pc) then 1 else 0)
    && (InboxSpent(w.pc) ==> w.reserved == [] && w.normal == [])
  }

  /** The worker's exits lie behind a read of `producers_closed`. */
  predicate BeyondFence(pc: WorkerPc) {
    || (pc.Wait? && (pc.wait.StopStatus? || pc.wait.StopNotify? || pc.wait.Drained?))
    || (pc.Fail? && (pc.fail.TermClear? || pc.fail.TermStatus? || pc.fail.TermNotify? || pc.fail.Discarded?))
  }

  ghost predicate ExitsFenced(s: State) {
    BeyondFence(s.w.pc) ==> s.sh.fence.ProducersClosed()
  }

  ghost predicate Shape(s: State) {
    && LanesOwned(s)
    && LanesFiled(s)
    && RegistrySound(s)
    && FenceExact(s)
    && ExitsFenced(s)
    && WorkerShape(s.w)
  }

  lemma InitShape(cfg: Config)
    ensures Shape(Init(cfg))
  {
  }

  // ---------------------------------------------------------------- preservation: worker variables

  lemma WorkerKeepsWorkerShape(s: State, m: WorkerMove)
    requires WorkerShape(s.w) && WorkerStep(s, m).Some?
    ensures WorkerShape(WorkerStep(s, m).value.w)
  {
    match s.w.pc
    case Refresh(site, at) => RefreshKeepsWorkerShape(s, site, at);
    case Input(at) => InputKeepsWorkerShape(s, at);
    case Assemble(at) => BatchKeepsWorkerShape(s, at);
    case Wait(at) => WaitKeepsWorkerShape(s, at, m);
    case Transmit(stack, at) => TransmitKeepsWorkerShape(s, stack, at, m);
    case Settle(logs, resume, at) => SettleKeepsWorkerShape(s, logs, resume, at);
    case Fail(stack, at) => FailKeepsWorkerShape(s, stack, at);
  }

  lemma RefreshKeepsWorkerShape(s: State, site: Site, at: RefreshPc)
    requires WorkerShape(s.w) && s.w.pc == Refresh(site, at) && RefreshStep(s, site, at).Some?
    ensures WorkerShape(RefreshStep(s, site, at).value.w)
  {
    match at
    case Retiring(_) =>
    case RetireCheck(_) =>
    case Taking(_, _, _) =>
  }

  lemma SettleKeepsWorkerShape(s: State, logs: seq<QueuedLog>, resume: Resume, at: SettlePc)
    requires WorkerShape(s.w) && s.w.pc == Settle(logs, resume, at)
    ensures WorkerShape(SettleStep(s, logs, resume, at).w)
  {
    match at
    case Complete =>
    case Publish =>
    case Progress =>
  }

  lemma FailKeepsWorkerShape(s: State, stack: seq<seq<QueuedLog>>, at: FailPc)
    requires WorkerShape(s.w) && s.w.pc == Fail(stack, at) && FailStep(s, stack, at).Some?
    ensures WorkerShape(FailStep(s, stack, at).value.w)
  {
    match at
    case Terminal =>
    case TermShutdown =>
    case TermFence =>
    case TermWait =>
    case TermClear =>
    case TermStatus(_) =>
    case TermNotify(_) =>
    case Discarded(_) =>
  }

  lemma InputKeepsWorkerShape(s: State, at: InputPc)
    requires WorkerShape(s.w) && s.w.pc == Input(at)
    ensures WorkerShape(InputStep(s, at).w)
  {
    match at
    case Top =>
    case Choose =>
    case Poll(_) =>
    case Pop(AtTop) =>
    case Pop(InReceive) =>
    case Pop(InDrain) =>
    case Pop(InLastPoll) =>
    case Pop(InBatch(_)) =>
    case Pop(InBatchWoken(_)) =>
    case ReleaseRecord(_, _) =>
    case ReleaseBytes(InLastPoll, _) =>
    case ReleaseBytes(InBatch(_), _) =>
    case ReleaseBytes(InBatchWoken(_), _) =>
    case ReleaseBytes(_, _) =>
  }

  lemma BatchKeepsWorkerShape(s: State, at: BatchPc)
    requires WorkerShape(s.w) && s.w.pc == Assemble(at)
    ensures WorkerShape(BatchStep(s, at).w)
  {
    match at
    case First(_) =>
    case Fill(_) =>
    case Next(_, _) =>
    case Export(_) =>
  }

  lemma WaitKeepsWorkerShape(s: State, at: WaitPc, m: WorkerMove)
    requires WorkerShape(s.w) && s.w.pc == Wait(at) && WaitStep(s, at, m).Some?
    ensures WorkerShape(WaitStep(s, at, m).value.w)
  {
    match at
    case WaitReceive =>
    case WaitBatch(_) =>
    case WaitFence =>
    case CheckFence =>
    case StopStatus =>
    case StopNotify =>
    case Drained =>
  }

  lemma TransmitKeepsWorkerShape(s: State, stack: seq<seq<QueuedLog>>, at: TransmitPc, m: WorkerMove)
    requires WorkerShape(s.w) && s.w.pc == Transmit(stack, at) && TransmitStep(s, stack, at, m).Some?
    ensures WorkerShape(TransmitStep(s, stack, at, m).value.w)
  {
    match at
    case NextSegment =>
    case Send(records) =>
      if m.Answer? {
        match m.outcome
        case Accepted(_) =>
        case InvalidPayload => assert |records| > 1 ==> NoneEmpty(Split(records));
        case Retryable =>
        case Permanent =>
      }
    case Backoff(_) =>
  }

  // ---------------------------------------------------------------- frames

  ghost predicate SameThreads(s: State, s': State) {
    && s'.cfg == s.cfg && s'.producers == s.producers
    && s'.sh.slot == s.sh.slot && s'.sh.handle == s.sh.handle && s'.sh.fence == s.sh.fence
    && s'.sh.nextTicket == s.sh.nextTicket && s'.h.issued == s.h.issued
  }

  ghost predicate SameLanes(s: State, s': State) {
    s'.lanes == s.lanes && s'.registry == s.registry
  }

  ghost predicate Quiet(s: State, s': State) {
    SameThreads(s, s') && SameLanes(s, s') && (s'.w.pc.Refresh? ==> s'.w.pc.refresh == Retiring(0))
  }

  /** The step neither fills nor drains the inbox, and touches no counter. */
  ghost predicate KeepsInbox(s: State, s': State) {
    && s'.w.reserved == s.w.reserved && s'.w.normal == s.w.normal && s'.sh.used == s.sh.used
    && !s'.w.pc.Refresh? && (s'.w.pc.Input? ==> s'.w.pc.input.Top? || s'.w.pc.input.Poll?)
  }

  predicate TouchesLanes(pc: WorkerPc) {
    pc.Refresh? || (pc.Fail? && pc.fail.TermClear?)
  }

  /** No worker step touches a thread, the fence or the tickets; only a refresh or `clear` touches lanes. */
  lemma WorkerFrame(s: State, m: WorkerMove)
    requires WorkerStep(s, m).Some?
    ensures SameThreads(s, WorkerStep(s, m).value)
    ensures !TouchesLanes(s.w.pc) ==> Quiet(s, WorkerStep(s, m).value)
  {
    match s.w.pc
    case Refresh(site, at) => RefreshFrame(s, site, at);
    case Input(at) => InputFrame(s, at);
    case Assemble(at) => BatchFrame(s, at);
    case Wait(at) => WaitFrame(s, at, m);
    case Transmit(stack, at) => TransmitFrame(s, stack, at, m);
    case Settle(logs, resume, at) => SettleFrame(s, logs, resume, at);
    case Fail(stack, at) => FailFrame(s, stack, at);
  }

  lemma RefreshFrame(s: State, site: Site, at: RefreshPc)
    requires RefreshStep(s, site, at).Some?
    ensures SameThreads(s, RefreshStep(s, site, at).value)
  {
    match at
    case Retiring(_) =>
    case RetireCheck(_) =>
    case Taking(_, _, _) =>
  }

  lemma InputFrame(s: State, at: InputPc)
    ensures Quiet(s, InputStep(s, at))
    ensures !BeyondFence(InputStep(s, at).w.pc)
  {
    match at
    case Top =>
    case Choose =>
    case Poll(_) =>
    case Pop(AtTop) =>
    case Pop(InReceive) =>
    case Pop(InDrain) =>
    case Pop(InLastPoll) =>
    case Pop(InBatch(_)) =>
    case Pop(InBatchWoken(_)) =>
    case ReleaseRecord(_, _) =>
    case ReleaseBytes(InLastPoll, _) =>
    case ReleaseBytes(InBatch(_), _) =>
    case ReleaseBytes(InBatchWoken(_), _) =>
    case ReleaseBytes(_, _) =>
  }

  lemma BatchFrame(s: State, at: BatchPc)
    ensures Quiet(s, BatchStep(s, at))
    ensures KeepsInbox(s, BatchStep(s, at))
    ensures !BeyondFence(BatchStep(s, at).w.pc)
  {
    match at
    case First(_) =>
    case Fill(_) =>
    case Next(_, _) =>
    case Export(_) =>
  }

  lemma WaitFrame(s: State, at: WaitPc, m: WorkerMove)
    requires WaitStep(s, at, m).Some?
    ensures Quiet(s, WaitStep(s, at, m).value)
    ensures KeepsInbox(s, WaitStep(s, at, m).value)
  {
    match at
    case WaitReceive =>
    case WaitBatch(_) =>
    case WaitFence =>
    case CheckFence =>
    case StopStatus =>
    case StopNotify =>
    case Drained =>
  }

  lemma TransmitFrame(s: State, stack: seq<seq<QueuedLog>>, at: TransmitPc, m: WorkerMove)
    requires TransmitStep(s, stack, at, m).Some?
    ensures Quiet(s, TransmitStep(s, stack, at, m).value)
    ensures KeepsInbox(s, TransmitStep(s, stack, at, m).value)
    ensures !BeyondFence(TransmitStep(s, stack, at, m).value.w.pc)
  {
    match at
    case NextSegment =>
    case Send(records) => if m.Answer? { AnswerFrame(s, stack, records, m.outcome); }
    case Backoff(_) =>
  }

  lemma AnswerFrame(s: State, stack: seq<seq<QueuedLog>>, records: seq<QueuedLog>, outcome: Outcome)
    requires AnswerStep(s, stack, records, outcome).Some?
    ensures Quiet(s, AnswerStep(s, stack, records, outcome).value)
    ensures KeepsInbox(s, AnswerStep(s, stack, records, outcome).value)
    ensures !BeyondFence(AnswerStep(s, stack, records, outcome).value.w.pc)
  {
    match outcome
    case Accepted(rejected) => AnsweredFrame(s, stack, records, |records| - rejected, rejected);
    case InvalidPayload => if |records| == 1 { AnsweredFrame(s, stack, records, 0, 1); }
    case Retryable =>
    case Permanent =>
  }

  lemma AnsweredFrame(s: State, stack: seq<seq<QueuedLog>>, records: seq<QueuedLog>, exported: nat, rejected: nat)
    ensures var s' := Answered(s, stack, records, exported, rejected);
      Quiet(s, s') && KeepsInbox(s, s') && !BeyondFence(s'.w.pc)
  {
  }

  lemma SettleFrame(s: State, logs: seq<QueuedLog>, resume: Resume, at: SettlePc)
    ensures Quiet(s, SettleStep(s, logs, resume, at))
    ensures KeepsInbox(s, SettleStep(s, logs, resume, at))
    ensures !BeyondFence(SettleStep(s, logs, resume, at).w.pc)
  {
    match at
    case Complete =>
    case Publish =>
    case Progress =>
  }

  lemma FailFrame(s: State, stack: seq<seq<QueuedLog>>, at: FailPc)
    requires FailStep(s, stack, at).Some?
    ensures SameThreads(s, FailStep(s, stack, at).value)
    ensures !at.TermClear? ==> Quiet(s, FailStep(s, stack, at).value) && KeepsInbox(s, FailStep(s, stack, at).value)
  {
    match at
    case Terminal =>
    case TermShutdown =>
    case TermFence =>
    case TermWait =>
    case TermClear =>
    case TermStatus(_) =>
    case TermNotify(_) =>
    case Discarded(_) =>
  }

  lemma FlushFrame(s: State, f: nat, m: FlushMove)
    requires FlushStep(s, f, m).Some?
    ensures var s' := FlushStep(s, f, m).value;
      SameThreads(s, s') && SameLanes(s, s') && s'.w == s.w && s'.h == s.h && s'.sh.used == s.sh.used
  {
    match s.flushers[f]
    case FlushIdle =>
    case FlushWake(_) =>
    case FlushEnable(_) =>
    case FlushLoad(_, _) =>
    case FlushLoadStatus(_, _, _) =>
    case FlushWait(_, _) =>
    case FlushDone(_, _, _) =>
  }

  // ---------------------------------------------------------------- preservation: lanes

  lemma MovingKeepsOwnership(s: State, s': State, t: nat, pc: ProducerPc)
    requires LanesOwned(s) && Moved(s, s', t, pc) && MoveSound(s.producers[t], t, pc)
    ensures LanesOwned(s')
  {
  }

  lemma SameOwnersKeepsOwnership(s: State, s': State)
    requires LanesOwned(s) && s'.producers == s.producers && |s'.lanes| == |s.lanes|
    requires forall l :: 0 <= l < |s.lanes| ==>
      s'.lanes[l].owner == s.lanes[l].owner && s'.lanes[l].closed == s.lanes[l].closed
    ensures LanesOwned(s')
  {
  }

  /** Steps that only move a thread's control point, as seen by lanes, registry and worker. */
  predicate OnlyMoves(p: Producer, m: ProducerMove) {
    match p.pc
    case Outside => m.Enter? || p.lane.None?
    case Resolving(_) => p.lane.Some?
    case Pushing(_) => false
    case _ => true
  }

  ghost predicate Moved(s: State, s': State, t: nat, pc: ProducerPc) {
    && t < |s.producers| && s'.producers == s.producers[t := s.producers[t].(pc := pc)]
    && SameLanes(s, s') && s'.w == s.w && s'.cfg == s.cfg && s'.flushers == s.flushers
    && s'.sh.slot == s.sh.slot && s'.sh.handle == s.sh.handle
    && (!s.producers[t].pc.Leaving? ==> s'.sh.fence == s.sh.fence)
    && (s.producers[t].pc.Outside? && pc.Loaded? ==> s.sh.slot)
    && (!s.producers[t].pc.Ticketing? ==> s'.h == s.h && s'.sh.nextTicket == s.sh.nextTicket && !pc.Pushing?)
  }

  /** Where one such step may lead. */
  ghost predicate MoveSound(p: Producer, t: nat, pc: ProducerPc) {
    && !p.pc.Gone?
    && (p.pc.Outside? ==> pc.Loaded? || (pc.Gone? && p.lane.None?))
    && (pc.UsesLane() ==> p.lane.Some? || p.pc.UsesLane())
    && (pc.Pushing? ==> pc.log.owner == t)
    && (!p.pc.Outside? && !p.pc.Closing? ==> !pc.Closing? && !pc.Gone?)
    && (p.pc.Closing? ==> pc.Gone?)
    && (p.pc.Leaving? ==> pc.Outside?)
    && (p.pc.HoldsCallback() && !p.pc.Leaving? ==> pc.HoldsCallback())
  }

  lemma ProducerMoves(s: State, t: nat, m: ProducerMove) returns (pc: ProducerPc)
    requires t < |s.producers| && OnlyMoves(s.producers[t], m) && ProducerStep(s, t, m).Some?
    ensures Moved(s, ProducerStep(s, t, m).value, t, pc) && MoveSound(s.producers[t], t, pc)
  {
    pc := ProducerStep(s, t, m).value.producers[t].pc;
    match s.producers[t].pc
    case Outside =>
    case Loaded =>
    case Resolving(_) =>
    case ClaimBytes(_, _) =>
    case UndoBytes(_, _) =>
    case ClaimRecord(_, _) =>
    case UndoRecord(_, _) =>
    case ReturnBytes(_, _) =>
    case Ticketing(_, _) =>
    case Pushing(_) =>
    case Notifying =>
    case Leaving =>
    case Closing =>
    case Gone =>
  }

  /** A step of thread `t` that leaves all lanes as they are, or changes lane `l` only. */
  lemma RegisteringKeepsOwnership(s: State, t: nat, draft: Draft)
    requires LanesOwned(s) && t < |s.producers| && s.producers[t].pc == Resolving(draft)
    requires s.producers[t].lane.None? && ResolveLane(s, t, draft).Some?
    ensures LanesOwned(ResolveLane(s, t, draft).value)
  {
  }

  lemma ExitingKeepsOwnership(s: State, t: nat)
    requires LanesOwned(s) && t < |s.producers| && s.producers[t].pc.Outside? && s.producers[t].lane.Some?
    ensures EnterOrExit(s, t, Exit).Some? && LanesOwned(EnterOrExit(s, t, Exit).value)
  {
  }

  lemma PushingKeepsOwnership(s: State, t: nat, log: QueuedLog)
    requires LanesOwned(s) && t < |s.producers| && s.producers[t].pc == Pushing(log)
    ensures Push(s, t, log).Some? && LanesOwned(Push(s, t, log).value)
  {
  }

  lemma ProducerKeepsOwnership(s: State, t: nat, m: ProducerMove)
    requires LanesOwned(s) && ProducerStep(s, t, m).Some?
    ensures LanesOwned(ProducerStep(s, t, m).value)
  {
    if OnlyMoves(s.producers[t], m) {
      var pc := ProducerMoves(s, t, m);
      MovingKeepsOwnership(s, ProducerStep(s, t, m).value, t, pc);
    } else {
      match s.producers[t].pc
      case Outside => ExitingKeepsOwnership(s, t);
      case Resolving(draft) => RegisteringKeepsOwnership(s, t, draft);
      case Pushing(log) => PushingKeepsOwnership(s, t, log);
    }
  }

  lemma ProducerKeepsFiling(s: State, t: nat, m: ProducerMove)
    requires LanesOwned(s) && LanesFiled(s) && ProducerStep(s, t, m).Some?
    ensures LanesFiled(ProducerStep(s, t, m).value)
  {
    if OnlyMoves(s.producers[t], m) {
      var pc := ProducerMoves(s, t, m);
    }
  }

  /** The lane pointer that a submission uses belongs to an open lane of the registry. */
  lemma LanePointerIsLive(s: State, t: nat)
    requires LanesOwned(s) && RegistrySound(s) && FenceExact(s)
    requires t < |s.producers| && s.producers[t].pc.UsesLane()
    ensures s.producers[t].lane.Some? && s.producers[t].lane.value < |s.lanes|
    ensures s.producers[t].lane.value in s.registry
    ensures !s.lanes[s.producers[t].lane.value].closed
  {
  }

  lemma ProducerKeepsRegistry(s: State, t: nat, m: ProducerMove)
    requires LanesOwned(s) && RegistrySound(s) && FenceExact(s) && ProducerStep(s, t, m).Some?
    ensures RegistrySound(ProducerStep(s, t, m).value)
  {
    if OnlyMoves(s.producers[t], m) {
      var pc := ProducerMoves(s, t, m);
    } else {
      match s.producers[t].pc
      case Outside => ExitingKeepsRegistry(s, t);
      case Resolving(draft) => RegisteringKeepsRegistry(s, t, draft);
      case Pushing(log) => PushingKeepsRegistry(s, t, log);
    }
  }

  lemma ExitingKeepsRegistry(s: State, t: nat)
    requires LanesOwned(s) && RegistrySound(s)
    requires t < |s.producers| && s.producers[t].pc.Outside? && s.producers[t].lane.Some?
    ensures EnterOrExit(s, t, Exit).Some? && RegistrySound(EnterOrExit(s, t, Exit).value)
  {
  }

  lemma RegisteringKeepsRegistry(s: State, t: nat, draft: Draft)
    requires RegistrySound(s) && t < |s.producers| && s.producers[t].pc == Resolving(draft)
    requires s.producers[t].lane.None? && ResolveLane(s, t, draft).Some?
    ensures RegistrySound(ResolveLane(s, t, draft).value)
  {
    var s' := ResolveLane(s, t, draft).value;
    assert forall l :: l in s.registry ==> l in s'.registry;
    assert s'.registry[|s.registry|] == |s.lanes|;
  }

  lemma PushingKeepsRegistry(s: State, t: nat, log: QueuedLog)
    requires LanesOwned(s) && RegistrySound(s) && FenceExact(s)
    requires t < |s.producers| && s.producers[t].pc == Pushing(log)
    ensures Push(s, t, log).Some? && RegistrySound(Push(s, t, log).value)
  {
    LanePointerIsLive(s, t);
  }

  lemma ProducerKeepsFence(s: State, t: nat, m: ProducerMove)
    requires FenceExact(s) && ProducerStep(s, t, m).Some?
    ensures FenceExact(ProducerStep(s, t, m).value)
    ensures s.sh.fence.ProducersClosed() == ProducerStep(s, t, m).value.sh.fence.ProducersClosed()
  {
    if s.producers[t].pc.Leaving? {
      LeavingKeepsFence(s, t);
    } else if OnlyMoves(s.producers[t], m) {
      var pc := ProducerMoves(s, t, m);
      MovingKeepsFence(s, ProducerStep(s, t, m).value, t, pc);
    } else {
      RunningKeepsFence(s, ProducerStep(s, t, m).value, t);
    }
  }

  lemma LeavingKeepsFence(s: State, t: nat)
    requires FenceExact(s) && t < |s.producers| && s.producers[t].pc.Leaving?
    ensures FenceExact(AfterDrop(SetPc(s, t, Outside)))
    ensures s.sh.fence.ProducersClosed() == AfterDrop(SetPc(s, t, Outside)).sh.fence.ProducersClosed()
  {
  }

  lemma MovingKeepsFence(s: State, s': State, t: nat, pc: ProducerPc)
    requires FenceExact(s) && Moved(s, s', t, pc) && MoveSound(s.producers[t], t, pc) && !s.producers[t].pc.Leaving?
    ensures FenceExact(s') && s'.sh.fence == s.sh.fence
  {
    assert forall i :: 0 <= i < |s.producers| && i != t ==> s'.producers[i] == s.producers[i];
    assert s'.producers[t].pc == pc;
  }

  /** Threads that stay inside, or stay outside, do not move the fence. */
  lemma RunningKeepsFence(s: State, s': State, t: nat)
    requires FenceExact(s) && t < |s.producers| && |s'.producers| == |s.producers|
    requires s'.sh.fence == s.sh.fence && s'.sh.slot == s.sh.slot && s'.sh.handle == s.sh.handle
    requires forall i :: 0 <= i < |s.producers| ==>
        s'.producers[i].pc.HoldsCallback() == s.producers[i].pc.HoldsCallback()
    ensures FenceExact(s')
  {
  }

  // ---------------------------------------------------------------- preservation: worker and handle

  lemma RefreshKeepsLanes(s: State, site: Site, at: RefreshPc)
    requires LanesOwned(s) && LanesFiled(s) && s.w.pc == Refresh(site, at) && RefreshStep(s, site, at).Some?
    ensures LanesOwned(RefreshStep(s, site, at).value) && LanesFiled(RefreshStep(s, site, at).value)
  {
    SameOwnersKeepsOwnership(s, RefreshStep(s, site, at).value);
  }

  lemma DiscardKeepsLanes(s: State, stack: seq<seq<QueuedLog>>)
    requires LanesOwned(s) && LanesFiled(s)
    ensures LanesOwned(Discard(s, stack)) && LanesFiled(Discard(s, stack))
  {
    SameOwnersKeepsOwnership(s, Discard(s, stack));
  }

  lemma DiscardKeepsRegistry(s: State, stack: seq<seq<QueuedLog>>)
    requires RegistrySound(s) && s.sh.fence.ProducersClosed()
    ensures RegistrySound(Discard(s, stack))
  {
  }

  lemma SwappedIsDistinct(front: seq<nat>, back: seq<nat>, bound: nat)
    requires Distinct(front + back, bound)
    ensures Distinct(back + front, bound)
    ensures forall id :: id in front + back <==> id in back + front
  {
    var all := front + back;
    assert forall i :: 0 <= i < |front| ==> all[i] == front[i];
    assert forall i :: 0 <= i < |back| ==> all[|front| + i] == back[i];
  }

  lemma RotatedIsDistinct(ids: seq<nat>, cursor: nat, bound: nat)
    requires Distinct(ids, bound)
    ensures Distinct([] + Rotated(ids, cursor), bound)
    ensures forall id :: id in ids <==> id in Rotated(ids, cursor)
  {
    if ids != [] {
      var start := cursor % |ids|;
      assert ids == ids[..start] + ids[start..];
      SwappedIsDistinct(ids[..start], ids[start..], bound);
    }
    assert [] + Rotated(ids, cursor) == Rotated(ids, cursor);
  }

  lemma RemovedIsDistinct(ids: seq<nat>, i: nat, bound: nat)
    requires Distinct(ids, bound) && i < |ids|
    ensures Distinct(ids[..i] + ids[i + 1..], bound)
    ensures forall id :: id in ids[..i] + ids[i + 1..] <==> id in ids && id != ids[i]
  {
    var r := ids[..i] + ids[i + 1..];
    forall id | id in ids && id != ids[i]
      ensures id in r
    {
      var k :| 0 <= k < |ids| && ids[k] == id;
      assert r[if k < i then k else k - 1] == id;
    }
  }

  lemma RetiringKeepsRegistry(s: State, site: Site, i: nat)
    requires RegistrySound(s) && s.w.pc == Refresh(site, Retiring(i))
    ensures RefreshStep(s, site, Retiring(i)).Some? && RegistrySound(RefreshStep(s, site, Retiring(i)).value)
  {
    RotatedIsDistinct(s.registry, s.cursor, |s.lanes|);
  }

  lemma RetireCheckKeepsRegistry(s: State, site: Site, i: nat)
    requires RegistrySound(s) && s.w.pc == Refresh(site, RetireCheck(i))
    ensures RefreshStep(s, site, RetireCheck(i)).Some? && RegistrySound(RefreshStep(s, site, RetireCheck(i)).value)
  {
    RemovedIsDistinct(s.registry, i, |s.lanes|);
  }

  lemma TakingKeepsRegistry(s: State, site: Site, todo: seq<nat>, visited: seq<nat>, taken: seq<LaneQueues>)
    requires RegistrySound(s) && s.w.pc == Refresh(site, Taking(todo, visited, taken))
    ensures RefreshStep(s, site, Taking(todo, visited, taken)).Some?
    ensures RegistrySound(RefreshStep(s, site, Taking(todo, visited, taken)).value)
  {
    if todo != [] {
      assert (visited + todo)[|visited|] == todo[0];
      assert (visited + [todo[0]]) + todo[1..] == visited + todo;
    }
  }

  lemma WorkerKeepsRegistry(s: State, m: WorkerMove)
    requires RegistrySound(s) && ExitsFenced(s) && WorkerStep(s, m).Some?
    ensures RegistrySound(WorkerStep(s, m).value)
  {
    if s.w.pc.Refresh? {
      match s.w.pc.refresh
      case Retiring(i) => RetiringKeepsRegistry(s, s.w.pc.site, i);
      case RetireCheck(i) => RetireCheckKeepsRegistry(s, s.w.pc.site, i);
      case Taking(todo, visited, taken) => TakingKeepsRegistry(s, s.w.pc.site, todo, visited, taken);
    } else if TouchesLanes(s.w.pc) {
      DiscardKeepsRegistry(s, s.w.pc.retained);
    } else {
      WorkerFrame(s, m);
    }
  }

  lemma WorkerKeepsLanes(s: State, m: WorkerMove)
    requires LanesOwned(s) && LanesFiled(s) && WorkerStep(s, m).Some?
    ensures LanesOwned(WorkerStep(s, m).value) && LanesFiled(WorkerStep(s, m).value)
  {
    if s.w.pc.Refresh? {
      RefreshKeepsLanes(s, s.w.pc.site, s.w.pc.refresh);
    } else if TouchesLanes(s.w.pc) {
      DiscardKeepsLanes(s, s.w.pc.retained);
    } else {
      WorkerFrame(s, m);
    }
  }

  lemma WorkerKeepsExits(s: State, m: WorkerMove)
    requires ExitsFenced(s) && WorkerStep(s, m).Some?
    ensures ExitsFenced(WorkerStep(s, m).value)
  {
    WorkerFrame(s, m);
    match s.w.pc
    case Wait(at) =>
    case Fail(stack, at) =>
    case _ => WorkerReachesExits(s, m);
  }

  lemma WorkerReachesExits(s: State, m: WorkerMove)
    requires !s.w.pc.Wait? && !s.w.pc.Fail? && WorkerStep(s, m).Some?
    ensures !BeyondFence(WorkerStep(s, m).value.w.pc)
  {
    match s.w.pc
    case Refresh(_, _) =>
    case Input(at) => InputFrame(s, at);
    case Assemble(at) => BatchFrame(s, at);
    case Transmit(stack, at) => TransmitFrame(s, stack, at, m);
    case Settle(logs, resume, at) => SettleFrame(s, logs, resume, at);
  }

  ghost predicate SameHistory(h: History, h': History) {
    && h'.issued == h.issued && h'.done == h.done && h'.sent == h.sent && h'.cleared == h.cleared
    && h'.seen == h.seen && h'.seenClosed == h.seenClosed
  }

  ghost predicate SameWorkerData(w: Worker, w': Worker) {
    && w'.shuttingDown == w.shuttingDown && w'.reserved == w.reserved && w'.normal == w.normal
    && w'.pending == w.pending && w'.tracker == w.tracker
  }

  /** The handle never touches lanes, threads or tickets, and never moves the worker except to abort it. */
  ghost predicate HandleQuiet(s: State, s': State) {
    && SameLanes(s, s') && s'.cfg == s.cfg && s'.producers == s.producers
    && s'.sh.nextTicket == s.sh.nextTicket && s'.sh.completedTicket == s.sh.completedTicket
    && s'.sh.exported == s.sh.exported && s'.sh.rejected == s.sh.rejected && s'.sh.oversize == s.sh.oversize
    && SameHistory(s.h, s'.h) && SameWorkerData(s.w, s'.w)
    && ((s'.w.pc == s.w.pc && s'.sh.used == s.sh.used && s'.h.reset == s.h.reset) || (s'.w.pc.Aborted? && s'.h.reset))
  }

  ghost predicate SameTallies(sh: Shared, sh': Shared) {
    && sh'.slot == sh.slot && sh'.handle == sh.handle && sh'.fence == sh.fence && sh'.used == sh.used
    && sh'.nextTicket == sh.nextTicket && sh'.completedTicket == sh.completedTicket
    && sh'.exported == sh.exported && sh'.rejected == sh.rejected && sh'.oversize == sh.oversize
    && (sh.recordsPermit ==> sh'.recordsPermit)
  }

  lemma StopSharedFrame(sh: Shared)
    ensures SameTallies(sh, StopShared(sh))
  {
    match sh.stop
    case NotStopping =>
    case StopLoadStatus =>
    case StopStoreStatus =>
    case StopShutdown =>
    case StopRecords =>
    case StopFlush =>
  }

  lemma StopFrame(s: State)
    ensures HandleQuiet(s, StopStep(s)) && StopStep(s).w.pc == s.w.pc && StopStep(s).flushers == s.flushers
    ensures StopStep(s).sh.fence == s.sh.fence && StopStep(s).sh.slot == s.sh.slot
        && StopStep(s).sh.handle == s.sh.handle
    ensures s.sh.recordsPermit ==> StopStep(s).sh.recordsPermit
  {
    StopSharedFrame(s.sh);
  }

  lemma HandleFrame(s: State, m: HandleMove)
    requires HandleStep(s, m).Some?
    ensures HandleQuiet(s, HandleStep(s, m).value)
  {
    match m
    case StopAcceptance => StopFrame(s);
    case ClearSlot =>
    case ReleaseHandle =>
    case FenceStore =>
    case FenceNotify =>
    case Abort =>
    case ResetStep =>
  }

  lemma HandleKeepsFence(s: State, m: HandleMove)
    requires FenceExact(s) && HandleStep(s, m).Some?
    ensures FenceExact(HandleStep(s, m).value)
    ensures s.sh.fence.ProducersClosed() ==> HandleStep(s, m).value.sh.fence.ProducersClosed()
  {
    match m
    case StopAcceptance => StopFrame(s);
    case ClearSlot =>
    case ReleaseHandle =>
    case FenceStore =>
    case FenceNotify =>
    case Abort =>
    case ResetStep =>
  }

  lemma HandleKeepsShape(s: State, m: HandleMove)
    requires Shape(s) && HandleStep(s, m).Some?
    ensures Shape(HandleStep(s, m).value)
  {
    HandleFrame(s, m);
    HandleKeepsFence(s, m);
    SameOwnersKeepsOwnership(s, HandleStep(s, m).value);
  }

  /** Every step of every actor keeps the shape. */
  lemma StepKeepsShape(s: State, a: Action)
    requires Shape(s) && Step(s, a).Some?
    ensures Shape(Step(s, a).value)
  {
    match a
    case ByProducer(t, m) => ProducerKeepsShape(s, t, m);
    case ByWorker(m) => WorkerKeepsShape(s, m);
    case ByFlusher(f, m) => FlushFrame(s, f, m);
    case ByHandle(m) => HandleKeepsShape(s, m);
  }

  lemma ProducerKeepsShape(s: State, t: nat, m: ProducerMove)
    requires Shape(s) && ProducerStep(s, t, m).Some?
    ensures Shape(ProducerStep(s, t, m).value)
  {
    ProducerKeepsOwnership(s, t, m);
    ProducerKeepsFiling(s, t, m);
    ProducerKeepsRegistry(s, t, m);
    ProducerKeepsFence(s, t, m);
    ProducerKeepsWorker(s, t, m);
  }

  lemma ProducerKeepsWorker(s: State, t: nat, m: ProducerMove)
    requires ProducerStep(s, t, m).Some?
    ensures ProducerStep(s, t, m).value.w == s.w
  {
    match s.producers[t].pc
    case Outside =>
    case Loaded =>
    case Resolving(_) =>
    case ClaimBytes(_, _) =>
    case UndoBytes(_, _) =>
    case ClaimRecord(_, _) =>
    case UndoRecord(_, _) =>
    case ReturnBytes(_, _) =>
    case Ticketing(_, _) =>
    case Pushing(_) =>
    case Notifying =>
    case Leaving =>
    case Closing =>
    case Gone =>
  }

  lemma WorkerKeepsShape(s: State, m: WorkerMove)
    requires Shape(s) && WorkerStep(s, m).Some?
    ensures Shape(WorkerStep(s, m).value)
  {
    WorkerKeepsLanes(s, m);
    WorkerKeepsRegistry(s, m);
    WorkerKeepsExits(s, m);
    WorkerKeepsWorkerShape(s, m);
    WorkerFrame(s, m);
  }
}
