/**
Delivery of the shutdown request: the one permit that `stop_acceptance` stores reaches the
worker, wherever it is at the time, and a worker that has to wait is never waiting for good.
*/
module ExporterStop {
  import opened Records
  import opened Wrappers
  import opened Exporter
  import opened ExporterShape
  import opened ExporterWake

  // ---------------------------------------------------------------- invariant

  /** `stop_acceptance` has cleared `accepting` and has not stored the permit yet. */
  predicate PermitToCome(stop: StopPc) {
    stop.StopLoadStatus? || stop.StopStoreStatus? || stop.StopShutdown?
  }

  /** The terminal branch no longer waits for the permit. */
  predicate PastTermShutdown(pc: WorkerPc) {
    pc.Fail? && !pc.fail.Terminal? && !pc.fail.TermShutdown?
  }

  /** The worker is about to learn, or has learnt, that it has to stop. */
  predicate Delivered(s: State) {
    s.sh.shutdownPermit || s.w.shuttingDown || PastTermShutdown(s.w.pc) || s.w.pc.Aborted?
  }

  /** Control points that the worker visits only before it has learnt that it has to stop. */
  predicate OnlyBeforeShutdown(pc: WorkerPc) {
    match pc
    case Refresh(site, _) => site.InReceive?
    case Input(at) => !at.Top? && !at.Choose? && at.site.InReceive?
    case Wait(at) => at.WaitReceive? || at.WaitBatch?
    case Fail(_, at) => at.TermShutdown?
    case _ => false
  }

  ghost predicate StopKept(s: State) {
    && (s.sh.shutdownPermit || s.w.shuttingDown || PermitToCome(s.sh.stop) ==> !s.sh.accepting)
    && (OnlyBeforeShutdown(s.w.pc) ==> !s.w.shuttingDown)
    && (!s.sh.accepting && !PermitToCome(s.sh.stop) ==> Delivered(s))
  }

  lemma InitStop(cfg: Config)
    ensures StopKept(Init(cfg))
  {
  }

  // ---------------------------------------------------------------- preservation

  /** A step that neither stores nor takes the permit and leaves the worker's knowledge alone. */
  ghost predicate KeepsStop(s: State, s': State) {
    && s'.sh.accepting == s.sh.accepting && s'.sh.stop == s.sh.stop
    && s'.sh.shutdownPermit == s.sh.shutdownPermit && s'.w.shuttingDown == s.w.shuttingDown
    && (PastTermShutdown(s.w.pc) || s.w.pc.Aborted? ==> PastTermShutdown(s'.w.pc) || s'.w.pc.Aborted?)
    && (OnlyBeforeShutdown(s'.w.pc) ==> OnlyBeforeShutdown(s.w.pc) || !s.w.shuttingDown)
  }

  lemma ProducerKeepsStop(s: State, t: nat, m: ProducerMove)
    requires ProducerStep(s, t, m).Some?
    ensures KeepsStop(s, ProducerStep(s, t, m).value)
  {
    match s.producers[t].pc
    case Outside =>
    case Loaded =>
    case Resolving(_) =>
    case ClaimBytes(_, _) =>
    case UndoBytes(_, _) =>
    case ClaimRecord(_, _) =>
    case UndoRecord(_, _) =>
    case ReturnBytes(_, _) =>
    case Ticketing(_, _) =>
    case Pushing(_) =>
    case Notifying =>
    case Leaving =>
    case Closing =>
    case Gone =>
  }

  lemma FlusherKeepsStop(s: State, f: nat, m: FlushMove)
    requires FlushStep(s, f, m).Some?
    ensures KeepsStop(s, FlushStep(s, f, m).value)
  {
    match s.flushers[f]
    case FlushIdle =>
    case FlushWake(_) =>
    case FlushEnable(_) =>
    case FlushLoad(_, _) =>
    case FlushLoadStatus(_, _, _) =>
    case FlushWait(_, _) =>
    case FlushDone(_, _, _) =>
  }

  lemma HandleKeepsStop(s: State, m: HandleMove)
    requires StopKept(s) && HandleStep(s, m).Some?
    ensures StopKept(HandleStep(s, m).value)
    ensures Delivered(s) ==> Delivered(HandleStep(s, m).value)
  {
    match m
    case StopAcceptance => StoppingKeepsStop(s);
    case ClearSlot =>
    case ReleaseHandle =>
    case FenceStore =>
    case FenceNotify =>
    case Abort =>
    case ResetStep =>
  }

  lemma StoppingKeepsStop(s: State)
    requires StopKept(s)
    ensures StopKept(StopStep(s)) && (Delivered(s) ==> Delivered(StopStep(s)))
  {
    match s.sh.stop
    case NotStopping =>
    case StopLoadStatus =>
    case StopStoreStatus =>
    case StopShutdown =>
    case StopRecords =>
    case StopFlush =>
  }

  lemma WorkerKeepsStop(s: State, m: WorkerMove)
    requires StopKept(s) && WorkerStep(s, m).Some?
    ensures StopKept(WorkerStep(s, m).value)
    ensures Delivered(s) ==> Delivered(WorkerStep(s, m).value)
  {
    match s.w.pc
    case Refresh(site, at) => RefreshKeepsStop(s, site, at);
    case Input(at) => InputKeepsStop(s, at);
    case Assemble(at) => BatchKeepsStop(s, at);
    case Wait(at) => WaitTakesPermit(s, at, m);
    case Transmit(stack, at) => TransmitKeepsStop(s, stack, at, m);
    case Settle(logs, resume, at) => SettleKeepsStop(s, logs, resume, at);
    case Fail(stack, at) => FailTakesPermit(s, stack, at);
  }

  lemma RefreshKeepsStop(s: State, site: Site, at: RefreshPc)
    requires s.w.pc == Refresh(site, at) && RefreshStep(s, site, at).Some?
    ensures KeepsStop(s, RefreshStep(s, site, at).value)
  {
    match at
    case Retiring(_) =>
    case RetireCheck(_) =>
    case Taking(_, _, _) =>
  }

  lemma InputKeepsStop(s: State, at: InputPc)
    requires s.w.pc == Input(at)
    ensures KeepsStop(s, InputStep(s, at))
  {
    match at
    case Top =>
    case Choose =>
    case Poll(_) =>
    case Pop(AtTop) =>
    case Pop(InReceive) =>
    case Pop(InDrain) =>
    case Pop(InLastPoll) =>
    case Pop(InBatch(_)) =>
    case Pop(InBatchWoken(_)) =>
    case ReleaseRecord(_, _) =>
    case ReleaseBytes(InLastPoll, _) =>
    case ReleaseBytes(InBatch(_), _) =>
    case ReleaseBytes(InBatchWoken(_), _) =>
    case ReleaseBytes(_, _) =>
  }

  lemma BatchKeepsStop(s: State, at: BatchPc)
    requires s.w.pc == Assemble(at)
    ensures KeepsStop(s, BatchStep(s, at))
  {
    match at
    case First(_) =>
    case Fill(_) =>
    case Next(_, _) =>
    case Export(_) =>
  }

  /** Both blocking points that take the permit make the worker shut down. */
  lemma WaitTakesPermit(s: State, at: WaitPc, m: WorkerMove)
    requires StopKept(s) && s.w.pc == Wait(at) && WaitStep(s, at, m).Some?
    ensures StopKept(WaitStep(s, at, m).value) && (Delivered(s) ==> Delivered(WaitStep(s, at, m).value))
  {
    match at
    case WaitReceive =>
    case WaitBatch(_) =>
    case WaitFence =>
    case CheckFence =>
    case StopStatus =>
    case StopNotify =>
    case Drained =>
  }

  lemma TransmitKeepsStop(s: State, stack: seq<seq<QueuedLog>>, at: TransmitPc, m: WorkerMove)
    requires s.w.pc == Transmit(stack, at) && TransmitStep(s, stack, at, m).Some?
    ensures KeepsStop(s, TransmitStep(s, stack, at, m).value)
  {
    match at
    case NextSegment =>
    case Send(records) => { match m.outcome case Accepted(_) => case InvalidPayload => case Retryable =>
        case Permanent => }
    case Backoff(_) =>
  }

  lemma SettleKeepsStop(s: State, logs: seq<QueuedLog>, resume: Resume, at: SettlePc)
    requires s.w.pc == Settle(logs, resume, at)
    ensures KeepsStop(s, SettleStep(s, logs, resume, at))
  {
    match at
    case Complete => { match resume case ToTop => case ToFill(_) => case ToNextSegment(_) => }
    case Publish =>
    case Progress =>
  }

  /** The terminal branch waits for the permit only if `accepting` was still set. */
  lemma FailTakesPermit(s: State, stack: seq<seq<QueuedLog>>, at: FailPc)
    requires StopKept(s) && s.w.pc == Fail(stack, at) && FailStep(s, stack, at).Some?
    ensures StopKept(FailStep(s, stack, at).value) && (Delivered(s) ==> Delivered(FailStep(s, stack, at).value))
  {
    match at
    case Terminal =>
    case TermShutdown =>
    case TermFence =>
    case TermWait =>
    case TermClear =>
    case TermStatus(_) =>
    case TermNotify(_) =>
    case Discarded(_) =>
  }

  /** No step loses the shutdown request. */
  lemma StepKeepsStop(s: State, a: Action)
    requires StopKept(s) && Step(s, a).Some?
    ensures StopKept(Step(s, a).value) && (Delivered(s) ==> Delivered(Step(s, a).value))
  {
    match a
    case ByProducer(t, m) => ProducerKeepsStop(s, t, m); ProducerKeepsWorker(s, t, m);
    case ByWorker(m) => WorkerKeepsStop(s, m);
    case ByFlusher(f, m) => FlusherKeepsStop(s, f, m); FlushFrame(s, f, m);
    case ByHandle(m) => HandleKeepsStop(s, m);
  }

  // ---------------------------------------------------------------- a worker that cannot move

  ghost predicate Blocked(s: State) {
    forall m: WorkerMove :: WorkerStep(s, m).None?
  }

  /** The worker has returned, or was aborted. */
  predicate Finished(s: State) {
    Exited(s) || s.w.pc.Aborted?
  }

  /** A sleeping worker for which no permit is stored. */
  predicate Asleep(s: State) {
    match s.w.pc
    case Wait(at) =>
      (at.WaitReceive? && !s.sh.shutdownPermit && !s.sh.recordsPermit) || (at.WaitFence? && !s.sh.recordsPermit)
    case Fail(_, at) =>
      (at.TermShutdown? && !s.sh.shutdownPermit) || (at.TermWait? && !s.sh.recordsPermit)
    case _ => false
  }

  /** A move the worker can make in any state in which it can move at all. */
  function SomeMove(s: State): WorkerMove {
    match s.w.pc
    case Wait(at) =>
      if at.WaitReceive? then (if s.sh.shutdownPermit then OnShutdown else OnRecords)
      else if at.WaitBatch? then (if s.sh.shutdownPermit then OnShutdown else OnTimer)
      else OnRecords
    case Transmit(_, at) => if at.Send? then Answer(Accepted(0)) else Proceed
    case _ => Proceed
  }

  lemma AwakeMoves(s: State)
    requires RegistrySound(s) && !Finished(s) && !Asleep(s)
    ensures WorkerStep(s, SomeMove(s)).Some?
  {
    match s.w.pc
    case Refresh(site, at) =>
      if at.Taking? && at.todo != [] {
        assert (at.visited + at.todo)[|at.visited|] == at.todo[0];
      }
    case Input(_) =>
    case Assemble(_) =>
    case Wait(_) =>
    case Transmit(_, _) =>
    case Settle(_, _, _) =>
    case Fail(_, _) =>
    case Aborted(_) =>
  }

  /** The worker cannot move exactly when it is finished or asleep. */
  lemma BlockedIffFinishedOrAsleep(s: State)
    requires RegistrySound(s)
    ensures Blocked(s) <==> Finished(s) || Asleep(s)
  {
    if !Finished(s) && !Asleep(s) {
      AwakeMoves(s);
    } else {
      forall m: WorkerMove
        ensures WorkerStep(s, m).None?
      {
        match s.w.pc
        case Wait(_) =>
        case Fail(_, _) =>
        case Aborted(_) =>
      }
    }
  }

  /** After `stop_acceptance` and the fence's signal the worker is never asleep. */
  lemma StoppedStaysAwake(s: State)
    requires StopKept(s) && FenceSignalKept(s) && Delivered(s) && s.sh.fence.Signalled?
    ensures !Asleep(s)
  {
  }
}
