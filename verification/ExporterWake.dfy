/**
The wake-up protocol: only a push onto an empty lane notifies the worker, notifications
coalesce into one permit, and still no record is left behind by a sleeping worker.
*/
module ExporterWake {
  import opened Records
  import opened Wrappers
  import opened Drain
  import opened Exporter
  import opened ExporterShape

  /** The worker is on its way to swapping out lane `l`, without waiting first. */
  predicate WillTake(w: Worker, l: nat) {
    match w.pc
    case Refresh(_, at) => at.Taking? ==> l in at.todo
    case Input(at) => at.Top? || (at.Poll? && w.reserved == [] && w.normal == [])
    case _ => false
  }

  predicate GivenUp(pc: WorkerPc) {
    pc.Fail? || pc.Aborted?
  }

  ghost predicate SomeoneNotifying(s: State) {
    exists t :: 0 <= t < |s.producers| && s.producers[t].pc.Notifying?
  }

  ghost predicate Attended(s: State, l: nat) {
    s.sh.recordsPermit || SomeoneNotifying(s) || WillTake(s.w, l)
  }

  /** Every non-empty lane has a stored permit, a producer about to store one, or the
      worker coming; until the worker gives up on a terminal failure. */
  ghost predicate WakeupsHold(s: State) {
    GivenUp(s.w.pc) || forall l :: 0 <= l < |s.lanes| && !s.lanes[l].queues.IsEmpty() ==> Attended(s, l)
  }

  /** A worker that waits for the fence has not missed its signal. */
  ghost predicate FenceSignalKept(s: State) {
    s.sh.fence.Signalled? && (s.w.pc == Wait(WaitFence) || (s.w.pc.Fail? && s.w.pc.fail.TermWait?)) ==>
      s.sh.recordsPermit
  }

  lemma InitWake(cfg: Config)
    ensures WakeupsHold(Init(cfg)) && FenceSignalKept(Init(cfg)) && StopAnnounced(Init(cfg))
        && FailureIsTerminal(Init(cfg))
  {
  }

  // ---------------------------------------------------------------- producers

  lemma StillNotifying(s: State, s': State, t: nat)
    requires t < |s.producers| && |s'.producers| == |s.producers| && !s.producers[t].pc.Notifying?
    requires forall i :: 0 <= i < |s.producers| && i != t ==> s'.producers[i] == s.producers[i]
    ensures SomeoneNotifying(s) ==> SomeoneNotifying(s')
  {
    if SomeoneNotifying(s) {
      var i :| 0 <= i < |s.producers| && s.producers[i].pc.Notifying?;
      assert s'.producers[i].pc.Notifying?;
    }
  }

  lemma ProducerKeepsWake(s: State, t: nat, m: ProducerMove)
    requires WakeupsHold(s) && FenceSignalKept(s) && ProducerStep(s, t, m).Some?
    ensures WakeupsHold(ProducerStep(s, t, m).value) && FenceSignalKept(ProducerStep(s, t, m).value)
  {
    var s' := ProducerStep(s, t, m).value;
    ProducerTouches(s, t, m);
    if !s.producers[t].pc.Notifying? {
      StillNotifying(s, s', t);
    }
    if s.producers[t].pc.Pushing? {
      PushIsAttended(s, t, s.producers[t].pc.log);
    }
  }

  /** What a thread's step leaves alone; apart from a push, no lane gains a record. */
  lemma ProducerTouches(s: State, t: nat, m: ProducerMove)
    requires ProducerStep(s, t, m).Some?
    ensures
      var s' := ProducerStep(s, t, m).value;
      && s'.w == s.w && |s'.producers| == |s.producers|
      && (forall i :: 0 <= i < |s.producers| && i != t ==> s'.producers[i] == s.producers[i])
      && (s.sh.recordsPermit || s.producers[t].pc.Notifying? ==> s'.sh.recordsPermit)
      && (s.sh.fence.Signalled? == s'.sh.fence.Signalled?)
      && (!s.producers[t].pc.Pushing? ==> forall l :: 0 <= l < |s'.lanes| && !s'.lanes[l].queues.IsEmpty() ==>
            l < |s.lanes| && s'.lanes[l].queues == s.lanes[l].queues)
  {
    match s.producers[t].pc
    case Outside =>
    case Loaded =>
    case Resolving(_) =>
    case ClaimBytes(_, _) =>
    case UndoBytes(_, _) =>
    case ClaimRecord(_, _) =>
    case UndoRecord(_, _) =>
    case ReturnBytes(_, _) =>
    case Ticketing(_, _) =>
    case Pushing(_) =>
    case Notifying =>
    case Leaving =>
    case Closing =>
    case Gone =>
  }

  lemma PushIsAttended(s: State, t: nat, log: QueuedLog)
    requires WakeupsHold(s) && t < |s.producers| && s.producers[t].pc == Pushing(log) && Push(s, t, log).Some?
    ensures WakeupsHold(Push(s, t, log).value)
  {
    var s' := Push(s, t, log).value;
    var pushed := s.producers[t].lane.value;
    StillNotifying(s, s', t);
    if s.lanes[pushed].queues.IsEmpty() {
      assert s'.producers[t].pc.Notifying?;
      assert SomeoneNotifying(s');
    }
  }

  // ---------------------------------------------------------------- worker

  /** A step in which the worker neither takes a permit nor stops coming for a lane. */
  ghost predicate StaysAttentive(s: State, s': State) {
    && s'.lanes == s.lanes && s'.producers == s.producers
    && (s.sh.recordsPermit ==> s'.sh.recordsPermit)
    && (forall l :: WillTake(s.w, l) ==> WillTake(s'.w, l))
  }

  lemma InputKeepsWake(s: State, at: InputPc)
    requires WakeupsHold(s) && s.w.pc == Input(at)
    ensures WakeupsHold(InputStep(s, at)) && FenceSignalKept(InputStep(s, at))
  {
    InputFrame(s, at);
    InputIsAttentive(s, at);
  }

  lemma InputIsAttentive(s: State, at: InputPc)
    requires s.w.pc == Input(at)
    ensures StaysAttentive(s, InputStep(s, at)) && !GivenUp(InputStep(s, at).w.pc)
    ensures InputStep(s, at).w.pc != Wait(WaitFence)
  {
    match at
    case Top =>
    case Choose =>
    case Poll(_) =>
    case Pop(AtTop) =>
    case Pop(InReceive) =>
    case Pop(InDrain) =>
    case Pop(InLastPoll) =>
    case Pop(InBatch(_)) =>
    case Pop(InBatchWoken(_)) =>
    case ReleaseRecord(_, _) =>
    case ReleaseBytes(InLastPoll, _) =>
    case ReleaseBytes(InBatch(_), _) =>
    case ReleaseBytes(InBatchWoken(_), _) =>
    case ReleaseBytes(_, _) =>
  }

  lemma RefreshKeepsWake(s: State, site: Site, at: RefreshPc)
    requires WakeupsHold(s) && RegistrySound(s) && s.w.pc == Refresh(site, at) && RefreshStep(s, site, at).Some?
    ensures WakeupsHold(RefreshStep(s, site, at).value) && FenceSignalKept(RefreshStep(s, site, at).value)
  {
    match at
    case Retiring(i) => RotatedIsDistinct(s.registry, s.cursor, |s.lanes|);
    case RetireCheck(_) =>
    case Taking(todo, _, _) =>
      if todo != [] {
        assert todo == [todo[0]] + todo[1..];
      }
  }

  /** Every blocking point is entered with an empty inbox, so a consumed permit leads to a full refresh. */
  lemma WaitKeepsWake(s: State, at: WaitPc, m: WorkerMove)
    requires WakeupsHold(s) && FenceSignalKept(s) && WorkerShape(s.w)
    requires s.w.pc == Wait(at) && WaitStep(s, at, m).Some?
    ensures WakeupsHold(WaitStep(s, at, m).value) && FenceSignalKept(WaitStep(s, at, m).value)
  {
    match at
    case WaitReceive =>
    case WaitBatch(_) =>
    case WaitFence =>
    case CheckFence =>
    case StopStatus =>
    case StopNotify =>
    case Drained =>
  }

  lemma BatchKeepsWake(s: State, at: BatchPc)
    requires WakeupsHold(s) && s.w.pc == Assemble(at)
    ensures WakeupsHold(BatchStep(s, at)) && FenceSignalKept(BatchStep(s, at))
  {
    match at
    case First(_) =>
    case Fill(_) =>
    case Next(_, _) =>
    case Export(_) =>
  }

  lemma TransmitKeepsWake(s: State, stack: seq<seq<QueuedLog>>, at: TransmitPc, m: WorkerMove)
    requires WakeupsHold(s) && s.w.pc == Transmit(stack, at) && TransmitStep(s, stack, at, m).Some?
    ensures WakeupsHold(TransmitStep(s, stack, at, m).value) && FenceSignalKept(TransmitStep(s, stack, at, m).value)
  {
    match at
    case NextSegment =>
    case Send(records) => { match m.outcome case Accepted(_) => case InvalidPayload => case Retryable =>
        case Permanent => }
    case Backoff(_) =>
  }

  lemma SettleKeepsWake(s: State, logs: seq<QueuedLog>, resume: Resume, at: SettlePc)
    requires WakeupsHold(s) && s.w.pc == Settle(logs, resume, at)
    ensures WakeupsHold(SettleStep(s, logs, resume, at)) && FenceSignalKept(SettleStep(s, logs, resume, at))
  {
    match at
    case Complete => { match resume case ToTop => case ToFill(_) => case ToNextSegment(_) => }
    case Publish =>
    case Progress =>
  }

  lemma FailKeepsWake(s: State, stack: seq<seq<QueuedLog>>, at: FailPc)
    requires FenceSignalKept(s) && s.w.pc == Fail(stack, at) && FailStep(s, stack, at).Some?
    ensures WakeupsHold(FailStep(s, stack, at).value) && FenceSignalKept(FailStep(s, stack, at).value)
  {
    match at
    case Terminal =>
    case TermShutdown =>
    case TermFence =>
    case TermWait =>
    case TermClear =>
    case TermStatus(_) =>
    case TermNotify(_) =>
    case Discarded(_) =>
  }

  lemma WorkerKeepsWake(s: State, m: WorkerMove)
    requires WakeupsHold(s) && FenceSignalKept(s) && RegistrySound(s) && WorkerShape(s.w) && WorkerStep(s, m).Some?
    ensures WakeupsHold(WorkerStep(s, m).value) && FenceSignalKept(WorkerStep(s, m).value)
  {
    match s.w.pc
    case Refresh(site, at) => RefreshKeepsWake(s, site, at);
    case Input(at) => InputKeepsWake(s, at);
    case Assemble(at) => BatchKeepsWake(s, at);
    case Wait(at) => WaitKeepsWake(s, at, m);
    case Transmit(stack, at) => TransmitKeepsWake(s, stack, at, m);
    case Settle(logs, resume, at) => SettleKeepsWake(s, logs, resume, at);
    case Fail(stack, at) => FailKeepsWake(s, stack, at);
  }

  // ---------------------------------------------------------------- the other actors

  lemma HandleKeepsWake(s: State, m: HandleMove)
    requires WakeupsHold(s) && FenceSignalKept(s) && HandleStep(s, m).Some?
    ensures WakeupsHold(HandleStep(s, m).value) && FenceSignalKept(HandleStep(s, m).value)
  {
    match m
    case StopAcceptance => StopFrame(s);
    case ClearSlot =>
    case ReleaseHandle =>
    case FenceStore =>
    case FenceNotify =>
    case Abort =>
    case ResetStep =>
  }

  lemma FlusherKeepsWake(s: State, f: nat, m: FlushMove)
    requires WakeupsHold(s) && FenceSignalKept(s) && FlushStep(s, f, m).Some?
    ensures WakeupsHold(FlushStep(s, f, m).value) && FenceSignalKept(FlushStep(s, f, m).value)
  {
    match s.flushers[f]
    case FlushIdle =>
    case FlushWake(_) =>
    case FlushEnable(_) =>
    case FlushLoad(_, _) =>
    case FlushLoadStatus(_, _, _) =>
    case FlushWait(_, _) =>
    case FlushDone(_, _, _) =>
  }

  lemma StepKeepsWake(s: State, a: Action)
    requires Shape(s) && WakeupsHold(s) && FenceSignalKept(s) && Step(s, a).Some?
    ensures WakeupsHold(Step(s, a).value) && FenceSignalKept(Step(s, a).value)
  {
    match a
    case ByProducer(t, m) => ProducerKeepsWake(s, t, m);
    case ByWorker(m) => WorkerKeepsWake(s, m);
    case ByFlusher(f, m) => FlusherKeepsWake(s, f, m);
    case ByHandle(m) => HandleKeepsWake(s, m);
  }

  // ---------------------------------------------------------------- flush callers and `Stopped`

  /** The worker has stored `Stopped`, or the handle is about to, and the waiters are woken next. */
  predicate AboutToAnnounce(pc: WorkerPc) {
    (pc.Wait? && pc.wait.StopNotify?) || (pc.Fail? && pc.fail.TermNotify?) || Resetting(pc)
  }

  /** No flush caller sleeps through `Stopped`. Nothing of the kind holds for `TerminalFailure`. */
  ghost predicate StopAnnounced(s: State) {
    s.sh.status.Stopped? && !AboutToAnnounce(s.w.pc) ==>
      forall i :: 0 <= i < |s.flushers| && s.flushers[i].FlushWait? ==> s.flushers[i].notified
  }

  /** Only the two exits store `Stopped`. */
  ghost predicate StopsOnlyToAnnounce(s: State, s': State) {
    && (s'.sh.status.Stopped? ==> s.sh.status.Stopped? || AboutToAnnounce(s'.w.pc))
    && (s'.flushers == s.flushers || s'.flushers == WakeFlushers(s.flushers))
    && (AboutToAnnounce(s.w.pc) ==> s'.flushers == WakeFlushers(s.flushers))
  }

  lemma WorkerAnnounces(s: State, m: WorkerMove)
    requires WorkerStep(s, m).Some?
    ensures StopsOnlyToAnnounce(s, WorkerStep(s, m).value)
  {
    match s.w.pc
    case Refresh(site, at) => { match at case Retiring(_) => case RetireCheck(_) => case Taking(_, _, _) => }
    case Input(at) => InputAnnouncesNothing(s, at);
    case Assemble(at) => { match at case First(_) => case Fill(_) => case Next(_, _) => case Export(_) => }
    case Wait(at) => WaitAnnounces(s, at, m);
    case Transmit(stack, at) => TransmitAnnouncesNothing(s, stack, at, m);
    case Settle(logs, resume, at) => { match at case Complete => case Publish => case Progress => }
    case Fail(stack, at) => FailAnnounces(s, stack, at);
  }

  lemma InputAnnouncesNothing(s: State, at: InputPc)
    ensures InputStep(s, at).sh.status == s.sh.status && InputStep(s, at).flushers == s.flushers
  {
    match at
    case Top =>
    case Choose =>
    case Poll(_) =>
    case Pop(_) =>
    case ReleaseRecord(_, _) =>
    case ReleaseBytes(InLastPoll, _) =>
    case ReleaseBytes(InBatch(_), _) =>
    case ReleaseBytes(InBatchWoken(_), _) =>
    case ReleaseBytes(_, _) =>
  }

  lemma WaitAnnounces(s: State, at: WaitPc, m: WorkerMove)
    requires s.w.pc == Wait(at) && WaitStep(s, at, m).Some?
    ensures StopsOnlyToAnnounce(s, WaitStep(s, at, m).value)
  {
    match at
    case WaitReceive =>
    case WaitBatch(_) =>
    case WaitFence =>
    case CheckFence =>
    case StopStatus =>
    case StopNotify =>
    case Drained =>
  }

  lemma TransmitAnnouncesNothing(s: State, stack: seq<seq<QueuedLog>>, at: TransmitPc, m: WorkerMove)
    requires s.w.pc == Transmit(stack, at) && TransmitStep(s, stack, at, m).Some?
    ensures StopsOnlyToAnnounce(s, TransmitStep(s, stack, at, m).value)
  {
    match at
    case NextSegment =>
    case Send(records) => { match m.outcome case Accepted(_) => case InvalidPayload => case Retryable =>
        case Permanent => }
    case Backoff(_) =>
  }

  lemma FailAnnounces(s: State, stack: seq<seq<QueuedLog>>, at: FailPc)
    requires s.w.pc == Fail(stack, at) && FailStep(s, stack, at).Some?
    ensures StopsOnlyToAnnounce(s, FailStep(s, stack, at).value)
  {
    match at
    case Terminal =>
    case TermShutdown =>
    case TermFence =>
    case TermWait =>
    case TermClear =>
    case TermStatus(_) =>
    case TermNotify(_) =>
    case Discarded(_) =>
  }

  lemma ProducerAnnouncesNothing(s: State, t: nat, m: ProducerMove)
    requires ProducerStep(s, t, m).Some?
    ensures var s' := ProducerStep(s, t, m).value;
      s'.sh.status == s.sh.status && s'.flushers == s.flushers && s'.w == s.w
  {
    match s.producers[t].pc
    case Outside =>
    case Loaded =>
    case Resolving(_) =>
    case ClaimBytes(_, _) =>
    case UndoBytes(_, _) =>
    case ClaimRecord(_, _) =>
    case UndoRecord(_, _) =>
    case ReturnBytes(_, _) =>
    case Ticketing(_, _) =>
    case Pushing(_) =>
    case Notifying =>
    case Leaving =>
    case Closing =>
    case Gone =>
  }

  lemma HandleKeepsAnnounced(s: State, m: HandleMove)
    requires StopAnnounced(s) && HandleStep(s, m).Some?
    ensures StopAnnounced(HandleStep(s, m).value)
  {
    match m
    case StopAcceptance => StopNeverStops(s.sh);
    case ClearSlot =>
    case ReleaseHandle =>
    case FenceStore =>
    case FenceNotify =>
    case Abort =>
    case ResetStep =>
  }

  lemma StopNeverStops(sh: Shared)
    ensures StopShared(sh).status.Stopped? ==> sh.status.Stopped?
  {
    match sh.stop
    case NotStopping =>
    case StopLoadStatus =>
    case StopStoreStatus =>
    case StopShutdown =>
    case StopRecords =>
    case StopFlush =>
  }

  lemma FlusherKeepsAnnounced(s: State, f: nat, m: FlushMove)
    requires StopAnnounced(s) && FlushStep(s, f, m).Some?
    ensures StopAnnounced(FlushStep(s, f, m).value)
  {
    match s.flushers[f]
    case FlushIdle =>
    case FlushWake(_) =>
    case FlushEnable(_) =>
    case FlushLoad(_, _) =>
    case FlushLoadStatus(_, _, _) =>
    case FlushWait(_, _) =>
    case FlushDone(_, _, _) =>
  }

  lemma StepKeepsAnnounced(s: State, a: Action)
    requires StopAnnounced(s) && Step(s, a).Some?
    ensures StopAnnounced(Step(s, a).value)
  {
    match a
    case ByProducer(t, m) => ProducerAnnouncesNothing(s, t, m);
    case ByWorker(m) => WorkerAnnounces(s, m);
    case ByFlusher(f, m) => FlusherKeepsAnnounced(s, f, m);
    case ByHandle(m) => HandleKeepsAnnounced(s, m);
  }

  // ---------------------------------------------------------------- flush callers and `TerminalFailure`

  /** The terminal branch, or the handle after aborting the worker, before it stores `Stopped`. */
  predicate FailedNotStopped(pc: WorkerPc) {
    (pc.Fail? && !pc.fail.TermNotify? && !pc.fail.Discarded?) || (Resetting(pc) && !pc.reset.WakeCallers?)
  }

  /** The status says `TerminalFailure` only until one of them does. */
  ghost predicate FailureIsTerminal(s: State) {
    s.sh.status.TerminalFailure? ==> FailedNotStopped(s.w.pc)
  }

  lemma WorkerKeepsFailure(s: State, m: WorkerMove)
    requires FailureIsTerminal(s) && WorkerStep(s, m).Some?
    ensures FailureIsTerminal(WorkerStep(s, m).value)
  {
    match s.w.pc
    case Refresh(site, at) => { match at case Retiring(_) => case RetireCheck(_) => case Taking(_, _, _) => }
    case Input(at) => InputAnnouncesNothing(s, at);
    case Assemble(at) => { match at case First(_) => case Fill(_) => case Next(_, _) => case Export(_) => }
    case Wait(at) => WaitKeepsFailure(s, at, m);
    case Transmit(stack, at) => TransmitKeepsFailure(s, stack, at, m);
    case Settle(logs, resume, at) => { match at case Complete => case Publish => case Progress => }
    case Fail(stack, at) => FailKeepsFailure(s, stack, at);
  }

  lemma WaitKeepsFailure(s: State, at: WaitPc, m: WorkerMove)
    requires FailureIsTerminal(s) && s.w.pc == Wait(at) && WaitStep(s, at, m).Some?
    ensures FailureIsTerminal(WaitStep(s, at, m).value)
  {
    match at
    case WaitReceive =>
    case WaitBatch(_) =>
    case WaitFence =>
    case CheckFence =>
    case StopStatus =>
    case StopNotify =>
    case Drained =>
  }

  lemma TransmitKeepsFailure(s: State, stack: seq<seq<QueuedLog>>, at: TransmitPc, m: WorkerMove)
    requires FailureIsTerminal(s) && s.w.pc == Transmit(stack, at) && TransmitStep(s, stack, at, m).Some?
    ensures FailureIsTerminal(TransmitStep(s, stack, at, m).value)
  {
    match at
    case NextSegment =>
    case Send(records) => { match m.outcome case Accepted(_) => case InvalidPayload => case Retryable =>
        case Permanent => }
    case Backoff(_) =>
  }

  lemma FailKeepsFailure(s: State, stack: seq<seq<QueuedLog>>, at: FailPc)
    requires FailureIsTerminal(s) && s.w.pc == Fail(stack, at) && FailStep(s, stack, at).Some?
    ensures FailureIsTerminal(FailStep(s, stack, at).value)
  {
    match at
    case Terminal =>
    case TermShutdown =>
    case TermFence =>
    case TermWait =>
    case TermClear =>
    case TermStatus(_) =>
    case TermNotify(_) =>
    case Discarded(_) =>
  }

  lemma HandleKeepsFailure(s: State, m: HandleMove)
    requires FailureIsTerminal(s) && HandleStep(s, m).Some?
    ensures FailureIsTerminal(HandleStep(s, m).value)
  {
    match m
    case StopAcceptance => { match s.sh.stop case NotStopping => case StopLoadStatus =>
        case StopStoreStatus => case StopShutdown =>
                                            case StopRecords => case StopFlush => }
    case ClearSlot =>
    case ReleaseHandle =>
    case FenceStore =>
    case FenceNotify =>
    case Abort =>
    case ResetStep =>
  }

  lemma FlusherKeepsFailure(s: State, f: nat, m: FlushMove)
    requires FailureIsTerminal(s) && FlushStep(s, f, m).Some?
    ensures FailureIsTerminal(FlushStep(s, f, m).value)
  {
    match s.flushers[f]
    case FlushIdle =>
    case FlushWake(_) =>
    case FlushEnable(_) =>
    case FlushLoad(_, _) =>
    case FlushLoadStatus(_, _, _) =>
    case FlushWait(_, _) =>
    case FlushDone(_, _, _) =>
  }

  lemma StepKeepsFailure(s: State, a: Action)
    requires FailureIsTerminal(s) && Step(s, a).Some?
    ensures FailureIsTerminal(Step(s, a).value)
  {
    match a
    case ByProducer(t, m) => ProducerAnnouncesNothing(s, t, m);
    case ByWorker(m) => WorkerKeepsFailure(s, m);
    case ByFlusher(f, m) => FlusherKeepsFailure(s, f, m);
    case ByHandle(m) => HandleKeepsFailure(s, m);
  }
}
