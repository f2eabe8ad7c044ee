/**
The worker's choices, step by step: which record comes next, which lane is visited and which is
dropped, when a batch is closed, when the worker waits, what it consumes to go on, and which
status it shows.
*/
module ExporterChoices {
  import opened Records
  import opened Wrappers
  import opened Drain
  import opened Exporter
  import opened ExporterShape

  /** A fresh generation: records are accepted, nothing is queued, claimed, counted or promised, every
      thread is outside, and the worker stands at its loop head with no permit stored. */
  lemma FreshGeneration(cfg: Config)
    ensures var s := Init(cfg);
      && s.sh.accepting && s.sh.slot && s.sh.handle && s.sh.fence == Alive && s.sh.status == Running
      && s.sh.nextTicket == 0 && s.sh.completedTicket == 0 && s.sh.exported == 0 && s.sh.rejected == 0
      && (forall b: Budget :: s.sh.used.Get(b) == 0) && s.lanes == [] && s.registry == []
      && !s.sh.shutdownPermit && !s.sh.recordsPermit && !s.sh.flushPermit && s.sh.stop == NotStopping
      && s.w.pc == Input(Top) && !s.w.shuttingDown && s.w.reserved == [] && s.w.normal == [] && s.w.pending == []
      && |s.producers| == cfg.threads && |s.flushers| == cfg.flushers
      && (forall t :: 0 <= t < cfg.threads ==> s.producers[t] == Producer(None, Outside))
      && (forall f :: 0 <= f < cfg.flushers ==> s.flushers[f] == FlushIdle)
  {
  }

  // ---------------------------------------------------------------- which record

  /** The worker takes reserved records before normal ones, and of each kind the oldest. */
  lemma ReservedFirst(s: State, m: WorkerMove)
    requires s.w.pc.Input? && s.w.pc.input.Pop? && !(s.w.reserved == [] && s.w.normal == [])
    ensures Step(s, ByWorker(m)).Some?
    ensures var s' := Step(s, ByWorker(m)).value; var taken := s'.w.pc.input.log;
      && s'.w.pc == Input(ReleaseRecord(s.w.pc.input.site, taken))
      && (s.w.reserved != [] ==> [taken] + s'.w.reserved == s.w.reserved && s'.w.normal == s.w.normal)
      && (s.w.reserved == [] ==> [taken] + s'.w.normal == s.w.normal && s'.w.reserved == [])
  {
    match s.w.pc case Input(Pop(_)) =>
  }

  /** What the worker is about to take up when it starts a batch. */
  predicate LooksIntoLanes(pc: WorkerPc) {
    pc.Refresh? && pc.refresh == Retiring(0)
  }

  /** The lanes are looked into at every batch boundary, so that priority records can overtake a
      backlog, and otherwise exactly when the inbox is used up. */
  lemma RefreshIff(s: State, m: WorkerMove)
    requires s.w.pc.Input? && (s.w.pc.input.Top? || s.w.pc.input.Poll?)
    ensures Step(s, ByWorker(m)).Some?
    ensures LooksIntoLanes(Step(s, ByWorker(m)).value.w.pc) <==>
      s.w.pc.input.Top? || (s.w.reserved == [] && s.w.normal == [])
    ensures !LooksIntoLanes(Step(s, ByWorker(m)).value.w.pc) ==>
      Step(s, ByWorker(m)).value.w.pc == Input(Pop(s.w.pc.input.site))
  {
    match s.w.pc case Input(at) => { match at case Top => case Poll(_) => }
  }

  /** A parked record starts the next batch; only without one does the worker receive. */
  lemma ParkedFirst(s: State, m: WorkerMove)
    requires s.w.pc == Input(Choose)
    ensures Step(s, ByWorker(m)).Some?
    ensures var s' := Step(s, ByWorker(m)).value;
      if s.w.pending != [] then s'.w.pc.Assemble? && s'.w.pc.assemble == First(s.w.pending[0])
      else s'.w.pc == Input(Poll(if s.w.shuttingDown then InDrain else InReceive))
  {
    match s.w.pc case Input(Choose) =>
  }

  /** What is received continues the batch under assembly, starts one, or, after a drain that found
      nothing, is parked for the next round. */
  lemma ReceivedGoesOn(s: State, m: WorkerMove)
    requires s.w.pc.Input? && s.w.pc.input.ReleaseBytes?
    ensures Step(s, ByWorker(m)).Some?
    ensures var at, s' := s.w.pc.input, Step(s, ByWorker(m)).value;
      match at.site
      case InBatch(batch) => s'.w.pc == Assemble(Next(batch, at.log))
      case InBatchWoken(batch) => s'.w.pc == Assemble(Next(batch, at.log))
      case InLastPoll => s'.w.pc == Input(Top) && s'.w.pending == s.w.pending + [at.log]
      case _ => s'.w.pc == Assemble(First(at.log))
  {
    match s.w.pc case Input(ReleaseBytes(site, _)) => { match site case AtTop => case InReceive => case InDrain =>
      case InLastPoll => case InBatch(_) => case InBatchWoken(_) => }
  }

  // ---------------------------------------------------------------- which lane

  /** A lane leaves the registry exactly if it was read as closed and then found empty. The others
      stay, in their order. */
  lemma RetiredIff(s: State, m: WorkerMove)
    requires RegistrySound(s) && s.w.pc.Refresh? && (s.w.pc.refresh.Retiring? || s.w.pc.refresh.RetireCheck?)
    requires s.w.pc.refresh.i < |s.registry|
    ensures Step(s, ByWorker(m)).Some?
    ensures var i, s' := s.w.pc.refresh.i, Step(s, ByWorker(m)).value; var lane := s.lanes[s.registry[i]];
      && s'.registry == (if s.w.pc.refresh.RetireCheck? && lane.queues.normal == [] && lane.queues.reserved == []
                         then s.registry[..i] + s.registry[i + 1..] else s.registry)
      && (s.w.pc.refresh.Retiring? ==>
            s'.w.pc.refresh == if lane.closed then RetireCheck(i) else Retiring(i + 1))
      && (s.w.pc.refresh.RetireCheck? ==>
            s'.w.pc.refresh == if s'.registry == s.registry then Retiring(i + 1) else Retiring(i))
  {
    match s.w.pc case Refresh(_, at) => { match at case Retiring(_) => case RetireCheck(_) => }
    if s.w.pc.refresh.RetireCheck? {
      assert |s.registry[..s.w.pc.refresh.i] + s.registry[s.w.pc.refresh.i + 1..]| == |s.registry| - 1;
    }
  }

  /** Every registered lane is visited, starting from the cursor and going around; the cursor moves
      on by one. */
  lemma VisitsFromCursor(s: State, m: WorkerMove, k: nat)
    requires s.w.pc.Refresh? && s.w.pc.refresh.Retiring? && s.w.pc.refresh.i >= |s.registry|
    ensures Step(s, ByWorker(m)).Some?
    ensures var s' := Step(s, ByWorker(m)).value; var n := |s.registry|;
      && s'.w.pc.Refresh? && s'.w.pc.refresh.Taking? && s'.w.pc.refresh.taken == []
      && |s'.w.pc.refresh.todo| == n
      && (k < n ==> s'.w.pc.refresh.todo[k] == s.registry[(s.cursor % n + k) % n])
      && s'.cursor == if n == 0 then 0 else (s.cursor % n + 1) % n
  {
    match s.w.pc case Refresh(_, Retiring(_)) =>
    if k < |s.registry| {
      RotatedAt(s.registry, s.cursor, k);
    }
  }

  /** A visited lane is swapped out whole; in the end what was taken is interleaved behind what the
      inbox still holds, each kind for itself. */
  lemma TakesWholeLanes(s: State, m: WorkerMove)
    requires RegistrySound(s) && s.w.pc.Refresh? && s.w.pc.refresh.Taking?
    ensures Step(s, ByWorker(m)).Some?
    ensures var at, s' := s.w.pc.refresh, Step(s, ByWorker(m)).value;
      if at.todo == [] then
        && s'.lanes == s.lanes
        && s'.w.reserved == s.w.reserved + Interleave(KindQueues(at.taken, Reserved))
        && s'.w.normal == s.w.normal + Interleave(KindQueues(at.taken, Normal))
      else
        && s'.lanes[at.todo[0]].queues == EMPTY_QUEUES
        && s'.w.pc.refresh.taken == at.taken + [s.lanes[at.todo[0]].queues]
        && s'.w.reserved == s.w.reserved && s'.w.normal == s.w.normal
  {
    match s.w.pc
    case Refresh(_, Taking(todo, visited, _)) =>
      if todo != [] {
        assert (visited + todo)[|visited|] == todo[0];
      }
  }

  // ---------------------------------------------------------------- when a batch is closed

  /** Why a batch is exported as it is: it is full; the next record does not fit beside it; the
      worker is shutting down and has found nothing more; it was woken for records in vain; its
      time is up; a flush caller or the handle asked for it. */
  predicate MayClose(s: State, m: WorkerMove) {
    match s.w.pc
    case Assemble(Fill(batch)) => |batch| >= s.cfg.maxBatchRecords
    case Assemble(Next(batch, log)) => s.cfg.Fits([log]) && !s.cfg.Fits(batch + [log])
    case Input(Pop(site)) =>
      s.w.reserved == [] && s.w.normal == [] && (site.InBatchWoken? || (site.InBatch? && s.w.shuttingDown))
    case Wait(WaitBatch(_)) =>
      (m.OnShutdown? && s.sh.shutdownPermit) || m.OnTimer? || (m.OnFlush? && s.sh.flushPermit)
    case _ => false
  }

  /** The batch under assembly, wherever the worker is with it. */
  function BatchAt(pc: WorkerPc): seq<QueuedLog> {
    match pc
    case Assemble(at) => if at.First? then [] else at.batch
    case Wait(at) => if at.WaitBatch? then at.batch else []
    case Input(Poll(InBatch(batch))) => batch
    case Input(Poll(InBatchWoken(batch))) => batch
    case Input(Pop(InBatch(batch))) => batch
    case Input(Pop(InBatchWoken(batch))) => batch
    case _ => []
  }

  predicate Closes(pc: WorkerPc, pc': WorkerPc) {
    pc'.Assemble? && pc'.assemble.Export? && !(pc.Assemble? && pc.assemble.Export?)
  }

  /** A batch is closed exactly for one of these reasons, and nothing is lost from it then. */
  lemma ClosedIff(s: State, m: WorkerMove)
    requires Step(s, ByWorker(m)).Some?
    ensures var s' := Step(s, ByWorker(m)).value;
      && (Closes(s.w.pc, s'.w.pc) <==> MayClose(s, m))
      && (Closes(s.w.pc, s'.w.pc) ==> s'.w.pc.assemble.batch == BatchAt(s.w.pc))
  {
    match s.w.pc
    case Refresh(_, at) => { match at case Retiring(_) => case RetireCheck(_) => case Taking(_, _, _) => }
    case Input(at) => InputCloses(s, at);
    case Assemble(at) => { match at case First(_) => case Fill(_) => case Next(_, _) => case Export(_) => }
    case Wait(at) => WaitCloses(s, at, m);
    case Transmit(_, at) => { match at case NextSegment => case Send(_) => case Backoff(_) => }
    case Settle(_, resume, at) => SettleCloses(s, resume, at);
    case Fail(_, at) => { match at case Terminal => case TermShutdown => case TermFence => case TermWait =>
                          case TermClear => case TermStatus(_) => case TermNotify(_) => }
  }

  lemma InputCloses(s: State, at: InputPc)
    requires s.w.pc == Input(at)
    ensures Closes(s.w.pc, InputStep(s, at).w.pc) <==> MayClose(s, Proceed)
    ensures Closes(s.w.pc, InputStep(s, at).w.pc) ==> InputStep(s, at).w.pc.assemble.batch == BatchAt(s.w.pc)
    ensures at.Pop? ==> forall m :: MayClose(s, m) == MayClose(s, Proceed)
    ensures !at.Pop? ==> forall m :: !MayClose(s, m)
  {
    match at
    case Top =>
    case Choose =>
    case Poll(_) =>
    case Pop(AtTop) =>
    case Pop(InReceive) =>
    case Pop(InDrain) =>
    case Pop(InLastPoll) =>
    case Pop(InBatch(_)) =>
    case Pop(InBatchWoken(_)) =>
    case ReleaseRecord(_, _) =>
    case ReleaseBytes(InLastPoll, _) =>
    case ReleaseBytes(InBatch(_), _) =>
    case ReleaseBytes(InBatchWoken(_), _) =>
    case ReleaseBytes(_, _) =>
  }

  lemma WaitCloses(s: State, at: WaitPc, m: WorkerMove)
    requires s.w.pc == Wait(at) && WaitStep(s, at, m).Some?
    ensures Closes(s.w.pc, WaitStep(s, at, m).value.w.pc) <==> MayClose(s, m)
    ensures Closes(s.w.pc, WaitStep(s, at, m).value.w.pc) ==>
      WaitStep(s, at, m).value.w.pc.assemble.batch == BatchAt(s.w.pc)
  {
    match at
    case WaitReceive =>
    case WaitBatch(_) =>
    case WaitFence =>
    case CheckFence =>
    case StopStatus =>
    case StopNotify =>
    case Drained =>
  }

  lemma SettleCloses(s: State, resume: Resume, at: SettlePc)
    requires s.w.pc.Settle? && s.w.pc.resume == resume && s.w.pc.settle == at
    ensures !Closes(s.w.pc, SettleStep(s, s.w.pc.logs, resume, at).w.pc)
  {
    match at
    case Complete => { match resume case ToTop => case ToFill(_) => case ToNextSegment(_) => }
    case Publish =>
    case Progress =>
  }

  /** A record joins the batch exactly if it fits a request alone and beside the batch; if it fits
      only alone it is parked in front; if it fits none it is rejected and the batch goes on. */
  lemma JoinsIff(s: State, m: WorkerMove)
    requires s.w.pc.Assemble? && s.w.pc.assemble.Next?
    ensures Step(s, ByWorker(m)).Some?
    ensures var at, s' := s.w.pc.assemble, Step(s, ByWorker(m)).value;
      && (s'.w.pc == Assemble(Fill(at.batch + [at.log])) <==>
            s.cfg.fits([at.log.size]) && s.cfg.Fits(at.batch + [at.log]))
      && (s.cfg.fits([at.log.size]) && !s.cfg.Fits(at.batch + [at.log]) ==> s'.w.pending == [at.log] + s.w.pending)
      && (!s.cfg.fits([at.log.size]) <==> s'.w.pc == Settle([at.log], ToFill(at.batch), Complete))
      && s'.sh.rejected == s.sh.rejected + (if s.cfg.fits([at.log.size]) then 0 else 1)
  {
    match s.w.pc case Assemble(Next(_, log)) => assert EncodedSizes([log]) == [log.size];
  }

  /** A batch that is not full is filled from the parked record first, then from the inbox. */
  lemma FillsFrom(s: State, m: WorkerMove)
    requires s.w.pc.Assemble? && s.w.pc.assemble.Fill? && |s.w.pc.assemble.batch| < s.cfg.maxBatchRecords
    ensures Step(s, ByWorker(m)).Some?
    ensures var batch, s' := s.w.pc.assemble.batch, Step(s, ByWorker(m)).value;
      if s.w.pending != [] then
        s'.w.pc == Assemble(Next(batch, s.w.pending[0])) && [s.w.pending[0]] + s'.w.pending == s.w.pending
      else s'.w.pc == Input(Poll(InBatch(batch)))
  {
    match s.w.pc case Assemble(Fill(_)) =>
  }

  // ---------------------------------------------------------------- waiting

  /** Where a receive that finds nothing leads: the worker waits, unless it is shutting down. */
  lemma EmptyHanded(s: State, m: WorkerMove)
    requires s.w.pc.Input? && s.w.pc.input.Pop? && s.w.reserved == [] && s.w.normal == []
    ensures Step(s, ByWorker(m)).Some?
    ensures var s' := Step(s, ByWorker(m)).value;
      && (s'.w.pc == Wait(WaitReceive) <==> s.w.pc.input.site.InReceive?)
      && (s'.w.pc.Wait? && s'.w.pc.wait.WaitBatch? <==> s.w.pc.input.site.InBatch? && !s.w.shuttingDown)
      && (s'.w.pc == Wait(CheckFence) <==> s.w.pc.input.site.InLastPoll?)
      && (s'.w.pc == Input(Poll(InLastPoll)) <==> s.w.pc.input.site.InDrain?)
  {
    match s.w.pc
    case Input(Pop(site)) =>
      { match site case AtTop => case InReceive => case InDrain => case InLastPoll => case InBatch(_) =>
                   case InBatchWoken(_) => }
  }

  /** The permit that lets a waiting worker go on. */
  predicate Used(s: State, s': State, m: WorkerMove) {
    match m
    case OnShutdown => s.sh.shutdownPermit && s'.sh == s.sh.(shutdownPermit := false)
    case OnRecords => s.sh.recordsPermit && s'.sh == s.sh.(recordsPermit := false)
    case OnFlush => s.sh.flushPermit && s'.sh == s.sh.(flushPermit := false)
    case _ => s'.sh == s.sh
  }

  /** A waiting worker goes on only by using up the permit that it was woken with, or by the timer;
      and that permit decides what it does next. */
  lemma WakesByPermit(s: State, m: WorkerMove)
    requires s.w.pc.Wait? && s.w.pc.wait.BlockedOnRecords() && Step(s, ByWorker(m)).Some?
    ensures var s' := Step(s, ByWorker(m)).value;
      && Used(s, s', m) && s'.w.shuttingDown == (s.w.shuttingDown || m.OnShutdown?)
      && (m.OnRecords? ==>
            s'.w.pc == Input(match s.w.pc.wait
                             case WaitReceive => Poll(InReceive)
                             case WaitBatch(batch) => Poll(InBatchWoken(batch))
                             case _ => Top))
      && (m.OnShutdown? && s.w.pc.wait.WaitReceive? ==> s'.w.pc == Input(Poll(InLastPoll)))
      && (!m.OnRecords? && !m.OnShutdown? ==> s.w.pc.wait.WaitBatch? && (m.OnTimer? || m.OnFlush?))
  {
    match s.w.pc case Wait(at) => { match at case WaitReceive => case WaitBatch(_) => case WaitFence => }
  }

  /** Each wait can be ended in these ways and in no other. */
  lemma WaitEndsBy(s: State, m: WorkerMove)
    requires s.w.pc.Wait? && s.w.pc.wait.BlockedOnRecords()
    ensures Step(s, ByWorker(m)).Some? <==>
      || (m.OnRecords? && s.sh.recordsPermit)
      || (m.OnShutdown? && s.sh.shutdownPermit && !s.w.pc.wait.WaitFence?)
      || (m.OnFlush? && s.sh.flushPermit && s.w.pc.wait.WaitBatch?)
      || (m.OnTimer? && s.w.pc.wait.WaitBatch?)
  {
    match s.w.pc case Wait(at) => { match at case WaitReceive => case WaitBatch(_) => case WaitFence => }
  }

  // ---------------------------------------------------------------- exits and status

  /** The fence is what the worker waits for before it leaves: it exits cleanly exactly if it reads
      it as closed, and the terminal branch discards nothing before. */
  lemma FenceDecides(s: State, m: WorkerMove)
    requires s.w.pc == Wait(CheckFence) || (s.w.pc.Fail? && s.w.pc.fail.TermFence?)
    ensures Step(s, ByWorker(m)).Some?
    ensures var s' := Step(s, ByWorker(m)).value; var closed := s.sh.fence.Closed? || s.sh.fence.Signalled?;
      s'.w.pc == if s.w.pc.Wait? then Wait(if closed then StopStatus else WaitFence)
                 else Fail(s.w.pc.retained, if closed then TermClear else TermWait)
  {
    match s.w.pc case Wait(CheckFence) => case Fail(_, TermFence) =>
  }

  /** A failed worker waits to be told to shut down, unless acceptance is stopped already. */
  lemma FailureWaits(s: State, m: WorkerMove)
    requires s.w.pc.Fail? && (s.w.pc.fail.Terminal? || s.w.pc.fail.TermShutdown? || s.w.pc.fail.TermWait?)
    ensures var at, r := s.w.pc.fail, Step(s, ByWorker(m));
      && (at.Terminal? ==> r == Some(To(s, Fail(s.w.pc.retained, if s.sh.accepting then TermShutdown else TermFence))))
      && (at.TermShutdown? ==> (r.Some? <==> s.sh.shutdownPermit))
      && (at.TermWait? ==> (r.Some? <==> s.sh.recordsPermit))
      && (!at.Terminal? && r.Some? ==>
            && r.value.w.pc == Fail(s.w.pc.retained, TermFence)
            && r.value.sh == if at.TermShutdown? then s.sh.(shutdownPermit := false) else s.sh.(recordsPermit := false))
  {
    match s.w.pc case Fail(_, at) => { match at case Terminal => case TermShutdown => case TermWait => }
  }

  /** What the terminal branch leaves: no lane registered, nothing in any of them nor in the inbox,
      every counter zero; the record parked in front of the failed batch is not touched. */
  lemma ClearDiscards(s: State, m: WorkerMove)
    requires s.w.pc.Fail? && s.w.pc.fail.TermClear?
    ensures Step(s, ByWorker(m)).Some?
    ensures var s' := Step(s, ByWorker(m)).value;
      && s'.registry == [] && s'.cursor == 0 && |s'.lanes| == |s.lanes|
      && (forall l :: 0 <= l < |s.lanes| ==> s'.lanes[l].queues == EMPTY_QUEUES)
      && s'.sh.used.normalDepth == 0 && s'.sh.used.normalBytes == 0
      && s'.sh.used.reservedDepth == 0 && s'.sh.used.reservedBytes == 0
      && s'.w.reserved == [] && s'.w.normal == [] && s'.w.pending == s.w.pending
      && s'.sh.exported == s.sh.exported && s'.sh.rejected == s.sh.rejected && s'.h.done == s.h.done
  {
    match s.w.pc case Fail(_, TermClear) =>
  }

  /** A notification reaches a caller from the moment it has registered until it returns, asleep or
      not, and no other. */
  predicate Notified(f: FlusherPc, f': FlusherPc) {
    if f.FlushLoad? || f.FlushLoadStatus? || f.FlushWait? then f' == f.(notified := true) else f' == f
  }

  /** The status that each step of the worker leaves behind. */
  function StatusAfter(s: State, m: WorkerMove): Status {
    match s.w.pc
    case Transmit(stack, NextSegment) =>
      if stack != [] then s.sh.status else if s.w.shuttingDown then ShuttingDown else Running
    case Transmit(_, Backoff(_)) => if s.sh.accepting then Running else ShuttingDown
    case Transmit(_, Send(_)) =>
      if m == Answer(Retryable) then BackingOff else if m == Answer(Permanent) then TerminalFailure else s.sh.status
    case Wait(StopStatus) => Stopped
    case Fail(_, TermStatus(_)) => Stopped
    case _ => s.sh.status
  }

  /** The worker shows `BackingOff` from a retry to the next attempt, `TerminalFailure` from a
      permanent refusal, `Stopped` at its end, and otherwise, after each batch and each pause,
      whether it is going on or shutting down. No other step changes the status. */
  lemma ShowsStatus(s: State, m: WorkerMove)
    requires Step(s, ByWorker(m)).Some?
    ensures Step(s, ByWorker(m)).value.sh.status == StatusAfter(s, m)
  {
    match s.w.pc
    case Refresh(_, at) => { match at case Retiring(_) => case RetireCheck(_) => case Taking(_, _, _) => }
    case Input(at) => InputKeepsStatus(s, at);
    case Assemble(at) => { match at case First(_) => case Fill(_) => case Next(_, _) => case Export(_) => }
    case Wait(at) => { match at case WaitReceive => case WaitBatch(_) => case WaitFence => case CheckFence =>
                       case StopStatus => case StopNotify => }
    case Transmit(_, at) => { match at case NextSegment => case Backoff(_) =>
                              case Send(_) => { match m.outcome case Accepted(_) => case InvalidPayload =>
                                                case Retryable => case Permanent => } }
    case Settle(_, _, at) => { match at case Complete => case Publish => case Progress => }
    case Fail(_, at) => { match at case Terminal => case TermShutdown => case TermFence => case TermWait =>
                          case TermClear => case TermStatus(_) => case TermNotify(_) => }
  }

  lemma InputKeepsStatus(s: State, at: InputPc)
    requires s.w.pc == Input(at)
    ensures InputStep(s, at).sh.status == s.sh.status
  {
    match at
    case Top =>
    case Choose =>
    case Poll(_) =>
    case Pop(AtTop) =>
    case Pop(InReceive) =>
    case Pop(InDrain) =>
    case Pop(InLastPoll) =>
    case Pop(InBatch(_)) =>
    case Pop(InBatchWoken(_)) =>
    case ReleaseRecord(_, _) =>
    case ReleaseBytes(InLastPoll, _) =>
    case ReleaseBytes(InBatch(_), _) =>
    case ReleaseBytes(InBatchWoken(_), _) =>
    case ReleaseBytes(_, _) =>
  }

  /** `stop_acceptance`, operation by operation: acceptance ends first; the status is overwritten
      unless it was read as `Stopped`; then the three permits are stored. */
  lemma StopStores(s: State)
    requires Step(s, ByHandle(StopAcceptance)).Some?
    ensures var at, s' := s.sh.stop, Step(s, ByHandle(StopAcceptance)).value;
      && s'.sh.accepting == (s.sh.accepting && !at.NotStopping?)
      && s'.sh.status == (if at.StopStoreStatus? then ShuttingDown else s.sh.status)
      && s'.sh.shutdownPermit == (s.sh.shutdownPermit || at.StopShutdown?)
      && s'.sh.recordsPermit == (s.sh.recordsPermit || at.StopRecords?)
      && s'.sh.flushPermit == (s.sh.flushPermit || at.StopFlush?)
      && (at.StopLoadStatus? ==> (s'.sh.stop.StopStoreStatus? <==> s.sh.status != Stopped))
      && (at.StopFlush? <==> s'.sh.stop.NotStopping?)
      && s'.w == s.w && s'.h == s.h && s'.producers == s.producers && s'.lanes == s.lanes
  {
    match s.sh.stop
    case NotStopping =>
    case StopLoadStatus =>
    case StopStoreStatus =>
    case StopShutdown =>
    case StopRecords =>
    case StopFlush =>
  }

  /** When the handle can take this step: `stop_acceptance` not in the middle of letting go of the
      sink nor of a reset, slot before registration, the fence's stores in order, the abort only
      after acceptance is stopped and the sink let go, while the worker has not returned. */
  lemma HandleMovesIff(s: State, m: HandleMove)
    ensures Step(s, ByHandle(m)).Some? <==>
      match m
      case StopAcceptance => !Resetting(s.w.pc) && (s.sh.stop.NotStopping? ==> s.sh.slot == s.sh.handle)
      case ClearSlot => s.sh.slot && s.sh.stop.NotStopping?
      case ReleaseHandle => s.sh.handle && !s.sh.slot
      case FenceStore => s.sh.fence == Dropping
      case FenceNotify => s.sh.fence == Closed
      case Abort =>
        && !s.sh.accepting && s.sh.stop.NotStopping? && !s.sh.slot && !s.sh.handle
        && !s.w.pc.Aborted? && s.w.pc != Wait(Drained) && !(s.w.pc.Fail? && s.w.pc.fail.Discarded?)
      case ResetStep => s.w.pc.Aborted? && !s.w.pc.reset.ResetDone?
  {
    match m
    case StopAcceptance =>
    case ClearSlot =>
    case ReleaseHandle =>
    case FenceStore =>
    case FenceNotify =>
    case Abort =>
    case ResetStep =>
  }

  /** Emptying the slot, letting go of the registration and the fence's two stores do nothing else:
      in particular `replace` does not stop acceptance. */
  lemma ReleaseKeepsRunning(s: State, m: HandleMove)
    requires m.ClearSlot? || m.ReleaseHandle? || m.FenceStore? || m.FenceNotify?
    requires Step(s, ByHandle(m)).Some?
    ensures var s' := Step(s, ByHandle(m)).value;
      && s'.sh.accepting == s.sh.accepting && s'.sh.status == s.sh.status && s'.sh.stop == s.sh.stop
      && s'.sh.slot == (s.sh.slot && !m.ClearSlot?) && s'.sh.handle == (s.sh.handle && !m.ReleaseHandle?)
      && s'.sh.recordsPermit == (s.sh.recordsPermit || m.FenceNotify?)
      && s'.sh.shutdownPermit == s.sh.shutdownPermit && s'.sh.flushPermit == s.sh.flushPermit
      && s'.w == s.w && s'.h == s.h && s'.producers == s.producers && s'.lanes == s.lanes
  {
    match m case ClearSlot => case ReleaseHandle => case FenceStore => case FenceNotify =>
  }

  /** The aborted worker's report zeroes one counter after the other, then stores `Stopped`, then
      wakes every enabled caller. */
  lemma ResetStores(s: State)
    requires Step(s, ByHandle(ResetStep)).Some?
    ensures s.w.pc.Aborted?
    ensures var at, s' := s.w.pc.reset, Step(s, ByHandle(ResetStep)).value;
      && s'.sh.used.normalDepth == (if at.ZeroNormalDepth? then 0 else s.sh.used.normalDepth)
      && s'.sh.used.reservedDepth == (if at.ZeroReservedDepth? then 0 else s.sh.used.reservedDepth)
      && s'.sh.used.normalBytes == (if at.ZeroNormalBytes? then 0 else s.sh.used.normalBytes)
      && s'.sh.used.reservedBytes == (if at.ZeroReservedBytes? then 0 else s.sh.used.reservedBytes)
      && s'.sh.status == (if at.StoreStopped? then Stopped else s.sh.status)
      && |s'.flushers| == |s.flushers|
      && (forall f :: 0 <= f < |s.flushers| ==>
            if at.WakeCallers? then Notified(s.flushers[f], s'.flushers[f]) else s'.flushers[f] == s.flushers[f])
      && s'.w.pc == Aborted(match at
                            case ZeroNormalDepth => ZeroReservedDepth
                            case ZeroReservedDepth => ZeroNormalBytes
                            case ZeroNormalBytes => ZeroReservedBytes
                            case ZeroReservedBytes => StoreStopped
                            case StoreStopped => WakeCallers
                            case _ => ResetDone)
  {
    match s.w.pc.reset
    case ZeroNormalDepth =>
    case ZeroReservedDepth =>
    case ZeroNormalBytes =>
    case ZeroReservedBytes =>
    case StoreStopped =>
    case WakeCallers =>
  }

  // ---------------------------------------------------------------- progress

  /** Completing one record publishes the watermark, and then wakes every enabled caller, exactly if
      its ticket lies above the watermark; otherwise the next record follows at once. */
  lemma PublishesIff(s: State, m: WorkerMove, again: WorkerMove, last: WorkerMove)
    requires s.w.pc.Settle? && s.w.pc.settle.Complete? && s.w.pc.logs != []
    ensures Step(s, ByWorker(m)).Some?
    ensures var log, mid := s.w.pc.logs[0], Step(s, ByWorker(m)).value;
      if log.ticket <= s.w.tracker.watermark then
        mid.w.pc == Settle(s.w.pc.logs[1..], s.w.pc.resume, Complete) && mid.sh == s.sh
      else
        && Step(mid, ByWorker(again)).Some?
        && var published := Step(mid, ByWorker(again)).value;
        && published.sh.completedTicket == mid.w.tracker.watermark
        && Step(published, ByWorker(last)).Some?
        && var woken := Step(published, ByWorker(last)).value;
        && woken.w.pc == Settle(s.w.pc.logs[1..], s.w.pc.resume, Complete)
        && |woken.flushers| == |s.flushers|
        && forall f :: 0 <= f < |s.flushers| ==> Notified(s.flushers[f], woken.flushers[f])
  {
    match s.w.pc case Settle(_, _, Complete) =>
  }
}
