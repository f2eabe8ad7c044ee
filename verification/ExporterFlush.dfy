/** The flush barrier: what a `Flushed` report promises, and when a waiting caller is woken. */
module ExporterFlush {
  import opened Records
  import opened Wrappers
  import opened Watermark
  import opened Exporter
  import opened ExporterShape
  import opened ExporterTickets

  // ---------------------------------------------------------------- invariants

  ghost predicate Finished(done: seq<QueuedLog>, t: Ticket) {
    exists log :: log in done && log.ticket == t
  }

  /** The worker's tracker holds exactly the tickets of the completed records. */
  ghost predicate Tracked(s: State) {
    && s.w.tracker.Normal()
    && (forall t: Ticket :: s.w.tracker.Has(t) <==> t >= 1 && Finished(s.h.done, t))
    && (forall log <- s.h.done :: log in s.h.issued)
  }

  /** Each answered record is counted once, as exported or as rejected; an oversize one as rejected. */
  ghost predicate Tallied(s: State) {
    s.sh.oversize <= s.sh.rejected &&
    (s.w.pc.Aborted? || s.sh.exported + s.sh.rejected == |s.h.done| + (if s.w.pc.Settle? then |s.w.pc.logs| else 0))
  }

  /** The published watermark trails the worker's only between the two. */
  ghost predicate Published(s: State) {
    && s.sh.completedTicket <= s.w.tracker.watermark
    && (s.sh.completedTicket == s.w.tracker.watermark || s.w.pc.Aborted? || (s.w.pc.Settle? && s.w.pc.settle.Publish?))
  }

  /** Published, but the waiters have not been woken yet; or the handle is about to wake them. */
  predicate AboutToWake(pc: WorkerPc) {
    (pc.Settle? && pc.settle.Progress?) || Resetting(pc)
  }

  ghost predicate FlusherSound(f: FlusherPc, nextTicket: Ticket, completedTicket: Ticket, aboutToWake: bool) {
    match f
    case FlushIdle => true
    case FlushWake(target) => target <= nextTicket
    case FlushEnable(target) => target <= nextTicket
    case FlushLoad(target, _) => target <= nextTicket
    case FlushLoadStatus(target, completed, notified) =>
      target <= nextTicket && completed < target && completed <= completedTicket
          && (notified || completedTicket < target || aboutToWake)
    case FlushWait(target, notified) =>
      target <= nextTicket && (notified || completedTicket < target || aboutToWake)
    case FlushDone(status, target, completed) =>
      target <= nextTicket && completed <= completedTicket && (status.Flushed? ==> target <= completed)
  }

  ghost predicate FlushersSound(s: State) {
    forall i :: 0 <= i < |s.flushers| ==>
      FlusherSound(s.flushers[i], s.sh.nextTicket, s.sh.completedTicket, AboutToWake(s.w.pc))
  }

  lemma InitFlush(cfg: Config)
    ensures Tracked(Init(cfg)) && Tallied(Init(cfg)) && Published(Init(cfg)) && FlushersSound(Init(cfg))
  {
  }

  // ---------------------------------------------------------------- worker steps

  ghost predicate SameProgress(s: State, s': State) {
    && s'.w.tracker == s.w.tracker && s'.h.done == s.h.done && s'.sh.completedTicket == s.sh.completedTicket
    && (s'.flushers == s.flushers || s'.flushers == WakeFlushers(s.flushers))
  }

  ghost predicate CountsSettled(s: State, s': State) {
    && s'.sh.exported + s'.sh.rejected
        == s.sh.exported + s.sh.rejected + (if s'.w.pc.Settle? then |s'.w.pc.logs| else 0)
    && 0 <= s'.sh.oversize - s.sh.oversize <= s'.sh.rejected - s.sh.rejected
    && (s'.w.pc.Settle? ==> s'.w.pc.settle.Complete?)
  }

  lemma WorkerKeepsProgress(s: State, m: WorkerMove)
    requires WorkerStep(s, m).Some? && !s.w.pc.Settle?
    ensures SameProgress(s, WorkerStep(s, m).value) && CountsSettled(s, WorkerStep(s, m).value)
  {
    match s.w.pc
    case Refresh(site, at) => RefreshKeepsProgress(s, site, at);
    case Input(at) => InputKeepsProgress(s, at);
    case Assemble(at) => BatchKeepsProgress(s, at);
    case Wait(at) => WaitKeepsProgress(s, at, m);
    case Transmit(stack, at) => TransmitKeepsProgress(s, stack, at, m);
    case Fail(stack, at) => FailKeepsProgress(s, stack, at);
  }

  lemma RefreshKeepsProgress(s: State, site: Site, at: RefreshPc)
    requires RefreshStep(s, site, at).Some?
    ensures SameProgress(s, RefreshStep(s, site, at).value) && CountsSettled(s, RefreshStep(s, site, at).value)
  {
    match at
    case Retiring(_) =>
    case RetireCheck(_) =>
    case Taking(_, _, _) =>
  }

  lemma BatchKeepsProgress(s: State, at: BatchPc)
    ensures SameProgress(s, BatchStep(s, at)) && CountsSettled(s, BatchStep(s, at))
  {
    match at
    case First(_) =>
    case Fill(_) =>
    case Next(_, _) =>
    case Export(_) =>
  }

  lemma TransmitKeepsProgress(s: State, stack: seq<seq<QueuedLog>>, at: TransmitPc, m: WorkerMove)
    requires TransmitStep(s, stack, at, m).Some?
    ensures SameProgress(s, TransmitStep(s, stack, at, m).value)
        && CountsSettled(s, TransmitStep(s, stack, at, m).value)
  {
    match at
    case NextSegment =>
    case Send(records) => AnswerKeepsProgress(s, stack, records, m.outcome);
    case Backoff(_) =>
  }

  lemma InputKeepsProgress(s: State, at: InputPc)
    ensures SameProgress(s, InputStep(s, at)) && CountsSettled(s, InputStep(s, at))
  {
    match at
    case Top =>
    case Choose =>
    case Poll(_) =>
    case Pop(AtTop) =>
    case Pop(InReceive) =>
    case Pop(InDrain) =>
    case Pop(InLastPoll) =>
    case Pop(InBatch(_)) =>
    case Pop(InBatchWoken(_)) =>
    case ReleaseRecord(_, _) =>
    case ReleaseBytes(InLastPoll, _) =>
    case ReleaseBytes(InBatch(_), _) =>
    case ReleaseBytes(InBatchWoken(_), _) =>
    case ReleaseBytes(_, _) =>
  }

  lemma WaitKeepsProgress(s: State, at: WaitPc, m: WorkerMove)
    requires WaitStep(s, at, m).Some?
    ensures SameProgress(s, WaitStep(s, at, m).value) && CountsSettled(s, WaitStep(s, at, m).value)
  {
    match at
    case WaitReceive =>
    case WaitBatch(_) =>
    case WaitFence =>
    case CheckFence =>
    case StopStatus =>
    case StopNotify =>
    case Drained =>
  }

  lemma AnswerKeepsProgress(s: State, stack: seq<seq<QueuedLog>>, records: seq<QueuedLog>, outcome: Outcome)
    requires AnswerStep(s, stack, records, outcome).Some?
    ensures SameProgress(s, AnswerStep(s, stack, records, outcome).value)
    ensures CountsSettled(s, AnswerStep(s, stack, records, outcome).value)
  {
    match outcome
    case Accepted(_) =>
    case InvalidPayload =>
    case Retryable =>
    case Permanent =>
  }

  lemma FailKeepsProgress(s: State, stack: seq<seq<QueuedLog>>, at: FailPc)
    requires FailStep(s, stack, at).Some?
    ensures SameProgress(s, FailStep(s, stack, at).value) && CountsSettled(s, FailStep(s, stack, at).value)
  {
    match at
    case Terminal =>
    case TermShutdown =>
    case TermFence =>
    case TermWait =>
    case TermClear =>
    case TermStatus(_) =>
    case TermNotify(_) =>
    case Discarded(_) =>
  }

  /** A worker that is not settling keeps every progress invariant. */
  lemma UnsettledKeepsFlush(s: State, m: WorkerMove)
    requires Tracked(s) && Tallied(s) && Published(s) && FlushersSound(s)
    requires WorkerStep(s, m).Some? && !s.w.pc.Settle?
    ensures var s' := WorkerStep(s, m).value; Tracked(s') && Tallied(s') && Published(s') && FlushersSound(s')
  {
    WorkerKeepsProgress(s, m);
    WorkerFrame(s, m);
  }

  lemma SettlingKeepsTracker(s: State, logs: seq<QueuedLog>, resume: Resume)
    requires Tracked(s) && Accounted(s) && s.w.pc == Settle(logs, resume, Complete)
    ensures Tracked(SettleStep(s, logs, resume, Complete))
  {
    if logs != [] {
      var log, s' := logs[0], SettleStep(s, logs, resume, Complete);
      CompleteAddsOne(s.w.tracker, log.ticket);
      SettledWasIssued(s, logs, resume);
      forall t: Ticket | t >= 1
        ensures Finished(s'.h.done, t) <==> Finished(s.h.done, t) || t == log.ticket
      {
        assert s'.h.done == s.h.done + [log];
        assert log in s'.h.done;
        if Finished(s.h.done, t) {
          var d :| d in s.h.done && d.ticket == t;
          assert d in s'.h.done;
        }
      }
    }
  }

  lemma SettledWasIssued(s: State, logs: seq<QueuedLog>, resume: Resume)
    requires Accounted(s) && s.w.pc == Settle(logs, resume, Complete) && logs != []
    ensures logs[0] in s.h.issued
  {
    var log := logs[0];
    CountMember(logs + ResumeLogs(resume), log);
    assert (logs + ResumeLogs(resume))[0] == log;
    assert Occurrences(s, log) == Count(s.h.issued, log);
    CountMember(s.h.issued, log);
  }

  lemma SettlingKeepsFlush(s: State, logs: seq<QueuedLog>, resume: Resume, at: SettlePc)
    requires Tracked(s) && Tallied(s) && Published(s) && FlushersSound(s) && Accounted(s)
    requires s.w.pc == Settle(logs, resume, at)
    ensures var s' := SettleStep(s, logs, resume, at); Tracked(s') && Tallied(s') && Published(s') && FlushersSound(s')
  {
    match at
    case Complete =>
      SettlingKeepsTracker(s, logs, resume);
      SettlingKeepsTally(s, logs, resume);
    case Publish =>
    case Progress =>
  }

  lemma SettlingKeepsTally(s: State, logs: seq<QueuedLog>, resume: Resume)
    requires Tracked(s) && Tallied(s) && Published(s) && FlushersSound(s) && s.w.pc == Settle(logs, resume, Complete)
    ensures var s' := SettleStep(s, logs, resume, Complete); Tallied(s') && Published(s') && FlushersSound(s')
  {
    if logs == [] {
      match resume case ToTop => case ToFill(_) => case ToNextSegment(_) =>
    } else {
      CompleteAddsOne(s.w.tracker, logs[0].ticket);
    }
  }

  // ---------------------------------------------------------------- the other actors

  lemma FlushStepKeepsFlush(s: State, f: nat, m: FlushMove)
    requires Tracked(s) && Tallied(s) && Published(s) && FlushersSound(s) && FlushStep(s, f, m).Some?
    ensures var s' := FlushStep(s, f, m).value; Tracked(s') && Tallied(s') && Published(s') && FlushersSound(s')
  {
    FlushFrame(s, f, m);
    FlusherMoves(s, f, m);
  }

  lemma FlusherMoves(s: State, f: nat, m: FlushMove)
    requires FlushersSound(s) && FlushStep(s, f, m).Some?
    ensures var s' := FlushStep(s, f, m).value;
      && FlushersSound(s') && s'.sh.completedTicket == s.sh.completedTicket
      && s'.sh.exported == s.sh.exported && s'.sh.rejected == s.sh.rejected && s'.sh.oversize == s.sh.oversize
  {
    match s.flushers[f]
    case FlushIdle =>
    case FlushWake(_) =>
    case FlushEnable(_) =>
    case FlushLoad(_, _) =>
    case FlushLoadStatus(_, _, _) =>
    case FlushWait(_, _) =>
    case FlushDone(_, _, _) =>
  }

  lemma ProducerKeepsFlush(s: State, t: nat, m: ProducerMove)
    requires Tracked(s) && Tallied(s) && Published(s) && FlushersSound(s) && ProducerStep(s, t, m).Some?
    ensures var s' := ProducerStep(s, t, m).value; Tracked(s') && Tallied(s') && Published(s') && FlushersSound(s')
  {
    ProducerKeepsProgress(s, t, m);
  }

  lemma ProducerKeepsProgress(s: State, t: nat, m: ProducerMove)
    requires ProducerStep(s, t, m).Some?
    ensures var s' := ProducerStep(s, t, m).value;
      && s'.w == s.w && s'.flushers == s.flushers && s'.h.done == s.h.done
      && (forall log <- s.h.issued :: log in s'.h.issued)
      && s'.sh.completedTicket == s.sh.completedTicket && s.sh.nextTicket <= s'.sh.nextTicket
      && s'.sh.exported == s.sh.exported && s'.sh.rejected == s.sh.rejected && s'.sh.oversize == s.sh.oversize
  {
    match s.producers[t].pc
    case Outside =>
    case Loaded =>
    case Resolving(_) =>
    case ClaimBytes(_, _) =>
    case UndoBytes(_, _) =>
    case ClaimRecord(_, _) =>
    case UndoRecord(_, _) =>
    case ReturnBytes(_, _) =>
    case Ticketing(_, _) =>
    case Pushing(_) =>
    case Notifying =>
    case Leaving =>
    case Closing =>
    case Gone =>
  }

  lemma HandleKeepsFlush(s: State, m: HandleMove)
    requires Tracked(s) && Tallied(s) && Published(s) && FlushersSound(s) && HandleStep(s, m).Some?
    ensures var s' := HandleStep(s, m).value; Tracked(s') && Tallied(s') && Published(s') && FlushersSound(s')
  {
    HandleFrame(s, m);
    match m
    case StopAcceptance => StopFrame(s);
    case ClearSlot =>
    case ReleaseHandle =>
    case FenceStore =>
    case FenceNotify =>
    case Abort =>
    case ResetStep =>
  }

  lemma StepKeepsFlush(s: State, a: Action)
    requires Accounted(s) && Tracked(s) && Tallied(s) && Published(s) && FlushersSound(s) && Step(s, a).Some?
    ensures var s' := Step(s, a).value; Tracked(s') && Tallied(s') && Published(s') && FlushersSound(s')
  {
    match a
    case ByProducer(t, m) => ProducerKeepsFlush(s, t, m);
    case ByWorker(m) =>
      if s.w.pc.Settle? {
        SettlingKeepsFlush(s, s.w.pc.logs, s.w.pc.resume, s.w.pc.settle);
      } else {
        UnsettledKeepsFlush(s, m);
      }
    case ByFlusher(f, m) => FlushStepKeepsFlush(s, f, m);
    case ByHandle(m) => HandleKeepsFlush(s, m);
  }
}
